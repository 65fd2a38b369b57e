/** The mock sign-in dialog (`AuthWizard`, components/Views.tsx): a mobile
    number, a four-digit one-time code shown on screen, verification by
    string equality, and a fixed officer identity behind a demo button. */
module Auth {
  import opened Types
  import opened JsText

  datatype AuthStep = MobileStep | OtpStep

  const InvalidMobileMessage: string := "Please enter a valid 10-digit mobile number"
  const IncorrectOtpMessage: string := "Incorrect OTP. Please try again."

  /** The guard of `handleSendOtp`: ten characters that JavaScript's
      `Number()` does not read as NaN. */
  predicate MobileAccepted(mobile: string) {
    |mobile| == 10 && !NumberIsNaN(mobile)
  }

  /** Every ten-digit string passes the guard. */
  lemma TenDigitsAccepted(mobile: string)
    requires |mobile| == 10 && AllDigits(mobile)
    ensures MobileAccepted(mobile)
  {
    DigitsAreNumeric(mobile);
  }

  // The guard is looser than "ten digits": white space, an exponent, a hex
  // prefix, a sign or `Infinity` also pass it.

  /** Ten white-space characters read as the number 0. */
  lemma BlankMobileAccepted(mobile: string)
    requires |mobile| == 10 && AllWhiteSpace(mobile)
    ensures MobileAccepted(mobile)
  {
    TrimEmptyIff(mobile);
  }

  /** Digits, `e`, digits: a number in exponent notation. */
  lemma ExponentMobileAccepted(mantissa: string, exponent: string)
    requires IsDecimalDigits(mantissa) && IsDecimalDigits(exponent)
    requires |mantissa| + |exponent| == 9
    ensures MobileAccepted(mantissa + "e" + exponent)
  {
    ExponentForm(exponent);
    UnsignedForm(mantissa, "e" + exponent);
    var s := mantissa + "e" + exponent;
    assert s == mantissa + ("e" + exponent);
    NoPadding(s);
  }

  /** `0x` and eight hexadecimal digits. */
  lemma HexMobileAccepted(hex: string)
    requires |hex| == 8 && forall i :: 0 <= i < |hex| ==> IsHexDigit(hex[i])
    ensures MobileAccepted("0x" + hex)
  {
    var s := "0x" + hex;
    assert s[2..] == hex;
    assert IsNonDecimalInteger(s);
    NoPadding(s);
  }

  /** A sign and nine digits. */
  lemma SignedMobileAccepted(sign: char, digits: string)
    requires sign == '+' || sign == '-'
    requires |digits| == 9 && AllDigits(digits)
    ensures MobileAccepted([sign] + digits)
  {
    UnsignedForm(digits, []);
    assert digits + [] == digits;
    SignedForm(sign, digits);
    NoPadding([sign] + digits);
  }

  /** `Infinity` and two trailing blanks. */
  lemma InfinityMobileAccepted(pad: string)
    requires |pad| == 2 && AllWhiteSpace(pad)
    ensures MobileAccepted("Infinity" + pad)
  {
    TrimPadded("Infinity", pad);
  }

  /** Digits (the first not zero) and then a lower-case letter other than
      `e` are not a number. */
  lemma LetterMobileRejected(digits: string, rest: string)
    requires IsDecimalDigits(digits) && digits[0] != '0'
    requires rest != [] && 'a' <= rest[0] <= 'z' && rest[0] != 'e'
    requires !IsJsWhiteSpace(rest[|rest| - 1])
    ensures !MobileAccepted(digits + rest)
  {
    var s := digits + rest;
    LetterStringIsNoLiteral(digits, rest);
    assert s[0] == digits[0];
    NoPadding(s);
  }

  /** The grammar half of `LetterMobileRejected`: such a string is no
      numeric literal. */
  lemma LetterStringIsNoLiteral(digits: string, rest: string)
    requires IsDecimalDigits(digits) && digits[0] != '0'
    requires rest != [] && 'a' <= rest[0] <= 'z' && rest[0] != 'e'
    ensures !IsStrDecimal(digits + rest) && !IsNonDecimalInteger(digits + rest)
  {
    var s := digits + rest;
    assert s[0] == digits[0] && IsDigit(s[0]);
    DigitPrefixConcat(digits, rest);
    assert s[|digits|..] == rest;
    assert !IsOptExponent(rest);
    assert !IsUnsignedDecimal(s) by { assert s != "Infinity"; }
  }

  /** A code as `Math.floor(1000 + Math.random() * 9000).toString()` makes it:
      four digits, the first not zero. */
  predicate IsOtpCode(c: string) {
    |c| == 4 && AllDigits(c) && c[0] != '0'
  }

  /** `Math.floor(1000 + random * 9000)` for a `random` in [0, 1): an integer
      from 1000 to 9999. */
  function OtpNumber(random: real): (n: nat)
    requires 0.0 <= random < 1.0
    ensures 1000 <= n <= 9999
  {
    (1000.0 + random * 9000.0).Floor
  }

  /** Every code the wizard can generate has the shape above. */
  lemma GeneratedCodesAreCodeShaped(random: real)
    requires 0.0 <= random < 1.0
    ensures IsOtpCode(DecimalString(OtpNumber(random)))
  {
    FourDigitRendering(OtpNumber(random));
  }

  /** The identity a successful verification hands on (Views.tsx:574-579). */
  function CitizenIdentity(mobile: string): (u: User)
    ensures u.id == mobile && u.mobile == mobile
    ensures u.role == Citizen && u.name == "Citizen User"
  {
    User(id := mobile, name := "Citizen User", role := Citizen, mobile := mobile)
  }

  /** The fixed identity of the officer demo button (Views.tsx:587-592). */
  function OfficerIdentity(): (u: User)
    ensures u.id == "admin" && u.name == "Nodal Officer"
    ensures u.role == Gro && u.mobile == "9999999999"
  {
    User(id := "admin", name := "Nodal Officer", role := Gro, mobile := "9999999999")
  }

  class AuthWizard {
    var step: AuthStep
    var mobile: string
    var otp: string
    var generatedOtp: string
    var error: string

    /** A code is on display only once one has been generated for a number
        the guard accepted, and every generated code has the shape above. */
    ghost predicate Valid()
      reads this
    {
      && (generatedOtp == "" || IsOtpCode(generatedOtp))
      && (step == OtpStep ==> generatedOtp != "" && MobileAccepted(mobile))
    }

    constructor ()
      ensures Valid()
      ensures step == MobileStep && mobile == "" && otp == "" && generatedOtp == "" && error == ""
    {
      step, mobile, otp, generatedOtp, error := MobileStep, "", "", "", "";
    }

    /** The mobile number field's `onChange`; the field is shown only at the
        number entry step (Views.tsx:603-612). */
    method EditMobile(text: string)
      requires Valid() && step == MobileStep
      modifies this
      ensures Valid()
      ensures mobile == text
      ensures step == old(step) && otp == old(otp) && generatedOtp == old(generatedOtp) && error == old(error)
    {
      mobile := text;
    }

    /** The code field's `onChange`; the field is shown only at the code
        entry step (Views.tsx:615-628). */
    method EditOtp(text: string)
      requires Valid() && step == OtpStep
      modifies this
      ensures Valid()
      ensures otp == text
      ensures step == old(step) && mobile == old(mobile) && generatedOtp == old(generatedOtp) && error == old(error)
    {
      otp := text;
    }

    /** `handleSendOtp` (Views.tsx:560-570). A number the guard refuses sets
        the error and changes nothing else; an accepted one clears the error,
        replaces any earlier code by the one drawn from `random` (the value
        `Math.random()` returned) and moves to code entry. Its button is shown
        only at the number entry step (Views.tsx:613). */
    method SendOtp(random: real)
      requires Valid() && step == MobileStep && 0.0 <= random < 1.0
      modifies this
      ensures Valid()
      ensures mobile == old(mobile) && otp == old(otp)
      ensures !MobileAccepted(mobile) ==>
        error == InvalidMobileMessage && step == old(step) && generatedOtp == old(generatedOtp)
      ensures MobileAccepted(mobile) ==>
        error == "" && step == OtpStep && generatedOtp == DecimalString(OtpNumber(random))
    {
      var accepted := MobileAccepted(mobile);
      if !accepted {
        error := InvalidMobileMessage;
        return;
      }
      IssueCode(random);
    }

    /** The accepted branch of `handleSendOtp`: clear the error, store the
        code and show the code entry step. */
    method IssueCode(random: real)
      requires Valid() && MobileAccepted(mobile) && 0.0 <= random < 1.0
      modifies this
      ensures Valid()
      ensures mobile == old(mobile) && otp == old(otp)
      ensures error == "" && step == OtpStep && generatedOtp == DecimalString(OtpNumber(random))
    {
      error := "";
      var n := OtpNumber(random);
      FourDigitRendering(n);
      generatedOtp := DecimalString(n);
      step := OtpStep;
    }

    /** `handleVerify` (Views.tsx:572-584): the entered code must equal the
        generated one exactly; success yields the citizen identity of the
        entered number, failure sets the error. Neither changes the step or
        the code, so the user may retry. Its button is shown only at the code
        entry step (Views.tsx:629), so a success is always for a number the
        guard accepted and a code that was issued. */
    method Verify() returns (u: Option<User>)
      requires Valid() && step == OtpStep
      modifies this
      ensures Valid()
      ensures u.Some? <==> otp == generatedOtp
      ensures u.Some? ==> u.value == CitizenIdentity(mobile) && error == old(error)
      ensures u.Some? ==> MobileAccepted(u.value.mobile) && IsOtpCode(otp)
      ensures u.None? ==> error == IncorrectOtpMessage
      ensures step == old(step) && mobile == old(mobile) && otp == old(otp) && generatedOtp == old(generatedOtp)
    {
      if otp == generatedOtp {
        u := Some(CitizenIdentity(mobile));
      } else {
        error := IncorrectOtpMessage;
        u := None;
      }
    }

    /** "Change Mobile Number" (Views.tsx:630): back to number entry; the old
        code stays stored until the next one overwrites it. */
    method ChangeMobileNumber()
      requires Valid() && step == OtpStep
      modifies this
      ensures Valid()
      ensures step == MobileStep
      ensures mobile == old(mobile) && otp == old(otp) && generatedOtp == old(generatedOtp) && error == old(error)
    {
      step := MobileStep;
    }

    /** `handleOfficerDemo` (Views.tsx:586-594): no number, no code, always
        the same officer. */
    method OfficerDemo() returns (u: User)
      ensures u == OfficerIdentity()
    {
      u := OfficerIdentity();
    }
  }

  /** While a code is on display, an empty entry never verifies, nor does
      "0000" or any other entry that is not four digits with a non-zero
      first digit. */
  lemma OnlyCodeShapedEntriesVerify(w: AuthWizard, entry: string)
    requires w.Valid() && w.step == OtpStep
    requires !IsOtpCode(entry)
    ensures entry != w.generatedOtp
  {
  }

  /** Signing in with any ten-digit number, whatever code is drawn: "0000"
      never verifies, and the code shown does. */
  method CitizenSignIn(mobile: string, random: real) returns (wrong: Option<User>, right: Option<User>)
    requires |mobile| == 10 && AllDigits(mobile)
    requires 0.0 <= random < 1.0
    ensures wrong == None
    ensures right == Some(CitizenIdentity(mobile))
  {
    var w := new AuthWizard();
    w.EditMobile(mobile);
    TenDigitsAccepted(mobile);
    w.SendOtp(random);
    GeneratedCodesAreCodeShaped(random);
    w.EditOtp("0000");
    wrong := w.Verify();
    w.EditOtp(w.generatedOtp);
    right := w.Verify();
  }
}
