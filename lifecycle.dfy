/** Building grievance records and the two list transforms the controller
    applies to a stored list: putting a new record in front, and replacing
    records by id (App.tsx). */
module Lifecycle {
  import opened Types
  import opened JsText

  /** One reading of the browser clock: `Date.now()` and the matching
      `new Date().toISOString()`. */
  datatype ClockReading = ClockReading(millis: nat, iso: string)

  /** `HPG-${Date.now()}` */
  function GrievanceId(millis: nat): (id: string)
    ensures |id| > 4 && id[..4] == "HPG-" && id[4..] == DecimalString(millis)
  {
    "HPG-" + DecimalString(millis)
  }

  /** Ids built from different clock readings differ. */
  lemma GrievanceIdInjective(a: nat, b: nat)
    ensures GrievanceId(a) == GrievanceId(b) ==> a == b
  {
    if GrievanceId(a) == GrievanceId(b) {
      assert DecimalString(a) == GrievanceId(a)[4..];
      DecimalStringInjective(a, b);
    }
  }

  /** Exactly one milestone is `current`, and it is the last one. */
  predicate OnlyLastIsCurrent(t: seq<TimelineEvent>) {
    |t| > 0 && forall i :: 0 <= i < |t| ==> (t[i].status == Current <==> i == |t| - 1)
  }

  function Titles(t: seq<TimelineEvent>): (r: seq<string>)
    ensures |r| == |t| && forall i :: 0 <= i < |t| ==> r[i] == t[i].title
  {
    if t == [] then [] else [t[0].title] + Titles(t[1..])
  }

  /** The record `handleSubmitGrievance` builds from the wizard's data
      (App.tsx:55-73). */
  function NewGrievance(data: FormData, at: ClockReading): (g: Grievance)
  {
    Grievance(
      id := GrievanceId(at.millis),
      subject := data.subject,
      description := data.description,
      location := data.location,
      district := data.district,
      category := data.category,
      dateFiled := at.iso,
      status := UnderReview,
      files := data.files,
      atr := None,
      lastUpdated := at.iso,
      isAnonymized := data.isAnonymized,
      timeline := [
        TimelineEvent("Submitted", at.iso, Completed),
        TimelineEvent("Assigned to Department", at.iso, Completed),
        TimelineEvent("Under Review", at.iso, Current)
      ],
      replies := [])
  }

  /** What a freshly filed record holds: the form's fields, the clock's
      time, status "Under Review", no replies and no action taken report, and
      a three-step timeline whose earlier steps are completed and whose last
      step is the current one and names the status. */
  predicate FiledFrom(g: Grievance, data: FormData, at: ClockReading) {
    && g.id == GrievanceId(at.millis)
    && g.subject == data.subject && g.description == data.description
    && g.location == data.location && g.district == data.district
    && g.category == data.category && g.isAnonymized == data.isAnonymized
    && g.files == data.files && g.atr == None
    && g.dateFiled == at.iso && g.lastUpdated == at.iso
    && g.status == UnderReview && g.replies == []
    && Titles(g.timeline) == ["Submitted", "Assigned to Department", "Under Review"]
    && (forall i :: 0 <= i < |g.timeline| ==> g.timeline[i].date == at.iso)
    && OnlyLastIsCurrent(g.timeline)
    && (forall i :: 0 <= i < |g.timeline| - 1 ==> g.timeline[i].status == Completed)
    && g.timeline[|g.timeline| - 1].title == g.status
  }

  lemma NewGrievanceShape(data: FormData, at: ClockReading)
    ensures FiledFrom(NewGrievance(data, at), data, at)
  {
  }

  /** The record `handleReplyGrievance` builds (App.tsx:92-102): one reply by
      "You" goes after the existing ones, `lastUpdated` moves to the clock,
      and nothing else changes. */
  function AddReply(g: Grievance, message: string, now: string): (r: Grievance)
    ensures |r.replies| == |g.replies| + 1 && r.replies[..|g.replies|] == g.replies
    ensures r.replies[|g.replies|] == GrievanceReply("You", message, now)
    ensures r.lastUpdated == now
    ensures r.(replies := g.replies, lastUpdated := g.lastUpdated) == g
  {
    var reply := GrievanceReply(author := "You", message := message, date := now);
    g.(replies := g.replies + [reply], lastUpdated := now)
  }

  /** `[newGrievance, ...existing]` */
  function Prepend(g: Grievance, existing: seq<Grievance>): (r: seq<Grievance>)
    ensures |r| == |existing| + 1 && r[0] == g && r[1..] == existing
  {
    [g] + existing
  }

  /** `list.map(g => g.id === updated.id ? updated : g)` */
  function ReplaceById(list: seq<Grievance>, updated: Grievance): (r: seq<Grievance>)
    ensures |r| == |list|
    ensures forall i :: 0 <= i < |list| ==> r[i] == (if list[i].id == updated.id then updated else list[i])
  {
    if list == [] then []
    else [if list[0].id == updated.id then updated else list[0]] + ReplaceById(list[1..], updated)
  }

  function Ids(list: seq<Grievance>): (r: seq<string>)
    ensures |r| == |list| && forall i :: 0 <= i < |list| ==> r[i] == list[i].id
  {
    if list == [] then [] else [list[0].id] + Ids(list[1..])
  }

  predicate UniqueIds(list: seq<Grievance>) {
    forall i, j :: 0 <= i < j < |list| ==> list[i].id != list[j].id
  }

  /** Replacing by id keeps the list's ids, in order, and a list without a
      record of that id comes back unchanged. */
  lemma ReplaceKeepsIds(list: seq<Grievance>, updated: Grievance)
    ensures Ids(ReplaceById(list, updated)) == Ids(list)
    ensures updated.id !in Ids(list) ==> ReplaceById(list, updated) == list
  {
    var r := ReplaceById(list, updated);
    assert Ids(r) == Ids(list) by {
      assert forall i :: 0 <= i < |list| ==> Ids(r)[i] == Ids(list)[i];
    }
    if updated.id !in Ids(list) {
      assert forall i :: 0 <= i < |list| ==> list[i].id == Ids(list)[i];
    }
  }

  /** When ids are unique, replacing by id rewrites exactly the one record
      with that id. */
  lemma ReplaceUniqueIsUpdateAt(list: seq<Grievance>, updated: Grievance, k: nat)
    requires UniqueIds(list) && k < |list| && list[k].id == updated.id
    ensures ReplaceById(list, updated) == list[k := updated]
  {
    var r := ReplaceById(list, updated);
    forall i | 0 <= i < |list| ensures r[i] == list[k := updated][i] {
      if i < k { assert list[i].id != list[k].id; }
      else if i > k { assert list[k].id != list[i].id; }
    }
  }

  /** Replacing twice with the same record is replacing once. */
  lemma ReplaceIdempotent(list: seq<Grievance>, updated: Grievance)
    ensures ReplaceById(ReplaceById(list, updated), updated) == ReplaceById(list, updated)
  {
    var once := ReplaceById(list, updated);
    var twice := ReplaceById(once, updated);
    forall i | 0 <= i < |list| ensures twice[i] == once[i] {}
  }

  /** A record whose id is new keeps the ids of the prepended list unique. */
  lemma PrependKeepsUniqueIds(g: Grievance, existing: seq<Grievance>)
    requires UniqueIds(existing) && g.id !in Ids(existing)
    ensures UniqueIds(Prepend(g, existing))
  {
    var r := Prepend(g, existing);
    forall i, j | 0 <= i < j < |r| ensures r[i].id != r[j].id {
      if i == 0 { assert r[j] == existing[j - 1] && Ids(existing)[j - 1] == r[j].id; }
      else { assert r[i] == existing[i - 1] && r[j] == existing[j - 1]; }
    }
  }

  /** The list after filing one record per form, in order, starting from
      `existing` (each submission prepends). */
  function FileAll(existing: seq<Grievance>, forms: seq<FormData>, clock: seq<ClockReading>): (r: seq<Grievance>)
    requires |forms| == |clock|
    ensures |r| == |existing| + |forms|
  {
    if forms == [] then existing
    else
      var n := |forms| - 1;
      Prepend(NewGrievance(forms[n], clock[n]), FileAll(existing, forms[..n], clock[..n]))
  }

  /** Filing the first i + 1 forms is filing form i in front of the first i. */
  lemma FileAllStep(existing: seq<Grievance>, forms: seq<FormData>, clock: seq<ClockReading>, i: nat)
    requires |forms| == |clock| && i < |forms|
    ensures FileAll(existing, forms[..i + 1], clock[..i + 1])
         == Prepend(NewGrievance(forms[i], clock[i]), FileAll(existing, forms[..i], clock[..i]))
  {
    assert forms[..i + 1][..i] == forms[..i] && clock[..i + 1][..i] == clock[..i];
  }

  predicate DistinctMillis(clock: seq<ClockReading>) {
    forall i, j :: 0 <= i < j < |clock| ==> clock[i].millis != clock[j].millis
  }

  /** Filing N grievances from an empty list gives N records, most recent
      first. */
  lemma {:induction false} FileAllOrder(forms: seq<FormData>, clock: seq<ClockReading>)
    requires |forms| == |clock|
    ensures |FileAll([], forms, clock)| == |forms|
    ensures forall i :: 0 <= i < |forms| ==>
      FileAll([], forms, clock)[i] == NewGrievance(forms[|forms| - 1 - i], clock[|forms| - 1 - i])
  {
    if forms != [] {
      var n := |forms| - 1;
      FileAllOrder(forms[..n], clock[..n]);
      var rest := FileAll([], forms[..n], clock[..n]);
      var r := FileAll([], forms, clock);
      assert r == Prepend(NewGrievance(forms[n], clock[n]), rest);
      forall i | 0 <= i < |forms|
        ensures r[i] == NewGrievance(forms[n - i], clock[n - i])
      {
        if i > 0 { assert r[i] == rest[i - 1]; }
      }
    }
  }

  lemma FiledIdAt(forms: seq<FormData>, clock: seq<ClockReading>, i: nat)
    requires |forms| == |clock| && i < |forms|
    ensures |FileAll([], forms, clock)| == |forms|
    ensures FileAll([], forms, clock)[i].id == GrievanceId(clock[|forms| - 1 - i].millis)
  {
    FileAllOrder(forms, clock);
  }

  /** Two records filed from an empty list whose clock readings differ have
      different ids. */
  lemma FiledIdsDiffer(forms: seq<FormData>, clock: seq<ClockReading>, i: nat, j: nat)
    requires |forms| == |clock| && i < j < |forms|
    requires clock[|forms| - 1 - i].millis != clock[|forms| - 1 - j].millis
    ensures |FileAll([], forms, clock)| == |forms|
    ensures FileAll([], forms, clock)[i].id != FileAll([], forms, clock)[j].id
  {
    FiledIdAt(forms, clock, i);
    FiledIdAt(forms, clock, j);
    GrievanceIdInjective(clock[|forms| - 1 - i].millis, clock[|forms| - 1 - j].millis);
  }

  /** The records filed from an empty list have pairwise distinct ids as long
      as the clock readings taken for them are distinct. */
  lemma FileAllUniqueIds(forms: seq<FormData>, clock: seq<ClockReading>)
    requires |forms| == |clock| && DistinctMillis(clock)
    ensures UniqueIds(FileAll([], forms, clock))
  {
    var r := FileAll([], forms, clock);
    var n := |forms| - 1;
    forall i, j | 0 <= i < j < |r| ensures r[i].id != r[j].id {
      assert clock[n - j].millis != clock[n - i].millis;
      FiledIdsDiffer(forms, clock, i, j);
    }
  }
}
