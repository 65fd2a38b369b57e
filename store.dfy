/** The browser's key-value store as the portal uses it: `hp_user` holds the
    signed-in identity and `hp_grievances_<mobile>` the list of that
    mobile number's grievances, most recent first. Values are kept already
    parsed; an absent entry, or one holding something other than a list,
    reads as the empty list. */
module SessionStore {
  import opened Types

  datatype Entry = UserEntry(user: User) | ListEntry(items: seq<Grievance>)

  type Store = map<string, Entry>

  const UserKey: string := "hp_user"
  const GrievancePrefix: string := "hp_grievances_"

  /** `hp_grievances_${mobile}` */
  function GrievanceKey(mobile: string): (k: string)
    ensures |k| == |GrievancePrefix| + |mobile|
    ensures k[..|GrievancePrefix|] == GrievancePrefix && k[|GrievancePrefix|..] == mobile
  {
    GrievancePrefix + mobile
  }

  /** No grievance key is the session key, and different mobile numbers
      have different grievance keys. */
  lemma GrievanceKeysAreSeparate(m: string, n: string)
    ensures GrievanceKey(m) != UserKey
    ensures GrievanceKey(m) == GrievanceKey(n) ==> m == n
  {
    assert GrievanceKey(m)[3] == 'g' && UserKey[3] == 'u';
    if GrievanceKey(m) == GrievanceKey(n) {
      assert m == GrievanceKey(m)[|GrievancePrefix|..];
    }
  }

  /** The identity restored at start-up: the `hp_user` entry, if it holds a
      user; any other entry there reads as no session. */
  function SessionAt(s: Store): (u: Option<User>)
    ensures u.Some? <==> UserKey in s && s[UserKey].UserEntry?
    ensures u.Some? ==> s[UserKey] == UserEntry(u.value)
  {
    if UserKey in s && s[UserKey].UserEntry? then Some(s[UserKey].user) else None
  }

  /** `JSON.parse(localStorage.getItem(key) || "[]")` */
  function ListAt(s: Store, key: string): (l: seq<Grievance>)
    ensures key in s && s[key].ListEntry? ==> l == s[key].items
    ensures !(key in s && s[key].ListEntry?) ==> l == []
  {
    if key in s && s[key].ListEntry? then s[key].items else []
  }

  /** `localStorage.setItem(key, JSON.stringify(items))` */
  function SaveList(s: Store, key: string, items: seq<Grievance>): (s': Store)
    ensures ListAt(s', key) == items
    ensures forall k :: k != key ==> (k in s' <==> k in s) && (k in s ==> s'[k] == s[k])
    ensures key in s'
  {
    s[key := ListEntry(items)]
  }

  /** Writing one grievance list neither changes the session nor any other
      mobile number's list. */
  lemma SaveListIsolated(s: Store, mobile: string, items: seq<Grievance>, other: string)
    ensures SessionAt(SaveList(s, GrievanceKey(mobile), items)) == SessionAt(s)
    ensures other != mobile ==>
      ListAt(SaveList(s, GrievanceKey(mobile), items), GrievanceKey(other)) == ListAt(s, GrievanceKey(other))
  {
    GrievanceKeysAreSeparate(mobile, other);
  }

  /** `localStorage.setItem('hp_user', JSON.stringify(user))` */
  function SaveSession(s: Store, u: User): (s': Store)
    ensures SessionAt(s') == Some(u)
    ensures forall k :: k != UserKey ==> (k in s' <==> k in s) && (k in s ==> s'[k] == s[k])
  {
    s[UserKey := UserEntry(u)]
  }

  /** `localStorage.removeItem('hp_user')` */
  function ClearSession(s: Store): (s': Store)
    ensures SessionAt(s') == None && UserKey !in s'
    ensures forall k :: k != UserKey ==> (k in s' <==> k in s) && (k in s ==> s'[k] == s[k])
  {
    s - {UserKey}
  }

  /** Signing out leaves every grievance list as it was. */
  lemma ClearSessionKeepsLists(s: Store, mobile: string)
    ensures ListAt(ClearSession(s), GrievanceKey(mobile)) == ListAt(s, GrievanceKey(mobile))
  {
    GrievanceKeysAreSeparate(mobile, mobile);
  }

  /** Signing in leaves every grievance list as it was. */
  lemma SaveSessionKeepsLists(s: Store, u: User, mobile: string)
    ensures ListAt(SaveSession(s, u), GrievanceKey(mobile)) == ListAt(s, GrievanceKey(mobile))
  {
    GrievanceKeysAreSeparate(mobile, mobile);
  }
}
