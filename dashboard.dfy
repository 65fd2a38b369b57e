/** The officer dashboard's tab filter (`GRODashboard`,
    components/Views.tsx:435-448) over the fixed demonstration records of
    constants.ts. */
module Dashboard {
  import opened Types

  datatype Tab = NewTab | PendingTab | ResolvedTab

  /** Whether a status belongs to a tab. Each test compares with the raw
      literal and with the enumeration value, as the source does; for "new"
      and "resolved" the two are the same string. */
  predicate InBucket(tab: Tab, status: string) {
    match tab
    case NewTab => status == "Submitted" || status == Submitted
    case PendingTab => status == "Pending" || status == "Reopened" || status == PendingStatus
    case ResolvedTab => status == "Resolved" || status == Resolved
  }

  /** `a` is `b` with some elements left out, the rest in their order. */
  predicate IsSubsequence(a: seq<Grievance>, b: seq<Grievance>)
    decreases |b|
  {
    if a == [] then true
    else if b == [] then false
    else (a[0] == b[0] && IsSubsequence(a[1..], b[1..])) || IsSubsequence(a, b[1..])
  }

  /** `MOCK_GRIEVANCES.filter(...)` for the selected tab: exactly the records
      in that tab's bucket, in their original order. */
  function FilterByTab(gs: seq<Grievance>, tab: Tab): (r: seq<Grievance>)
    ensures |r| <= |gs|
  {
    if gs == [] then []
    else
      var rest := FilterByTab(gs[1..], tab);
      if InBucket(tab, gs[0].status) then [gs[0]] + rest else rest
  }

  /** A tab lists a record exactly when the record is in the input and its
      status is in the tab's bucket. */
  lemma {:induction false} FilterMembers(gs: seq<Grievance>, tab: Tab, g: Grievance)
    ensures g in FilterByTab(gs, tab) <==> g in gs && InBucket(tab, g.status)
  {
    if gs != [] {
      FilterMembers(gs[1..], tab, g);
      assert gs == [gs[0]] + gs[1..];
    }
  }

  /** A tab keeps every occurrence of a record in its bucket and no
      occurrence of any other record. */
  lemma {:induction false} FilterCounts(gs: seq<Grievance>, tab: Tab, g: Grievance)
    ensures multiset(FilterByTab(gs, tab))[g] == if InBucket(tab, g.status) then multiset(gs)[g] else 0
  {
    if gs != [] {
      FilterCounts(gs[1..], tab, g);
      assert gs == [gs[0]] + gs[1..];
      assert multiset(gs) == multiset([gs[0]]) + multiset(gs[1..]);
    }
  }

  /** A tab keeps the records of the input in their order. */
  lemma {:induction false} FilterIsSubsequence(gs: seq<Grievance>, tab: Tab)
    ensures IsSubsequence(FilterByTab(gs, tab), gs)
    decreases |gs|
  {
    if gs != [] {
      var r := FilterByTab(gs, tab);
      var rest := FilterByTab(gs[1..], tab);
      FilterIsSubsequence(gs[1..], tab);
      if InBucket(tab, gs[0].status) {
        assert r[0] == gs[0] && r[1..] == rest;
      }
    }
  }

  /** "new" holds exactly the status "Submitted", "pending" exactly
      "Pending" and "Reopened", "resolved" exactly "Resolved". */
  lemma BucketStatuses(status: string)
    ensures InBucket(NewTab, status) <==> status == Submitted
    ensures InBucket(PendingTab, status) <==> status == PendingStatus || status == Reopened
    ensures InBucket(ResolvedTab, status) <==> status == Resolved
  {
  }

  /** No status is in two buckets; "Under Review" and "In Progress" are in
      none. */
  lemma BucketsDisjoint(status: string, t: Tab, u: Tab)
    ensures InBucket(t, status) && InBucket(u, status) ==> t == u
    ensures !InBucket(t, UnderReview) && !InBucket(t, InProgress)
  {
  }

  predicate InSomeBucket(status: string) {
    InBucket(NewTab, status) || InBucket(PendingTab, status) || InBucket(ResolvedTab, status)
  }

  /** The records no tab shows. */
  function Unlisted(gs: seq<Grievance>): (r: seq<Grievance>)
    ensures forall g :: g in r <==> g in gs && !InSomeBucket(g.status)
  {
    if gs == [] then []
    else
      var rest := Unlisted(gs[1..]);
      if InSomeBucket(gs[0].status) then rest else [gs[0]] + rest
  }

  /** The three tabs and the unlisted records split the input exactly: every
      record is counted once. */
  lemma {:induction false} TabsPartition(gs: seq<Grievance>)
    ensures |FilterByTab(gs, NewTab)| + |FilterByTab(gs, PendingTab)| + |FilterByTab(gs, ResolvedTab)|
            + |Unlisted(gs)| == |gs|
  {
    if gs != [] {
      TabsPartition(gs[1..]);
      BucketsDisjoint(gs[0].status, NewTab, PendingTab);
      BucketsDisjoint(gs[0].status, NewTab, ResolvedTab);
      BucketsDisjoint(gs[0].status, PendingTab, ResolvedTab);
    }
  }

  /** MOCK_GRIEVANCES (constants.ts:3-62). */
  const MockGrievances: seq<Grievance> := [
    Grievance(
      id := "HP-2024-001",
      subject := "Water Supply Disruption in Mandi",
      description := "Severe water shortage in Ward 4, Mandi for the last 5 days.",
      location := "Mandi",
      district := "Mandi",
      category := "Water Supply",
      dateFiled := "2024-05-20",
      status := PendingStatus,
      files := ["evidence.jpg"],
      atr := None,
      lastUpdated := "2024-05-21",
      isAnonymized := false,
      timeline := [
        TimelineEvent("Grievance Filed", "2024-05-20", Completed),
        TimelineEvent("Assigned to Department", "2024-05-21", Completed),
        TimelineEvent("Resolution in Progress", "2024-05-22", Current)
      ],
      replies := []),
    Grievance(
      id := "HP-2024-002",
      subject := "Potholes on Shimla Bypass",
      description := "Dangerous potholes causing accidents near the bypass tunnel.",
      location := "Shimla",
      district := "Shimla",
      category := "Roads & Transport",
      dateFiled := "2024-05-18",
      status := Resolved,
      files := [],
      atr := Some("Road maintenance crew dispatched and potholes filled on 2024-05-19."),
      lastUpdated := "2024-05-19",
      isAnonymized := false,
      timeline := [
        TimelineEvent("Grievance Filed", "2024-05-18", Completed),
        TimelineEvent("Work Started", "2024-05-19", Completed),
        TimelineEvent("Closed", "2024-05-19", Completed)
      ],
      replies := [GrievanceReply("Nodal Officer", "We have dispatched a team to fix this.", "2024-05-18")]),
    Grievance(
      id := "HP-2024-003",
      subject := "Pension Delay",
      description := "Old age pension not received for 3 months.",
      location := "Hamirpur",
      district := "Hamirpur",
      category := "Social Welfare",
      dateFiled := "2024-05-22",
      status := Submitted,
      files := ["pension_book.pdf"],
      atr := None,
      lastUpdated := "2024-05-22",
      isAnonymized := true,
      timeline := [TimelineEvent("Grievance Filed", "2024-05-22", Current)],
      replies := [])
  ]

  /** The filter over three records, one at a time. */
  lemma FilterThree(a: Grievance, b: Grievance, c: Grievance, tab: Tab)
    ensures FilterByTab([a, b, c], tab) ==
      (if InBucket(tab, a.status) then [a] else []) +
      (if InBucket(tab, b.status) then [b] else []) +
      (if InBucket(tab, c.status) then [c] else [])
  {
    var last := if InBucket(tab, c.status) then [c] else [];
    assert [c][1..] == [];
    assert FilterByTab([c], tab) == last;
    var middle := if InBucket(tab, b.status) then [b] + last else last;
    assert [b, c][1..] == [c];
    assert FilterByTab([b, c], tab) == middle;
    assert [a, b, c][1..] == [b, c];
  }

  /** On the demonstration records each tab shows exactly one: "new" the
      pension case, "pending" the Mandi water case, "resolved" the Shimla
      potholes. */
  lemma MockTabs()
    ensures FilterByTab(MockGrievances, NewTab) == [MockGrievances[2]]
    ensures FilterByTab(MockGrievances, PendingTab) == [MockGrievances[0]]
    ensures FilterByTab(MockGrievances, ResolvedTab) == [MockGrievances[1]]
  {
    var m := MockGrievances;
    assert m == [m[0], m[1], m[2]];
    assert m[0].status == PendingStatus && m[1].status == Resolved && m[2].status == Submitted;
    FilterThree(m[0], m[1], m[2], NewTab);
    FilterThree(m[0], m[1], m[2], PendingTab);
    FilterThree(m[0], m[1], m[2], ResolvedTab);
  }
}
