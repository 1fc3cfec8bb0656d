/**
 Which records a history page shows: the newest groups before a position, with the system records among them, as
 many groups as the limit and the byte budget allow. Walking pages to the end shows every record once, exactly when
 no group straddles a page boundary.
 */
module HistorySelection {
  import opened Bytes
  import opened Timeline
  import opened HistoryRecords

  const MAX_GROUPS_PER_PAGE := 5

  /** A requested group limit; `None` if it is absent or not finite. */
  type Limit = Option<real>

  function NormalizeLimit(limit: Limit): (n: nat)
    ensures 1 <= n <= MAX_GROUPS_PER_PAGE
  {
    match limit
    case None => MAX_GROUPS_PER_PAGE
    case Some(r) => if r.Floor < 1 then 1 else if r.Floor > MAX_GROUPS_PER_PAGE then MAX_GROUPS_PER_PAGE else r.Floor
  }

  datatype Group = Group(id: Option<string>, first: nat, records: seq<EventRecord>)

  predicate IsSystem(r: EventRecord) { r.event.IsSystem() }

  function IndexOfGroup(groups: seq<Group>, id: Option<string>): (i: Option<nat>)
    ensures i.Some? ==> i.value < |groups| && groups[i.value].id == id
    ensures i.None? ==> forall k :: 0 <= k < |groups| ==> groups[k].id != id
  {
    if |groups| == 0 then None
    else if groups[|groups| - 1].id == id then Some(|groups| - 1)
    else IndexOfGroup(groups[..|groups| - 1], id)
  }

  function AddToGroups(groups: seq<Group>, r: EventRecord): seq<Group> {
    match IndexOfGroup(groups, r.event.group)
    case Some(i) => groups[i := groups[i].(records := groups[i].records + [r])]
    case None => groups + [Group(r.event.group, r.position, [r])]
  }

  /** Groups in the order in which their first records appear. */
  function GroupsOf(records: seq<EventRecord>): seq<Group> {
    if |records| == 0 then []
    else
      var front, last := GroupsOf(records[..|records| - 1]), records[|records| - 1];
      if IsSystem(last) then front else AddToGroups(front, last)
  }

  function SystemsOf(records: seq<EventRecord>): seq<EventRecord> {
    if |records| == 0 then []
    else SystemsOf(records[..|records| - 1]) + if IsSystem(records[|records| - 1]) then [records[|records| - 1]] else []
  }

  function Between(records: seq<EventRecord>, from: nat, to: nat): seq<EventRecord> {
    if |records| == 0 then []
    else
      var last := records[|records| - 1];
      Between(records[..|records| - 1], from, to) + if from <= last.position < to then [last] else []
  }

  function Flat(groups: seq<Group>): seq<EventRecord> {
    if |groups| == 0 then [] else Flat(groups[..|groups| - 1]) + groups[|groups| - 1].records
  }

  function BytesOf(records: seq<EventRecord>): nat {
    if |records| == 0 then 0 else BytesOf(records[..|records| - 1]) + records[|records| - 1].bytes
  }

  function Window(selected: seq<Group>, systems: seq<EventRecord>, position: nat): seq<EventRecord>
    requires |selected| > 0
  {
    SortByPosition(Flat(selected) + Between(systems, selected[0].first, position))
  }

  datatype Selection = Selected(records: seq<EventRecord>, next: nat) | TooLarge

  /** Drops oldest groups until the window fits. */
  function Shrink(selected: seq<Group>, systems: seq<EventRecord>, position: nat): Selection
    requires |selected| > 0
  {
    var window := Window(selected, systems, position);
    if BytesOf(window) <= MAX_WINDOW_BYTES then Selected(window, selected[0].first)
    else if |selected| == 1 then TooLarge
    else Shrink(selected[1..], systems, position)
  }

  function Lowest(records: seq<EventRecord>): nat
    requires |records| > 0
  {
    if |records| == 1 then records[0].position
    else
      var front, last := Lowest(records[..|records| - 1]), records[|records| - 1].position;
      if last < front then last else front
  }

  function SelectSystems(systems: seq<EventRecord>, position: nat): Selection {
    var selected := Between(systems, 0, position);
    if |selected| == 0 then Selected([], 0)
    else if BytesOf(selected) > MAX_WINDOW_BYTES then TooLarge
    else Selected(SortByPosition(selected), Lowest(selected))
  }

  function Newest(groups: seq<Group>, n: nat): seq<Group> {
    if |groups| <= n then groups else groups[|groups| - n..]
  }

  function Select(records: seq<EventRecord>, position: nat, limit: Limit): Selection {
    var selected := Newest(GroupsOf(records), NormalizeLimit(limit));
    if |selected| > 0 then Shrink(selected, SystemsOf(records), position) else SelectSystems(SystemsOf(records), position)
  }

  method SelectWindow(records: seq<EventRecord>, position: nat, limit: Limit) returns (selection: Selection)
    requires forall r :: r in records ==> r.position < position
    ensures selection == Select(records, position, limit)
  {
    var groups: seq<Group> := [];
    var systems: seq<EventRecord> := [];
    for n := 0 to |records|
      invariant groups == GroupsOf(records[..n]) && systems == SystemsOf(records[..n])
    {
      assert records[..n + 1][..n] == records[..n];
      if IsSystem(records[n]) {
        systems := systems + [records[n]];
      } else {
        groups := AddToGroups(groups, records[n]);
      }
    }
    assert records[..|records|] == records;
    var selected := Newest(groups, NormalizeLimit(limit));
    if |selected| == 0 {
      return SelectSystems(systems, position);
    }
    ghost var chosen := selected;
    while true
      invariant |selected| > 0 && Shrink(selected, systems, position) == Shrink(chosen, systems, position)
      decreases |selected|
    {
      var window := Window(selected, systems, position);
      if BytesOf(window) <= MAX_WINDOW_BYTES {
        return Selected(window, selected[0].first);
      }
      if |selected| == 1 {
        return TooLarge;
      }
      selected := selected[1..];
    }
  }

  // ----- What the groups are -----

  ghost predicate InGroup(r: EventRecord, id: Option<string>) { !IsSystem(r) && r.event.group == id }

  /** The group holds the records of its id; `first` is where they start. */
  ghost predicate Holding(g: Group, records: seq<EventRecord>) {
    && (forall r :: r in g.records <==> r in records && InGroup(r, g.id))
    && (forall r :: r in g.records ==> g.first <= r.position)
    && DistinctPositions(g.records) && |g.records| > 0 && g.records[0].position == g.first
  }

  ghost predicate Ordered(groups: seq<Group>) {
    forall i, j :: 0 <= i < j < |groups| ==> groups[i].id != groups[j].id && groups[i].first < groups[j].first
  }

  ghost predicate HasGroup(groups: seq<Group>, id: Option<string>) {
    exists i :: 0 <= i < |groups| && groups[i].id == id
  }

  /** `groups` are the groups of `records`, oldest first. */
  ghost predicate GroupsOfRecords(groups: seq<Group>, records: seq<EventRecord>) {
    && Ordered(groups)
    && (forall i :: 0 <= i < |groups| ==> Holding(groups[i], records))
    && forall r :: r in records && !IsSystem(r) ==> HasGroup(groups, r.event.group)
  }

  lemma {:induction false} Keeps(g: Group, records: seq<EventRecord>, r: EventRecord)
    requires Holding(g, records) && !InGroup(r, g.id)
    ensures Holding(g, records + [r])
  {
  }

  lemma {:induction false} Grows(g: Group, records: seq<EventRecord>, r: EventRecord)
    requires Holding(g, records) && InGroup(r, g.id) && forall x :: x in records ==> x.position < r.position
    ensures Holding(g.(records := g.records + [r]), records + [r])
  {
    forall k | 0 <= k < |g.records|
      ensures g.records[k].position < r.position
    {
      assert g.records[k] in g.records;
    }
    assert g.records[0] in g.records;
  }

  lemma {:induction false} Begins(records: seq<EventRecord>, r: EventRecord)
    requires !IsSystem(r) && forall x :: x in records ==> !InGroup(x, r.event.group)
    ensures Holding(Group(r.event.group, r.position, [r]), records + [r])
  {
  }

  lemma {:induction false} AddToExisting(groups: seq<Group>, records: seq<EventRecord>, r: EventRecord, i: nat)
    requires GroupsOfRecords(groups, records) && !IsSystem(r) && forall x :: x in records ==> x.position < r.position
    requires i < |groups| && groups[i].id == r.event.group
    ensures GroupsOfRecords(groups[i := groups[i].(records := groups[i].records + [r])], records + [r])
  {
    hide Holding;
    var after := groups[i := groups[i].(records := groups[i].records + [r])];
    forall k | 0 <= k < |groups|
      ensures Holding(after[k], records + [r])
    {
      if k == i {
        Grows(groups[i], records, r);
      } else {
        assert groups[k].id != groups[i].id;
        Keeps(groups[k], records, r);
      }
    }
    forall id | HasGroup(groups, id)
      ensures HasGroup(after, id)
    {
      var k :| 0 <= k < |groups| && groups[k].id == id;
      assert after[k].id == id;
    }
    assert after[i].id == r.event.group;
  }

  lemma {:induction false} AddNew(groups: seq<Group>, records: seq<EventRecord>, r: EventRecord)
    requires GroupsOfRecords(groups, records) && !IsSystem(r) && forall x :: x in records ==> x.position < r.position
    requires !HasGroup(groups, r.event.group)
    ensures GroupsOfRecords(groups + [Group(r.event.group, r.position, [r])], records + [r])
  {
    var after := groups + [Group(r.event.group, r.position, [r])];
    forall k | 0 <= k < |groups|
      ensures after[k] == groups[k] && groups[k].first < r.position && groups[k].id != r.event.group && Holding(groups[k], records + [r])
    {
      assert groups[k].records[0] in groups[k].records;
      Keeps(groups[k], records, r);
    }
    Begins(records, r);
    hide Holding;
    forall id | HasGroup(groups, id)
      ensures HasGroup(after, id)
    {
      var k :| 0 <= k < |groups| && groups[k].id == id;
      assert after[k].id == id;
    }
    assert after[|groups|].id == r.event.group;
  }

  lemma {:induction false} SystemKeepsGroups(groups: seq<Group>, records: seq<EventRecord>, r: EventRecord)
    requires GroupsOfRecords(groups, records) && IsSystem(r)
    ensures GroupsOfRecords(groups, records + [r])
  {
    hide Holding, HasGroup;
    forall k | 0 <= k < |groups|
      ensures Holding(groups[k], records + [r])
    {
      Keeps(groups[k], records, r);
    }
  }

  lemma {:induction false} GroupsAre(records: seq<EventRecord>)
    requires Increasing(records)
    ensures GroupsOfRecords(GroupsOf(records), records)
  {
    if |records| > 0 {
      var front, last := records[..|records| - 1], records[|records| - 1];
      GroupsAre(front);
      assert front + [last] == records;
      var i := IndexOfGroup(GroupsOf(front), last.event.group);
      if IsSystem(last) {
        SystemKeepsGroups(GroupsOf(front), front, last);
      } else if i.Some? {
        AddToExisting(GroupsOf(front), front, last, i.value);
      } else {
        AddNew(GroupsOf(front), front, last);
      }
    }
  }

  lemma {:induction false} SystemsAre(records: seq<EventRecord>)
    requires Increasing(records)
    ensures Increasing(SystemsOf(records))
    ensures forall r :: r in SystemsOf(records) <==> r in records && IsSystem(r)
  {
    if |records| > 0 {
      var front := SystemsOf(records[..|records| - 1]);
      SystemsAre(records[..|records| - 1]);
      forall i | 0 <= i < |front|
        ensures front[i].position < records[|records| - 1].position
      {
        assert front[i] in front;
      }
    }
  }

  lemma {:induction false} BetweenIs(records: seq<EventRecord>, from: nat, to: nat)
    requires Increasing(records)
    ensures Increasing(Between(records, from, to))
    ensures forall r :: r in Between(records, from, to) <==> r in records && from <= r.position < to
  {
    if |records| > 0 {
      var front := Between(records[..|records| - 1], from, to);
      BetweenIs(records[..|records| - 1], from, to);
      forall i | 0 <= i < |front|
        ensures front[i].position < records[|records| - 1].position
      {
        assert front[i] in front;
      }
    }
  }

  // ----- What a window is -----

  lemma {:induction false} SamePlace(records: seq<EventRecord>, r: EventRecord, x: EventRecord)
    requires Increasing(records) && r in records && x in records && r.position == x.position
    ensures r == x
  {
    var i :| 0 <= i < |records| && records[i] == r;
    var j :| 0 <= j < |records| && records[j] == x;
    assert i == j;
  }

  lemma {:induction false} JoinPositions(a: seq<EventRecord>, b: seq<EventRecord>)
    requires DistinctPositions(a) && DistinctPositions(b) && forall r, x :: r in a && x in b ==> r.position != x.position
    ensures DistinctPositions(a + b)
  {
    forall i, j | 0 <= i < j < |a + b|
      ensures (a + b)[i].position != (a + b)[j].position
    {
      if i < |a| <= j {
        assert a[i] in a && b[j - |a|] in b;
      }
    }
  }

  lemma {:induction false} FlatIs(groups: seq<Group>)
    ensures forall r :: r in Flat(groups) <==> exists i :: 0 <= i < |groups| && r in groups[i].records
  {
    if |groups| > 0 {
      FlatIs(groups[..|groups| - 1]);
    }
  }

  lemma {:induction false} FlatDistinct(groups: seq<Group>, records: seq<EventRecord>)
    requires Increasing(records) && Ordered(groups) && forall i :: 0 <= i < |groups| ==> Holding(groups[i], records)
    ensures DistinctPositions(Flat(groups))
  {
    if |groups| > 0 {
      var front, last := groups[..|groups| - 1], groups[|groups| - 1];
      FlatDistinct(front, records);
      FlatIs(front);
      forall r, x | r in Flat(front) && x in last.records
        ensures r.position != x.position
      {
        var i :| 0 <= i < |front| && r in front[i].records;
        assert groups[i].id != last.id;
        if r.position == x.position {
          SamePlace(records, r, x);
        }
      }
      JoinPositions(Flat(front), last.records);
    }
  }

  /** Some group has records on both sides of `boundary`. */
  ghost predicate Straddled(records: seq<EventRecord>, boundary: nat) {
    exists r, x :: r in records && x in records && !IsSystem(r) && !IsSystem(x) && r.event.group == x.event.group
                   && r.position < boundary <= x.position
  }

  /** What a window from group `k` on shows: those groups, and the system records since the first of them. */
  ghost predicate Shown(groups: seq<Group>, k: nat, position: nat, r: EventRecord)
    requires k < |groups|
  {
    if IsSystem(r) then groups[k].first <= r.position < position else HasGroup(groups[k..], r.event.group)
  }

  lemma {:induction false} InSelected(records: seq<EventRecord>, groups: seq<Group>, r: EventRecord)
    requires forall i :: 0 <= i < |groups| ==> Holding(groups[i], records)
    ensures r in Flat(groups) <==> r in records && !IsSystem(r) && HasGroup(groups, r.event.group)
  {
    FlatIs(groups);
    if r in Flat(groups) {
      var i :| 0 <= i < |groups| && r in groups[i].records;
      assert groups[i].id == r.event.group;
    }
  }

  lemma {:induction false} WindowHolds(records: seq<EventRecord>, groups: seq<Group>, k: nat, position: nat)
    requires Increasing(records) && GroupsOfRecords(groups, records) && k < |groups|
    ensures Increasing(Window(groups[k..], SystemsOf(records), position))
    ensures forall r :: r in Window(groups[k..], SystemsOf(records), position) <==> r in records && Shown(groups, k, position, r)
  {
    hide SystemsOf, Between, Flat, Holding, HasGroup;
    var selected, systems := groups[k..], Between(SystemsOf(records), groups[k].first, position);
    SystemsAre(records);
    BetweenIs(SystemsOf(records), groups[k].first, position);
    FlatDistinct(selected, records);
    forall r
      ensures r in Flat(selected) <==> r in records && !IsSystem(r) && HasGroup(selected, r.event.group)
    {
      InSelected(records, selected, r);
    }
    forall r, x | r in Flat(selected) && x in systems
      ensures r.position != x.position
    {
      if r.position == x.position {
        SamePlace(records, r, x);
      }
    }
    JoinPositions(Flat(selected), systems);
    SortIs(Flat(selected) + systems);
  }

  ghost predicate Below(records: seq<EventRecord>, position: nat) {
    forall r :: r in records ==> r.position < position
  }

  lemma {:induction false} GroupOfRecord(records: seq<EventRecord>, groups: seq<Group>, r: EventRecord) returns (i: nat)
    requires GroupsOfRecords(groups, records) && r in records && !IsSystem(r)
    ensures i < |groups| && groups[i].id == r.event.group && groups[i].first <= r.position
    ensures groups[i].records[0] in records && InGroup(groups[i].records[0], groups[i].id)
  {
    assert HasGroup(groups, r.event.group);
    i :| 0 <= i < |groups| && groups[i].id == r.event.group;
    assert Holding(groups[i], records);
    assert groups[i].records[0] in groups[i].records;
  }

  lemma {:induction false} HeadOfGroup(records: seq<EventRecord>, groups: seq<Group>, i: nat) returns (head: EventRecord)
    requires GroupsOfRecords(groups, records) && i < |groups|
    ensures head in records && InGroup(head, groups[i].id) && head.position == groups[i].first
    ensures forall r :: r in records && InGroup(r, groups[i].id) ==> groups[i].first <= r.position
  {
    head := groups[i].records[0];
    assert Holding(groups[i], records);
    assert head in groups[i].records;
  }

  lemma {:induction false} OrderedFirst(groups: seq<Group>, i: nat, k: nat)
    requires Ordered(groups) && i < |groups| && k < |groups| && groups[i].first < groups[k].first
    ensures i < k
  {
  }

  lemma {:induction false} SelectedIndex(groups: seq<Group>, k: nat, i: nat)
    requires Ordered(groups) && k <= |groups| && i < |groups|
    ensures HasGroup(groups[k..], groups[i].id) <==> k <= i
  {
    if k <= i {
      assert groups[k..][i - k].id == groups[i].id;
    }
    forall j | 0 <= j < |groups[k..]|
      ensures groups[k..][j] == groups[k + j]
    {
    }
  }

  lemma {:induction false} ShownFromFirst(records: seq<EventRecord>, groups: seq<Group>, k: nat, position: nat, r: EventRecord)
    requires GroupsOfRecords(groups, records) && k < |groups| && Below(records, position) && r in records
    ensures Shown(groups, k, position, r) ==> groups[k].first <= r.position
    ensures groups[k].first <= r.position && !Straddled(records, groups[k].first) ==> Shown(groups, k, position, r)
  {
    hide Holding, HasGroup;
    if !IsSystem(r) {
      var i := GroupOfRecord(records, groups, r);
      var head := HeadOfGroup(records, groups, i);
      SelectedIndex(groups, k, i);
      assert i < k ==> groups[i].first < groups[k].first;
      assert k < i ==> groups[k].first < groups[i].first;
    }
  }

  lemma {:induction false} StraddlerLost(records: seq<EventRecord>, groups: seq<Group>, k: nat, position: nat)
    requires GroupsOfRecords(groups, records) && k < |groups| && Straddled(records, groups[k].first)
    ensures exists x :: x in records && groups[k].first <= x.position && !Shown(groups, k, position, x)
  {
    hide HasGroup, Holding;
    var r, x :| r in records && x in records && !IsSystem(r) && !IsSystem(x) && r.event.group == x.event.group
                && r.position < groups[k].first <= x.position;
    var i := GroupOfRecord(records, groups, r);
    OrderedFirst(groups, i, k);
    SelectedIndex(groups, k, i);
    assert !Shown(groups, k, position, x);
  }

  /** A window shows all records since its first group exactly when no group straddles its lower end. */
  lemma {:induction false} WindowIsRest(records: seq<EventRecord>, groups: seq<Group>, k: nat, position: nat)
    requires Increasing(records) && Below(records, position) && GroupsOfRecords(groups, records) && k < |groups|
    ensures Window(groups[k..], SystemsOf(records), position) == Between(records, groups[k].first, position)
            <==> !Straddled(records, groups[k].first)
  {
    hide Window, Between, SystemsOf, GroupsOfRecords, Shown, Straddled;
    var window, rest := Window(groups[k..], SystemsOf(records), position), Between(records, groups[k].first, position);
    WindowHolds(records, groups, k, position);
    BetweenIs(records, groups[k].first, position);
    if Straddled(records, groups[k].first) {
      StraddlerLost(records, groups, k, position);
      assert window != rest;
    } else {
      forall r
        ensures r in window <==> r in rest
      {
        if r in records {
          ShownFromFirst(records, groups, k, position, r);
        }
      }
      SameIncreasing(window, rest);
    }
  }

  // ----- What a selection is -----

  /** The window from group `m` on, within the byte budget. */
  ghost predicate IsPage(records: seq<EventRecord>, position: nat, m: nat, selection: Selection) {
    var groups := GroupsOf(records);
    && m < |groups|
    && selection == Selected(Window(groups[m..], SystemsOf(records), position), groups[m].first)
    && BytesOf(selection.records) <= MAX_WINDOW_BYTES
  }

  lemma {:induction false} ShrinkIs(records: seq<EventRecord>, position: nat, k: nat)
    requires k < |GroupsOf(records)|
    ensures var selection := Shrink(GroupsOf(records)[k..], SystemsOf(records), position);
            selection.Selected? ==> exists m: nat :: k <= m && IsPage(records, position, m, selection)
    decreases |GroupsOf(records)| - k
  {
    hide GroupsOf, SystemsOf, Window;
    var groups := GroupsOf(records);
    var selection := Shrink(groups[k..], SystemsOf(records), position);
    if BytesOf(Window(groups[k..], SystemsOf(records), position)) <= MAX_WINDOW_BYTES {
      assert IsPage(records, position, k, selection);
    } else if k + 1 < |groups| {
      assert groups[k..][1..] == groups[k + 1..];
      ShrinkIs(records, position, k + 1);
    }
  }

  /** Either the newest groups that fit, at most as many as the limit, or all system records if there are no groups. */
  lemma {:induction false} SelectionIs(records: seq<EventRecord>, position: nat, limit: Limit)
    requires Increasing(records) && Below(records, position) && Select(records, position, limit).Selected?
    ensures var selection := Select(records, position, limit);
            || (exists m: nat :: |GroupsOf(records)| <= m + NormalizeLimit(limit) && IsPage(records, position, m, selection))
            || (&& GroupsOf(records) == [] && selection.records == records && BytesOf(records) <= MAX_WINDOW_BYTES
                && forall r :: r in records ==> selection.next <= r.position)
    ensures |records| > 0 ==> Select(records, position, limit).next < position
  {
    hide Shrink, GroupsOf, SystemsOf, SelectSystems;
    var groups := GroupsOf(records);
    GroupsAre(records);
    if |groups| > 0 {
      NewestFit(records, position, limit);
      var m: nat :| |groups| <= m + NormalizeLimit(limit) && IsPage(records, position, m, Select(records, position, limit));
      var head := HeadOfGroup(records, groups, m);
    } else {
      OnlySystems(records, position);
    }
  }

  lemma {:induction false} NewestFit(records: seq<EventRecord>, position: nat, limit: Limit)
    requires |GroupsOf(records)| > 0 && Select(records, position, limit).Selected?
    ensures exists m: nat :: |GroupsOf(records)| <= m + NormalizeLimit(limit) && IsPage(records, position, m, Select(records, position, limit))
  {
    hide Shrink, GroupsOf, SystemsOf, Window, IsPage, NormalizeLimit;
    var groups := GroupsOf(records);
    var k: nat := if |groups| <= NormalizeLimit(limit) then 0 else |groups| - NormalizeLimit(limit);
    assert Newest(groups, NormalizeLimit(limit)) == groups[k..];
    ShrinkIs(records, position, k);
  }

  lemma {:induction false} LowestIs(records: seq<EventRecord>)
    requires |records| > 0
    ensures forall r :: r in records ==> Lowest(records) <= r.position
    ensures exists r :: r in records && r.position == Lowest(records)
  {
    if |records| > 1 {
      LowestIs(records[..|records| - 1]);
    } else {
      assert records[0] in records;
    }
  }

  lemma {:induction false} OnlySystems(records: seq<EventRecord>, position: nat)
    requires Increasing(records) && Below(records, position) && GroupsOfRecords([], records)
    requires SelectSystems(SystemsOf(records), position).Selected?
    ensures var selection := SelectSystems(SystemsOf(records), position);
            && selection.records == records && BytesOf(records) <= MAX_WINDOW_BYTES
            && (forall r :: r in records ==> selection.next <= r.position)
            && (|records| > 0 ==> selection.next < position)
  {
    forall r | r in records
      ensures IsSystem(r)
    {
      assert !HasGroup([], r.event.group);
    }
    SystemsAre(records);
    SameIncreasing(SystemsOf(records), records);
    BetweenIs(records, 0, position);
    SameIncreasing(Between(records, 0, position), records);
    SortsTo(records, records);
    if |records| > 0 {
      LowestIs(records);
    }
  }

  /** A page that leaves something older ends at the first record of a group. */
  lemma {:induction false} NextIsGrouped(records: seq<EventRecord>, position: nat, limit: Limit) returns (head: EventRecord)
    requires Increasing(records) && Below(records, position) && Select(records, position, limit).Selected?
    requires exists r :: r in records && r.position < Select(records, position, limit).next
    ensures head in records && !IsSystem(head) && head.position == Select(records, position, limit).next < position
  {
    hide Select, GroupsOfRecords, GroupsOf, Increasing, NormalizeLimit, IsSystem, Window, SystemsOf, BytesOf, Below;
    var selection := Select(records, position, limit);
    var r :| r in records && r.position < selection.next;
    assert |records| > 0;
    SelectionIs(records, position, limit);
    GroupsAre(records);
    var m: nat :| |GroupsOf(records)| <= m + NormalizeLimit(limit) && IsPage(records, position, m, selection);
    head := HeadOfGroup(records, GroupsOf(records), m);
  }

  // ----- Walking the pages -----

  /** Pages in the order in which they are asked for, the newest first, each with the limit of its request. */
  datatype Walk = Oldest(limit: Limit, window: seq<EventRecord>) | Newer(limit: Limit, window: seq<EventRecord>, older: Walk)

  predicate HasOlder(records: seq<EventRecord>, position: nat) {
    exists i :: 0 <= i < |records| && records[i].position < position
  }

  /** `walk` follows the pages of `records` from `position` to the end. */
  ghost predicate Follows(records: seq<EventRecord>, position: nat, walk: Walk)
    decreases walk
  {
    var selection := Select(records, position, walk.limit);
    && selection.Selected? && selection.records == walk.window
    && match walk
       case Oldest(_, _) => !HasOlder(records, selection.next)
       case Newer(_, _, older) => HasOlder(records, selection.next) && Follows(Between(records, 0, selection.next), selection.next, older)
  }

  ghost function Everything(walk: Walk): seq<EventRecord> {
    match walk
    case Oldest(_, window) => window
    case Newer(_, window, older) => Everything(older) + window
  }

  ghost predicate WithinBudget(walk: Walk) {
    BytesOf(walk.window) <= MAX_WINDOW_BYTES && (walk.Newer? ==> WithinBudget(walk.older))
  }

  /** Between two records of a group there are no records of other groups; system records may be anywhere. */
  ghost predicate Separated(records: seq<EventRecord>) {
    forall r, y, x :: r in records && y in records && x in records && !IsSystem(r) && !IsSystem(y) && !IsSystem(x)
                      && r.position < y.position < x.position && r.event.group == x.event.group
                      ==> y.event.group == r.event.group
  }

  lemma {:induction false} BeforeGroup(records: seq<EventRecord>, groups: seq<Group>, k: nat, r: EventRecord)
    requires GroupsOfRecords(groups, records) && k < |groups| && r in records && !IsSystem(r) && r.position < groups[k].first
    ensures r.event.group != groups[k].id
  {
    var head := HeadOfGroup(records, groups, k);
    assert InGroup(r, groups[k].id) <==> r.event.group == groups[k].id;
  }

  lemma {:induction false} Unstraddled(records: seq<EventRecord>, groups: seq<Group>, k: nat)
    requires Increasing(records) && GroupsOfRecords(groups, records) && k < |groups| && Separated(records)
    ensures !Straddled(records, groups[k].first)
  {
    hide GroupsOfRecords;
    var y := HeadOfGroup(records, groups, k);
    forall r, x | r in records && x in records && !IsSystem(r) && !IsSystem(x) && r.event.group == x.event.group
                  && r.position < groups[k].first
      ensures x.position < groups[k].first
    {
      BeforeGroup(records, groups, k, r);
      if y.position == x.position {
        SamePlace(records, x, y);
      }
    }
  }

  lemma {:induction false} Interleaved(records: seq<EventRecord>, groups: seq<Group>, r: EventRecord, y: EventRecord, x: EventRecord)
    requires Increasing(records) && GroupsOfRecords(groups, records)
    requires r in records && y in records && x in records && !IsSystem(r) && !IsSystem(y) && !IsSystem(x)
    requires r.position < y.position < x.position && r.event.group == x.event.group && y.event.group != r.event.group
    ensures exists k :: 0 <= k < |groups| && Straddled(records, groups[k].first)
  {
    hide GroupsOfRecords, IsSystem;
    var i := GroupOfRecord(records, groups, r);
    var j := GroupOfRecord(records, groups, y);
    var a := HeadOfGroup(records, groups, i);
    var b := HeadOfGroup(records, groups, j);
    if a.position == b.position {
      SamePlace(records, a, b);
    } else if a.position < b.position {
      assert Straddled(records, groups[j].first);
    } else {
      assert Straddled(records, groups[i].first);
    }
  }

  /** Groups are separated exactly when none of them straddles the start of another. */
  lemma {:induction false} SeparatedIff(records: seq<EventRecord>)
    requires Increasing(records)
    ensures Separated(records) <==> forall k :: 0 <= k < |GroupsOf(records)| ==> !Straddled(records, GroupsOf(records)[k].first)
  {
    hide GroupsOf, GroupsOfRecords, Straddled;
    var groups := GroupsOf(records);
    GroupsAre(records);
    if Separated(records) {
      forall k | 0 <= k < |groups|
        ensures !Straddled(records, groups[k].first)
      {
        Unstraddled(records, groups, k);
      }
    } else {
      var r, y, x :| r in records && y in records && x in records && !IsSystem(r) && !IsSystem(y) && !IsSystem(x)
                     && r.position < y.position < x.position && r.event.group == x.event.group && y.event.group != r.event.group;
      Interleaved(records, groups, r, y, x);
    }
  }

  lemma {:induction false} SplitAt(records: seq<EventRecord>, boundary: nat, position: nat)
    requires Increasing(records) && Below(records, position) && boundary <= position
    ensures Between(records, 0, boundary) + Between(records, boundary, position) == records
  {
    var low, high := Between(records, 0, boundary), Between(records, boundary, position);
    BetweenIs(records, 0, boundary);
    BetweenIs(records, boundary, position);
    forall i, j | 0 <= i < |low| && 0 <= j < |high|
      ensures low[i].position < high[j].position
    {
      assert low[i] in low && high[j] in high;
    }
    SameIncreasing(low + high, records);
  }

  lemma {:induction false} OlderSeparated(records: seq<EventRecord>, next: nat)
    requires Increasing(records) && Separated(records)
    ensures Separated(Between(records, 0, next))
  {
    hide Between, Increasing;
    BetweenIs(records, 0, next);
  }

  lemma {:induction false} OlderIs(records: seq<EventRecord>, next: nat)
    requires Increasing(records)
    ensures Increasing(Between(records, 0, next)) && Below(Between(records, 0, next), next)
    ensures HasOlder(records, next) <==> Between(records, 0, next) != []
  {
    BetweenIs(records, 0, next);
    if Between(records, 0, next) != [] {
      assert Between(records, 0, next)[0] in Between(records, 0, next);
    }
    if i :| 0 <= i < |records| && records[i].position < next {
      assert records[i] in Between(records, 0, next);
    }
  }

  /** With separated groups a page shows all there is between its lower end and the position it was asked for. */
  lemma {:induction false} PageShowsAll(records: seq<EventRecord>, position: nat, limit: Limit)
    requires Increasing(records) && Below(records, position) && Separated(records)
    requires Select(records, position, limit).Selected?
    ensures var selection := Select(records, position, limit);
            && selection.next <= position && BytesOf(selection.records) <= MAX_WINDOW_BYTES
            && selection.records == Between(records, selection.next, position)
            && (|records| > 0 ==> selection.next < position)
  {
    hide GroupsOfRecords, Separated, Window;
    var selection := Select(records, position, limit);
    SelectionIs(records, position, limit);
    GroupsAre(records);
    if m: nat :| IsPage(records, position, m, selection) {
      Unstraddled(records, GroupsOf(records), m);
      WindowIsRest(records, GroupsOf(records), m, position);
      HeadBelow(records, GroupsOf(records), m, position);
    } else {
      BetweenIs(records, selection.next, position);
      SameIncreasing(records, Between(records, selection.next, position));
    }
  }

  /** Without that: exactly if no group straddles its lower end. */
  lemma {:induction false} PageFullIff(records: seq<EventRecord>, position: nat, limit: Limit)
    requires Increasing(records) && Below(records, position) && Select(records, position, limit).Selected?
    ensures var selection := Select(records, position, limit);
            && selection.next <= position
            && (selection.records == Between(records, selection.next, position) <==> !Straddled(records, selection.next))
  {
    hide GroupsOfRecords, Window, GroupsOf, Straddled;
    var selection := Select(records, position, limit);
    SelectionIs(records, position, limit);
    GroupsAre(records);
    if m: nat :| IsPage(records, position, m, selection) {
      WindowIsRest(records, GroupsOf(records), m, position);
      HeadBelow(records, GroupsOf(records), m, position);
    } else {
      BetweenIs(records, selection.next, position);
      SameIncreasing(records, Between(records, selection.next, position));
      SystemsUnstraddled(records, selection.next);
    }
  }

  lemma {:induction false} SystemsUnstraddled(records: seq<EventRecord>, boundary: nat)
    requires GroupsOfRecords([], records)
    ensures !Straddled(records, boundary) && forall r :: r in records ==> IsSystem(r)
  {
    forall r | r in records
      ensures IsSystem(r)
    {
      assert !HasGroup([], r.event.group);
    }
  }

  lemma {:induction false} HeadBelow(records: seq<EventRecord>, groups: seq<Group>, m: nat, position: nat)
    requires GroupsOfRecords(groups, records) && m < |groups| && Below(records, position)
    ensures groups[m].first < position
  {
    var head := HeadOfGroup(records, groups, m);
  }

  /**
   Whatever limits the requests carry: following the cursor from any position to the end of the stream shows every
   record exactly once and in order, each page within the byte budget, if no group interleaves with another.
   */
  lemma {:induction false} WalkCovers(records: seq<EventRecord>, position: nat, walk: Walk)
    requires Increasing(records) && Below(records, position) && Separated(records) && Follows(records, position, walk)
    ensures Everything(walk) == records && WithinBudget(walk)
    decreases walk
  {
    hide Select, Between, Separated, Increasing, BytesOf;
    var selection := Select(records, position, walk.limit);
    PageShowsAll(records, position, walk.limit);
    OlderIs(records, selection.next);
    OlderSeparated(records, selection.next);
    SplitAt(records, selection.next, position);
    if walk.Newer? {
      WalkCovers(Between(records, 0, selection.next), selection.next, walk.older);
    }
  }

  /** Every page asks for strictly older positions than the one before. */
  ghost predicate Descends(records: seq<EventRecord>, position: nat, walk: Walk)
    decreases walk
  {
    walk.Newer? ==>
      var selection := Select(records, position, walk.limit);
      selection.Selected? && selection.next < position && Descends(Between(records, 0, selection.next), selection.next, walk.older)
  }

  /** The cursor position falls with every page, interleaving or not, so every walk ends. */
  lemma {:induction false} WalkDescends(records: seq<EventRecord>, position: nat, walk: Walk)
    requires Increasing(records) && Below(records, position) && Follows(records, position, walk)
    ensures Descends(records, position, walk)
    decreases walk
  {
    hide Select, Between, Separated;
    if walk.Newer? {
      var next := Select(records, position, walk.limit).next;
      SelectionIs(records, position, walk.limit);
      OlderIs(records, next);
      WalkDescends(Between(records, 0, next), next, walk.older);
    }
  }

  // ----- When a walk shows everything -----

  lemma {:induction false} PageWithin(records: seq<EventRecord>, position: nat, limit: Limit)
    requires Increasing(records) && Below(records, position) && Select(records, position, limit).Selected?
    ensures var selection := Select(records, position, limit);
            && Increasing(selection.records) && BytesOf(selection.records) <= MAX_WINDOW_BYTES
            && forall r :: r in selection.records ==> r in records && selection.next <= r.position
  {
    hide Select, GroupsOfRecords, Window, SystemsOf, GroupsOf;
    var selection := Select(records, position, limit);
    SelectionIs(records, position, limit);
    GroupsAre(records);
    if m: nat :| IsPage(records, position, m, selection) {
      WindowHolds(records, GroupsOf(records), m, position);
      forall r | r in selection.records
        ensures r in records && selection.next <= r.position
      {
        ShownFromFirst(records, GroupsOf(records), m, position, r);
      }
    }
  }

  lemma {:induction false} WalkWithin(records: seq<EventRecord>, position: nat, walk: Walk, r: EventRecord)
    requires Increasing(records) && Below(records, position) && Follows(records, position, walk) && r in Everything(walk)
    ensures r in records
    decreases walk
  {
    hide Select, Between, Separated;
    var next := Select(records, position, walk.limit).next;
    PageWithin(records, position, walk.limit);
    if r !in walk.window {
      OlderIs(records, next);
      BetweenIs(records, 0, next);
      WalkWithin(Between(records, 0, next), next, walk.older, r);
    }
  }

  lemma {:induction false} JoinIncreasing(a: seq<EventRecord>, b: seq<EventRecord>, boundary: nat)
    requires Increasing(a) && Increasing(b)
    requires (forall r :: r in a ==> r.position < boundary) && forall r :: r in b ==> boundary <= r.position
    ensures Increasing(a + b)
  {
    forall i, j | 0 <= i < |a| && 0 <= j < |b|
      ensures a[i].position < b[j].position
    {
      assert a[i] in a && b[j] in b;
    }
  }

  /** Whatever it shows, a walk shows in order and once. */
  lemma {:induction false} WalkIncreases(records: seq<EventRecord>, position: nat, walk: Walk)
    requires Increasing(records) && Below(records, position) && Follows(records, position, walk)
    ensures Increasing(Everything(walk))
    decreases walk
  {
    hide Select, Between, Increasing;
    var next := Select(records, position, walk.limit).next;
    PageWithin(records, position, walk.limit);
    if walk.Newer? {
      OlderIs(records, next);
      BetweenIs(records, 0, next);
      WalkIncreases(Between(records, 0, next), next, walk.older);
      forall r | r in Everything(walk.older)
        ensures r.position < next
      {
        WalkWithin(Between(records, 0, next), next, walk.older, r);
      }
      JoinIncreasing(Everything(walk.older), walk.window, next);
    }
  }

  /** The cursor positions of a walk: where each of its pages ends. */
  ghost function Cursors(records: seq<EventRecord>, position: nat, walk: Walk): set<nat>
    requires Follows(records, position, walk)
    decreases walk
  {
    var next := Select(records, position, walk.limit).next;
    {next} + if walk.Newer? then Cursors(Between(records, 0, next), next, walk.older) else {}
  }

  ghost predicate Unsplit(records: seq<EventRecord>, cursors: set<nat>) {
    forall b :: b in cursors ==> !Straddled(records, b)
  }

  lemma {:induction false} InCursors(records: seq<EventRecord>, position: nat, walk: Walk, b: nat)
    requires Follows(records, position, walk)
    ensures var next := Select(records, position, walk.limit).next;
            b in Cursors(records, position, walk)
            <==> b == next || (walk.Newer? && b in Cursors(Between(records, 0, next), next, walk.older))
  {
    hide Select, Between;
  }

  lemma {:induction false} CursorsAtMost(records: seq<EventRecord>, position: nat, walk: Walk, b: nat)
    requires Increasing(records) && Below(records, position) && Follows(records, position, walk) && b in Cursors(records, position, walk)
    ensures b <= position
    decreases walk
  {
    hide Select, Between, Straddled, Cursors, Increasing, Below;
    var next := Select(records, position, walk.limit).next;
    PageFullIff(records, position, walk.limit);
    OlderIs(records, next);
    InCursors(records, position, walk, b);
    if b != next {
      CursorsAtMost(Between(records, 0, next), next, walk.older, b);
    }
  }

  lemma {:induction false} StraddledBelow(records: seq<EventRecord>, boundary: nat, next: nat)
    requires Increasing(records) && boundary <= next && !Straddled(records, next)
    ensures Straddled(Between(records, 0, next), boundary) <==> Straddled(records, boundary)
  {
    hide Between;
    BetweenIs(records, 0, next);
    if Straddled(records, boundary) {
      var r, x :| r in records && x in records && !IsSystem(r) && !IsSystem(x) && r.event.group == x.event.group
                  && r.position < boundary <= x.position;
      assert x.position < next;
      assert r in Between(records, 0, next) && x in Between(records, 0, next);
    }
  }

  lemma {:induction false} UnsplitUnfolded(records: seq<EventRecord>, position: nat, walk: Walk)
    requires Increasing(records) && Below(records, position) && Follows(records, position, walk)
    ensures var next := Select(records, position, walk.limit).next;
            Unsplit(records, Cursors(records, position, walk))
            <==> !Straddled(records, next)
                 && (walk.Newer? ==> Unsplit(Between(records, 0, next), Cursors(Between(records, 0, next), next, walk.older)))
  {
    hide Select, Between, Straddled, Cursors, Increasing, Below;
    var next := Select(records, position, walk.limit).next;
    var older := Between(records, 0, next);
    OlderIs(records, next);
    forall b: nat
      ensures b in Cursors(records, position, walk) <==> b == next || (walk.Newer? && b in Cursors(older, next, walk.older))
    {
      InCursors(records, position, walk, b);
    }
    if walk.Newer? && !Straddled(records, next) {
      forall b | b in Cursors(older, next, walk.older)
        ensures Straddled(older, b) <==> Straddled(records, b)
      {
        CursorsAtMost(older, next, walk.older, b);
        StraddledBelow(records, b, next);
      }
    }
  }

  lemma {:induction false} EverythingUnfolded(records: seq<EventRecord>, position: nat, walk: Walk)
    requires Increasing(records) && Below(records, position) && Follows(records, position, walk)
    ensures var next := Select(records, position, walk.limit).next;
            Everything(walk) == records
            <==> walk.window == Between(records, next, position) && (walk.Newer? ==> Everything(walk.older) == Between(records, 0, next))
  {
    hide Select, Between, Straddled, Increasing, Below;
    var next := Select(records, position, walk.limit).next;
    PageFullIff(records, position, walk.limit);
    SplitAt(records, next, position);
    OlderIs(records, next);
    if Everything(walk) == records {
      PartsAre(records, position, walk);
    }
  }

  /** A walk shows every record if and only if none of its cursor positions splits a group. */
  lemma {:induction false} WalkCoversIff(records: seq<EventRecord>, position: nat, walk: Walk)
    requires Increasing(records) && Below(records, position) && Follows(records, position, walk)
    ensures Everything(walk) == records <==> Unsplit(records, Cursors(records, position, walk))
    decreases walk
  {
    hide Select, Between, Straddled, Increasing, Below, Unsplit, Cursors, Everything;
    var next := Select(records, position, walk.limit).next;
    PageFullIff(records, position, walk.limit);
    EverythingUnfolded(records, position, walk);
    UnsplitUnfolded(records, position, walk);
    OlderIs(records, next);
    if walk.Newer? {
      WalkCoversIff(Between(records, 0, next), next, walk.older);
    }
  }

  // ----- Separation is needed -----

  ghost predicate OneGroupEach(walk: Walk) {
    NormalizeLimit(walk.limit) == 1 && (walk.Newer? ==> OneGroupEach(walk.older))
  }

  /** A page of one group that shows all there is at and above its lower end holds one group only. */
  lemma {:induction false} LastGroupPage(records: seq<EventRecord>, position: nat, limit: Limit)
    requires Increasing(records) && Below(records, position) && Select(records, position, limit).Selected? && NormalizeLimit(limit) == 1
    requires !Straddled(records, Select(records, position, limit).next)
    ensures OneGroupFrom(records, Select(records, position, limit).next)
  {
    hide Select, GroupsOfRecords, Window, SystemsOf, GroupsOf, Straddled, IsSystem, Increasing;
    var selection := Select(records, position, limit);
    var groups := GroupsOf(records);
    SelectionIs(records, position, limit);
    GroupsAre(records);
    if m: nat :| |groups| <= m + 1 && IsPage(records, position, m, selection) {
      forall r | r in records && !IsSystem(r) && selection.next <= r.position
        ensures r.event.group == groups[m].id
      {
        InLastGroup(records, groups, m, position, r);
      }
    } else {
      SystemsUnstraddled(records, selection.next);
    }
  }

  ghost predicate OneGroupFrom(records: seq<EventRecord>, boundary: nat) {
    forall r, x :: r in records && x in records && !IsSystem(r) && !IsSystem(x) && boundary <= r.position && boundary <= x.position
                   ==> r.event.group == x.event.group
  }

  lemma {:induction false} InLastGroup(records: seq<EventRecord>, groups: seq<Group>, m: nat, position: nat, r: EventRecord)
    requires GroupsOfRecords(groups, records) && m + 1 == |groups| && Below(records, position) && r in records && !IsSystem(r)
    requires groups[m].first <= r.position && !Straddled(records, groups[m].first)
    ensures r.event.group == groups[m].id
  {
    ShownFromFirst(records, groups, m, position, r);
    var i := GroupOfRecord(records, groups, r);
    SelectedIndex(groups, m, i);
  }

  /** If pages of one group each show everything, no group interleaves with another. */
  lemma {:induction false} CoverageNeedsSeparation(records: seq<EventRecord>, position: nat, walk: Walk)
    requires Increasing(records) && Below(records, position) && Follows(records, position, walk)
    requires OneGroupEach(walk) && Everything(walk) == records
    ensures Separated(records)
    decreases walk
  {
    hide Select, Between, Increasing, Straddled, Separated, OneGroupFrom;
    var next := Select(records, position, walk.limit).next;
    PartsAre(records, position, walk);
    PageFullIff(records, position, walk.limit);
    LastGroupPage(records, position, walk.limit);
    OlderIs(records, next);
    if walk.Newer? {
      CoverageNeedsSeparation(Between(records, 0, next), next, walk.older);
    } else {
      NothingSeparated();
    }
    JoinSeparated(records, next);
  }

  lemma {:induction false} NothingSeparated()
    ensures Separated([])
  {
  }

  lemma {:induction false} JoinSeparated(records: seq<EventRecord>, boundary: nat)
    requires Increasing(records) && Separated(Between(records, 0, boundary)) && !Straddled(records, boundary)
    requires OneGroupFrom(records, boundary)
    ensures Separated(records)
  {
    hide Between;
    BetweenIs(records, 0, boundary);
  }

  /** The pages of a covering walk meet at the cursor positions. */
  lemma {:induction false} PartsAre(records: seq<EventRecord>, position: nat, walk: Walk)
    requires Increasing(records) && Below(records, position) && Follows(records, position, walk) && Everything(walk) == records
    ensures var next := Select(records, position, walk.limit).next;
            && walk.window == Between(records, next, position)
            && (walk.Newer? ==> Everything(walk.older) == Between(records, 0, next))
  {
    hide Select, Between, Separated;
    var next := Select(records, position, walk.limit).next;
    BetweenIs(records, 0, next);
    BetweenIs(records, next, position);
    OlderIs(records, next);
    PageWithin(records, position, walk.limit);
    if walk.Newer? {
      var older := Everything(walk.older);
      forall r | r in older
        ensures r.position < next
      {
        WalkWithin(Between(records, 0, next), next, walk.older, r);
      }
      PrefixIncreasing(older, walk.window);
      SameIncreasing(older, Between(records, 0, next));
      SameIncreasing(walk.window, Between(records, next, position));
    } else {
      SameIncreasing(walk.window, Between(records, next, position));
    }
  }

  lemma {:induction false} PrefixIncreasing(a: seq<EventRecord>, b: seq<EventRecord>)
    requires Increasing(a + b)
    ensures Increasing(a) && Increasing(b)
  {
    assert forall i | 0 <= i < |a| :: (a + b)[i] == a[i];
    assert forall i | 0 <= i < |b| :: (a + b)[|a| + i] == b[i];
  }

  // Three records are enough to lose one: a group that goes on after another group has begun.

  ghost predicate Interleave(a: EventRecord, b: EventRecord, c: EventRecord) {
    && !IsSystem(a) && !IsSystem(b) && !IsSystem(c)
    && a.event.group == c.event.group != b.event.group
    && a.position < b.position < c.position
  }

  function Begun(r: EventRecord): Group { Group(r.event.group, r.position, [r]) }

  lemma {:induction false} GroupsOfMore(records: seq<EventRecord>, r: EventRecord)
    requires !IsSystem(r)
    ensures GroupsOf(records + [r]) == AddToGroups(GroupsOf(records), r) && SystemsOf(records + [r]) == SystemsOf(records)
  {
    hide AddToGroups;
    assert (records + [r])[..|records|] == records;
  }

  lemma {:induction false} FirstGroup(a: EventRecord)
    requires !IsSystem(a)
    ensures GroupsOf([a]) == [Begun(a)] && SystemsOf([a]) == []
  {
    hide IsSystem;
    GroupsOfMore([], a);
    assert [] + [a] == [a];
  }

  lemma {:induction false} InterleavingGroups(a: EventRecord, b: EventRecord, c: EventRecord)
    requires Interleave(a, b, c)
    ensures GroupsOf([a, b, c]) == [Begun(a).(records := [a, c]), Begun(b)] && SystemsOf([a, b, c]) == []
  {
    hide IsSystem, GroupsOf, SystemsOf;
    FirstGroup(a);
    GroupsOfMore([a], b);
    assert [a] + [b] == [a, b];
    GroupsOfMore([a, b], c);
    assert [a, b] + [c] == [a, b, c];
    assert GroupsOf([a, b]) == [Begun(a), Begun(b)];
    assert IndexOfGroup([Begun(a), Begun(b)], c.event.group) == Some(0);
    assert [a] + [c] == [a, c];
  }

  lemma {:induction false} OneGroupWindow(g: Group, r: EventRecord, position: nat)
    requires g.records == [r] && g.first == r.position
    ensures Shrink([g], [], position) == if r.bytes <= MAX_WINDOW_BYTES then Selected([r], g.first) else TooLarge
  {
    assert [g][..0] == [] && [r][..0] == [];
    assert Flat([g]) == [r];
    assert Window([g], [], position) == SortByPosition([r] + []);
    assert [r] + [] == [r];
    assert SortByPosition([r]) == [r];
    assert BytesOf([r]) == r.bytes;
  }

  lemma {:induction false} InterleavingPages(a: EventRecord, b: EventRecord, c: EventRecord, position: nat, limit: Limit)
    requires Interleave(a, b, c) && NormalizeLimit(limit) == 1
    ensures Select([a, b, c], position, limit) == if b.bytes <= MAX_WINDOW_BYTES then Selected([b], b.position) else TooLarge
    ensures Select([a], b.position, limit) == if a.bytes <= MAX_WINDOW_BYTES then Selected([a], a.position) else TooLarge
  {
    hide GroupsOf, Shrink, SystemsOf, IsSystem;
    FirstGroup(a);
    InterleavingGroups(a, b, c);
    assert Newest(GroupsOf([a]), 1) == [Begun(a)];
    assert Newest(GroupsOf([a, b, c]), 1) == [Begun(b)];
    OneGroupWindow(Begun(a), a, b.position);
    OneGroupWindow(Begun(b), b, position);
  }

  lemma {:induction false} InterleavingParts(a: EventRecord, b: EventRecord, c: EventRecord)
    requires Interleave(a, b, c)
    ensures Between([a, b, c], 0, b.position) == [a]
    ensures HasOlder([a, b, c], b.position) && !HasOlder([a], a.position)
  {
    var none: seq<EventRecord> := [];
    assert [a][..0] == none && [a, b][..1] == [a] && [a, b, c][..2] == [a, b];
    assert Between(none, 0, b.position) == [] && Between([a], 0, b.position) == [a] && Between([a, b], 0, b.position) == [a];
    assert [a, b, c][0].position < b.position;
  }

  lemma {:induction false} OldestFollows(records: seq<EventRecord>, position: nat, limit: Limit, window: seq<EventRecord>, next: nat)
    requires Select(records, position, limit) == Selected(window, next) && !HasOlder(records, next)
    ensures Follows(records, position, Oldest(limit, window))
  {
    hide Select;
  }

  lemma {:induction false} NewerFollows(records: seq<EventRecord>, position: nat, limit: Limit, window: seq<EventRecord>, next: nat, older: Walk)
    requires Select(records, position, limit) == Selected(window, next) && HasOlder(records, next)
    requires Follows(Between(records, 0, next), next, older)
    ensures Follows(records, position, Newer(limit, window, older))
  {
    hide Select, Between;
  }

  lemma {:induction false} InterleavingWindow(a: EventRecord, b: EventRecord, c: EventRecord, position: nat)
    requires Interleave(a, b, c) && c.position < position
    ensures Window(GroupsOf([a, b, c]), SystemsOf([a, b, c]), position) == [a, b, c]
  {
    hide GroupsOf, SystemsOf, Window, GroupsOfRecords, IsSystem;
    var records := [a, b, c];
    InterleavingGroups(a, b, c);
    GroupsAre(records);
    var groups := GroupsOf(records);
    assert groups[0..] == groups;
    WindowIsRest(records, groups, 0, position);
    BetweenIs(records, a.position, position);
    SameIncreasing(records, Between(records, a.position, position));
  }

  lemma {:induction false} InterleavingSelect(a: EventRecord, b: EventRecord, c: EventRecord, position: nat, limit: Limit)
    requires Interleave(a, b, c) && c.position < position && Select([a, b, c], position, limit).Selected?
    ensures Select([a, b, c], position, limit)
            == if NormalizeLimit(limit) > 1 && BytesOf([a, b, c]) <= MAX_WINDOW_BYTES then Selected([a, b, c], a.position)
               else Selected([b], b.position)
  {
    hide GroupsOf, SystemsOf, Window, IsSystem, NormalizeLimit, BytesOf;
    InterleavingGroups(a, b, c);
    InterleavingWindow(a, b, c, position);
    OneGroupWindow(Begun(b), b, position);
    var groups := GroupsOf([a, b, c]);
    assert groups[1..] == [Begun(b)];
  }

  /** Any walk shows the newest of the three records if and only if its first page has room for all of them. */
  lemma {:induction false} InterleavedWalkIff(a: EventRecord, b: EventRecord, c: EventRecord, position: nat, walk: Walk)
    requires Interleave(a, b, c) && c.position < position && Follows([a, b, c], position, walk)
    ensures c in Everything(walk) <==> NormalizeLimit(walk.limit) > 1 && BytesOf([a, b, c]) <= MAX_WINDOW_BYTES
  {
    hide Select, Between, HasOlder, IsSystem, NormalizeLimit, BytesOf;
    InterleavingSelect(a, b, c, position, walk.limit);
    InterleavingParts(a, b, c);
    if walk.window == [b] && c in Everything(walk) && walk.Newer? {
      WalkWithin([a], b.position, walk.older, c);
    }
  }

  /** Pages of one group end after two requests, and the newest of the three records is on neither page. */
  lemma {:induction false} InterleavedGroupsLose(a: EventRecord, b: EventRecord, c: EventRecord, position: nat, limit: Limit)
    requires Interleave(a, b, c) && c.position < position && NormalizeLimit(limit) == 1
    requires a.bytes <= MAX_WINDOW_BYTES && b.bytes <= MAX_WINDOW_BYTES
    ensures var walk := Newer(limit, [b], Oldest(limit, [a]));
            Follows([a, b, c], position, walk) && c !in Everything(walk)
  {
    hide Select, Between, Follows, HasOlder, IsSystem, NormalizeLimit;
    InterleavingPages(a, b, c, position, limit);
    InterleavingParts(a, b, c);
    var last := Oldest(limit, [a]);
    assert Everything(Newer(limit, [b], last)) == [a] + [b];
    OldestFollows([a], b.position, limit, [a], a.position);
    NewerFollows([a, b, c], position, limit, [b], b.position, last);
  }
}
