/**
 The browser keeps only the five most recent groups of a timeline. Committing events one batch at a time and dropping
 the rest each time keeps exactly the groups that a look at everything ever committed would keep.
 */
module TimelineStore {
  import opened Bytes
  import opened Timeline
  import opened Ranges

  const MAX_RECENT_GROUPS := 5

  /** String collation: a strict total order. */
  datatype Collation = Collation(less: (string, string) -> bool) {
    ghost predicate Total() {
      && (forall a, b :: less(a, b) ==> !less(b, a))
      && (forall a, b :: a != b ==> less(a, b) || less(b, a))
      && (forall a, b, c :: less(a, b) && less(b, c) ==> less(a, c))
    }
  }

  // ----- Which groups are recent -----

  /** Latest time stamp by group, in the order in which the groups were first met. */
  type Entries = seq<(string, int)>

  function AddLatest(entries: Entries, group: string, time: int): Entries {
    if |entries| == 0 then [(group, time)]
    else
      var last := entries[|entries| - 1];
      if last.0 == group then (if time > last.1 then entries[|entries| - 1 := (group, time)] else entries)
      else AddLatest(entries[..|entries| - 1], group, time) + [last]
  }

  function LatestByGroup(events: seq<TimelineEvent>): Entries {
    if |events| == 0 then []
    else
      var last := events[|events| - 1];
      var front := LatestByGroup(events[..|events| - 1]);
      if last.group.Some? then AddLatest(front, last.group.value, last.timestamp) else front
  }

  predicate Less(c: Collation, a: (string, int), b: (string, int)) {
    a.1 < b.1 || (a.1 == b.1 && c.less(a.0, b.0))
  }

  function Insert(c: Collation, entries: Entries, e: (string, int)): Entries {
    if |entries| == 0 || !Less(c, e, entries[|entries| - 1]) then entries + [e]
    else Insert(c, entries[..|entries| - 1], e) + [entries[|entries| - 1]]
  }

  function Sort(c: Collation, entries: Entries): Entries {
    if |entries| == 0 then [] else Insert(c, Sort(c, entries[..|entries| - 1]), entries[|entries| - 1])
  }

  function LastFive(entries: Entries): Entries {
    if |entries| <= MAX_RECENT_GROUPS then entries else entries[|entries| - MAX_RECENT_GROUPS..]
  }

  function GroupsIn(entries: Entries): set<string> {
    set e | e in entries :: e.0
  }

  function RecentGroups(c: Collation, events: seq<TimelineEvent>): set<string> {
    GroupsIn(LastFive(Sort(c, LatestByGroup(events))))
  }

  method RecentGroupIds(c: Collation, events: seq<TimelineEvent>) returns (groups: set<string>)
    ensures groups == RecentGroups(c, events)
  {
    var latest: Entries := [];
    for n := 0 to |events|
      invariant latest == LatestByGroup(events[..n])
    {
      assert events[..n + 1][..n] == events[..n];
      if events[n].group.Some? {
        latest := AddLatest(latest, events[n].group.value, events[n].timestamp);
      }
    }
    assert events[..|events|] == events;
    groups := GroupsIn(LastFive(Sort(c, latest)));
  }

  // ----- The store -----

  function Lookup(events: seq<TimelineEvent>, id: string): (e: TimelineEvent)
    requires HasEvent(events, id)
    ensures e in events && e.id == id
  {
    if events[0].id == id then events[0] else Lookup(events[1..], id)
  }

  /** The id of the first incoming event that contradicts a stored or an earlier one. */
  function FindConflict(existing: seq<TimelineEvent>, incoming: seq<TimelineEvent>): Option<string>
    decreases |incoming|
  {
    if |incoming| == 0 then None
    else
      var first := incoming[0];
      if HasEvent(existing, first.id) then
        if Lookup(existing, first.id) != first then Some(first.id) else FindConflict(existing, incoming[1..])
      else FindConflict(existing + [first], incoming[1..])
  }

  function Merge(existing: seq<TimelineEvent>, incoming: seq<TimelineEvent>): seq<TimelineEvent>
    decreases |incoming|
  {
    if |incoming| == 0 then existing
    else Merge(if HasEvent(existing, incoming[0].id) then existing else existing + [incoming[0]], incoming[1..])
  }

  function Grouped(events: seq<TimelineEvent>): seq<TimelineEvent> {
    if |events| == 0 then []
    else Grouped(events[..|events| - 1]) + if events[|events| - 1].group.Some? then [events[|events| - 1]] else []
  }

  function InGroups(events: seq<TimelineEvent>, groups: set<string>): seq<TimelineEvent> {
    if |events| == 0 then []
    else
      var last := events[|events| - 1];
      InGroups(events[..|events| - 1], groups) + if last.group.Some? && last.group.value in groups then [last] else []
  }

  function SelectRecent(c: Collation, events: seq<TimelineEvent>): seq<TimelineEvent> {
    InGroups(events, RecentGroups(c, events))
  }

  predicate AllInScope(events: seq<TimelineEvent>, scope: Scope) {
    forall i :: 0 <= i < |events| ==> InScope(events[i], scope)
  }

  datatype Committed = Ok | OutOfScope | Conflicting(id: string)

  function Commit(c: Collation, scope: Scope, store: seq<TimelineEvent>, events: seq<TimelineEvent>): (seq<TimelineEvent>, Committed) {
    if !AllInScope(events, scope) then (store, OutOfScope)
    else
      var incoming := Grouped(events);
      if |incoming| == 0 then (store, Ok)
      else match FindConflict(store, incoming)
           case Some(id) => ([], Conflicting(id))
           case None => (SelectRecent(c, Merge(store, incoming)), Ok)
  }

  /** Replaces the stored window by a fresh one together with what arrived live meanwhile. */
  function Replace(c: Collation, scope: Scope, store: seq<TimelineEvent>, events: seq<TimelineEvent>): (seq<TimelineEvent>, Committed) {
    if !AllInScope(events, scope) then (store, OutOfScope)
    else
      var incoming := Grouped(events);
      match FindConflict(store, incoming)
      case Some(id) => ([], Conflicting(id))
      case None => (SelectRecent(c, Merge([], incoming)), Ok)
  }

  class Store {
    const collation: Collation
    const scope: Scope
    var records: seq<TimelineEvent>

    constructor (collation: Collation, scope: Scope)
      ensures records == [] && this.collation == collation && this.scope == scope
    {
      this.collation, this.scope, records := collation, scope, [];
    }

    method CommitRealtime(events: seq<TimelineEvent>) returns (result: Committed)
      modifies this
      ensures (records, result) == Commit(collation, scope, old(records), events)
    {
      if !AllInScope(events, scope) {
        return OutOfScope;
      }
      var incoming := Grouped(events);
      if |incoming| == 0 {
        return Ok;
      }
      var conflict := FindConflict(records, incoming);
      if conflict.Some? {
        records := [];
        return Conflicting(conflict.value);
      }
      RetainRecent(incoming);
      return Ok;
    }

    method RetainRecent(incoming: seq<TimelineEvent>)
      modifies this
      ensures records == SelectRecent(collation, Merge(old(records), incoming))
    {
      var merged := records;
      for n := 0 to |incoming|
        invariant Merge(merged, incoming[n..]) == Merge(old(records), incoming) && records == old(records)
      {
        assert incoming[n..][1..] == incoming[n + 1..];
        if !HasEvent(merged, incoming[n].id) {
          merged := merged + [incoming[n]];
        }
      }
      var groups := RecentGroupIds(collation, merged);
      records := [];
      for n := 0 to |merged|
        invariant records == InGroups(merged[..n], groups)
      {
        assert merged[..n + 1][..n] == merged[..n];
        if merged[n].group.Some? && merged[n].group.value in groups {
          records := records + [merged[n]];
        }
      }
      assert merged[..|merged|] == merged;
    }

    method ReplaceRecentWindow(events: seq<TimelineEvent>, realtimeJournal: seq<TimelineEvent>) returns (result: Committed)
      modifies this
      ensures (records, result) == Replace(collation, scope, old(records), events + realtimeJournal)
    {
      if !AllInScope(events + realtimeJournal, scope) {
        return OutOfScope;
      }
      var incoming := Grouped(events + realtimeJournal);
      var conflict := FindConflict(records, incoming);
      records := [];
      if conflict.Some? {
        return Conflicting(conflict.value);
      }
      RetainRecent(incoming);
      return Ok;
    }
  }

  // ----- Recency, read off the latest time stamps -----

  /** The groups above `g`: with a later latest event, or the same time and a greater name. */
  ghost function Above(c: Collation, latest: map<string, int>, g: string): set<string>
    requires g in latest
  {
    set h | h in latest && Less(c, (g, latest[g]), (h, latest[h]))
  }

  /** The groups with fewer than five others above them. */
  ghost function Recent(c: Collation, latest: map<string, int>): set<string> {
    set g | g in latest && |Above(c, latest, g)| < MAX_RECENT_GROUPS
  }

  ghost predicate Higher(c: Collation, latest: map<string, int>, h: string, g: string)
    requires g in latest && h in latest
  {
    Less(c, (g, latest[g]), (h, latest[h]))
  }

  lemma {:induction false} AboveAbove(c: Collation, latest: map<string, int>, g: string, h: string)
    requires c.Total() && g in latest && h in Above(c, latest, g)
    ensures Above(c, latest, h) < Above(c, latest, g) && |Above(c, latest, h)| < |Above(c, latest, g)|
  {
    forall x | x in Above(c, latest, h)
      ensures x in Above(c, latest, g)
    {
    }
    assert h !in Above(c, latest, h);
    SubsetCardinality(Above(c, latest, h), Above(c, latest, g));
  }

  /** A nonempty set of groups has a lowest. */
  lemma {:induction false} Lowest(c: Collation, latest: map<string, int>, s: set<string>) returns (g: string)
    requires c.Total() && s != {} && s <= latest.Keys
    ensures g in s && forall h :: h in s && h != g ==> Less(c, (g, latest[g]), (h, latest[h]))
    decreases |s|
  {
    g :| g in s;
    if s != {g} {
      var low := Lowest(c, latest, s - {g});
      if Less(c, (low, latest[low]), (g, latest[g])) {
        g := low;
      } else {
        forall h | h in s && h != g
          ensures Less(c, (g, latest[g]), (h, latest[h]))
        {
        }
      }
    }
  }

  /** A group that is not recent has five recent groups above it. */
  lemma {:induction false} FiveAbove(c: Collation, latest: map<string, int>, g: string)
    requires c.Total() && g in latest && g !in Recent(c, latest)
    ensures |Above(c, latest, g) * Recent(c, latest)| >= MAX_RECENT_GROUPS
    decreases |Above(c, latest, g)|
  {
    var above := Above(c, latest, g);
    if |above| == MAX_RECENT_GROUPS {
      forall h | h in above
        ensures h in Recent(c, latest)
      {
        AboveAbove(c, latest, g, h);
      }
      assert above * Recent(c, latest) == above;
    } else {
      var low := Lowest(c, latest, above);
      AboveAbove(c, latest, g, low);
      assert above == Above(c, latest, low) + {low};
      FiveAbove(c, latest, low);
      SubsetCardinality(Above(c, latest, low) * Recent(c, latest), above * Recent(c, latest));
    }
  }

  /** Latest time stamps of two batches together. */
  ghost function Join(a: map<string, int>, b: map<string, int>): map<string, int> {
    map g | g in a.Keys + b.Keys :: if g in a && (g in b ==> b[g] <= a[g]) then a[g] else b[g]
  }

  /** `kept` holds exactly the recent groups of `all`, with their latest time stamps. */
  ghost predicate KeepsRecent(c: Collation, all: map<string, int>, kept: map<string, int>) {
    kept.Keys == Recent(c, all) && forall g :: g in kept ==> kept[g] == all[g]
  }

  /** What was kept and what was dropped, after the same batch `more`. */
  lemma {:induction false} JoinAgrees(c: Collation, all: map<string, int>, kept: map<string, int>, more: map<string, int>, g: string)
    requires KeepsRecent(c, all, kept)
    ensures g in Join(kept, more) ==> g in Join(all, more) && Join(kept, more)[g] <= Join(all, more)[g]
    ensures g in kept ==> g in all && g in Join(kept, more) && all[g] <= Join(all, more)[g] == Join(kept, more)[g]
    ensures g in Join(all, more) && (g in Join(kept, more) ==> Join(kept, more)[g] != Join(all, more)[g]) ==>
              g in all && g !in kept && Join(all, more)[g] == all[g]
  {
  }

  ghost predicate Agrees(kept: map<string, int>, all: map<string, int>, g: string) {
    g in kept && g in all && kept[g] == all[g]
  }

  /** A group that a batch leaves wrong in the kept table has five kept groups above it, in both tables. */
  lemma {:induction false} WrongIsLow(c: Collation, all: map<string, int>, kept: map<string, int>, more: map<string, int>, g: string)
    requires c.Total() && KeepsRecent(c, all, kept)
    requires g in Join(all, more) && !Agrees(Join(kept, more), Join(all, more), g)
    ensures |Above(c, Join(all, more), g) * kept.Keys| >= MAX_RECENT_GROUPS
    ensures g in Join(kept, more) ==> |Above(c, Join(kept, more), g) * kept.Keys| >= MAX_RECENT_GROUPS
  {
    hide Join;
    var M, T := Join(kept, more), Join(all, more);
    JoinAgrees(c, all, kept, more, g);
    FiveAbove(c, all, g);
    var five := Above(c, all, g) * kept.Keys;
    forall h | h in five
      ensures h in Above(c, T, g) && (g in M ==> h in Above(c, M, g))
    {
      JoinAgrees(c, all, kept, more, h);
    }
    SubsetCardinality(five, Above(c, T, g) * kept.Keys);
    if g in M {
      SubsetCardinality(five, Above(c, M, g) * kept.Keys);
    }
  }

  lemma {:induction false} AboveGrows(c: Collation, all: map<string, int>, kept: map<string, int>, more: map<string, int>, g: string)
    requires KeepsRecent(c, all, kept) && Agrees(Join(kept, more), Join(all, more), g)
    ensures Above(c, Join(kept, more), g) <= Above(c, Join(all, more), g)
    ensures forall h :: h in Above(c, Join(all, more), g) && Agrees(Join(kept, more), Join(all, more), h) ==> h in Above(c, Join(kept, more), g)
  {
    var M, T := Join(kept, more), Join(all, more);
    forall h | h in Above(c, M, g)
      ensures h in Above(c, T, g)
    {
      JoinAgrees(c, all, kept, more, h);
    }
  }

  lemma {:induction false} SameVerdict(c: Collation, all: map<string, int>, kept: map<string, int>, more: map<string, int>, g: string)
    requires c.Total() && KeepsRecent(c, all, kept) && Agrees(Join(kept, more), Join(all, more), g)
    ensures g in Recent(c, Join(kept, more)) <==> g in Recent(c, Join(all, more))
  {
    var M, T := Join(kept, more), Join(all, more);
    AboveGrows(c, all, kept, more, g);
    SubsetCardinality(Above(c, M, g), Above(c, T, g));
    if h :| h in Above(c, T, g) && h !in Above(c, M, g) {
      WrongIsLow(c, all, kept, more, h);
      AboveAbove(c, T, g, h);
      var five := Above(c, T, h) * kept.Keys;
      forall x | x in five
        ensures x in Above(c, M, g)
      {
        JoinAgrees(c, all, kept, more, x);
      }
      SubsetCardinality(five, Above(c, M, g));
    } else {
      assert Above(c, M, g) == Above(c, T, g);
    }
  }

  /** The five most recent of what was kept, after a further batch, are the five most recent of everything. */
  lemma {:induction false} FiveOfAll(c: Collation, all: map<string, int>, kept: map<string, int>, more: map<string, int>)
    requires c.Total() && KeepsRecent(c, all, kept)
    ensures Recent(c, Join(kept, more)) == Recent(c, Join(all, more))
    ensures forall g :: g in Recent(c, Join(all, more)) ==> Agrees(Join(kept, more), Join(all, more), g)
  {
    hide Join, Above;
    var M, T := Join(kept, more), Join(all, more);
    forall g
      ensures g in Recent(c, M) <==> g in Recent(c, T)
      ensures g in Recent(c, T) ==> Agrees(M, T, g)
    {
      JoinAgrees(c, all, kept, more, g);
      if Agrees(M, T, g) {
        SameVerdict(c, all, kept, more, g);
      } else if g in T {
        WrongIsLow(c, all, kept, more, g);
        SubsetCardinality(Above(c, T, g) * kept.Keys, Above(c, T, g));
        if g in M {
          SubsetCardinality(Above(c, M, g) * kept.Keys, Above(c, M, g));
        }
      }
    }
  }

  // ----- Latest time stamps of events -----

  ghost function Single(e: TimelineEvent): map<string, int> {
    if e.group.Some? then map[e.group.value := e.timestamp] else map[]
  }

  ghost function Latest(events: seq<TimelineEvent>): map<string, int> {
    if |events| == 0 then map[] else Join(Latest(events[..|events| - 1]), Single(events[|events| - 1]))
  }

  ghost predicate IsLatest(latest: map<string, int>, events: seq<TimelineEvent>) {
    && (forall e :: e in events && e.group.Some? ==> e.group.value in latest && e.timestamp <= latest[e.group.value])
    && (forall g :: g in latest ==> exists e :: e in events && e.group == Some(g) && e.timestamp == latest[g])
  }

  lemma {:induction false} LatestIs(events: seq<TimelineEvent>)
    ensures IsLatest(Latest(events), events)
  {
    if |events| > 0 {
      var front, last := events[..|events| - 1], events[|events| - 1];
      LatestIs(front);
      assert events == front + [last];
      forall g | g in Latest(events)
        ensures exists e :: e in events && e.group == Some(g) && e.timestamp == Latest(events)[g]
      {
        if g in Latest(front) && Latest(events)[g] == Latest(front)[g] {
          var e :| e in front && e.group == Some(g) && e.timestamp == Latest(front)[g];
          assert e in events;
        } else {
          assert last in events;
        }
      }
    }
  }

  lemma {:induction false} LatestUnique(a: map<string, int>, b: map<string, int>, x: seq<TimelineEvent>, y: seq<TimelineEvent>)
    requires IsLatest(a, x) && IsLatest(b, y) && forall e :: e in x <==> e in y
    ensures a == b
  {
  }

  lemma {:induction false} LatestJoin(a: seq<TimelineEvent>, b: seq<TimelineEvent>)
    ensures Latest(a + b) == Join(Latest(a), Latest(b))
  {
    if |b| == 0 {
      assert a + b == a;
    } else {
      assert (a + b)[..|a + b| - 1] == a + b[..|b| - 1];
      LatestJoin(a, b[..|b| - 1]);
      JoinAssociates(Latest(a), Latest(b[..|b| - 1]), Single(b[|b| - 1]));
    }
  }

  lemma {:induction false} JoinAssociates(x: map<string, int>, y: map<string, int>, z: map<string, int>)
    ensures Join(Join(x, y), z) == Join(x, Join(y, z))
  {
  }

  // ----- The sorted slice is the recent groups -----

  ghost predicate DistinctGroups(entries: Entries) {
    forall i, j :: 0 <= i < j < |entries| ==> entries[i].0 != entries[j].0
  }

  /** `entries` is `latest` as a list. */
  ghost predicate Lists(entries: Entries, latest: map<string, int>) {
    && DistinctGroups(entries)
    && (forall e :: e in entries <==> e.0 in latest && latest[e.0] == e.1)
  }

  lemma {:induction false} AddLatestLists(entries: Entries, latest: map<string, int>, group: string, time: int)
    requires Lists(entries, latest)
    ensures Lists(AddLatest(entries, group, time), Join(latest, map[group := time]))
    decreases |entries|
  {
    if |entries| == 0 {
    } else {
      var front, last := entries[..|entries| - 1], entries[|entries| - 1];
      assert last in entries;
      if last.0 == group {
        var newer := (group, if time > last.1 then time else last.1);
        assert AddLatest(entries, group, time) == front + [newer];
      } else {
        AddLatestLists(front, latest - {last.0}, group, time);
      }
    }
  }

  lemma {:induction false} LatestListed(events: seq<TimelineEvent>)
    ensures Lists(LatestByGroup(events), Latest(events))
  {
    if |events| > 0 {
      var front, last := events[..|events| - 1], events[|events| - 1];
      LatestListed(front);
      if last.group.Some? {
        AddLatestLists(LatestByGroup(front), Latest(front), last.group.value, last.timestamp);
      } else {
        assert Join(Latest(front), map[]) == Latest(front);
      }
    }
  }

  ghost predicate Sorted(c: Collation, entries: Entries) {
    forall i, j :: 0 <= i < j < |entries| ==> Less(c, entries[i], entries[j])
  }

  lemma {:induction false} InsertSorted(c: Collation, entries: Entries, e: (string, int))
    requires c.Total() && Sorted(c, entries) && forall x :: x in entries ==> x.0 != e.0
    ensures Sorted(c, Insert(c, entries, e)) && forall x :: x in Insert(c, entries, e) <==> x in entries || x == e
    decreases |entries|
  {
    if |entries| > 0 {
      var front, last := entries[..|entries| - 1], entries[|entries| - 1];
      assert last in entries;
      if Less(c, e, last) {
        InsertSorted(c, front, e);
        var inserted := Insert(c, front, e);
        forall i | 0 <= i < |inserted|
          ensures Less(c, inserted[i], last)
        {
          assert inserted[i] in inserted;
        }
      } else {
        forall i | 0 <= i < |entries|
          ensures Less(c, entries[i], e)
        {
        }
      }
    }
  }

  lemma {:induction false} SortIs(c: Collation, entries: Entries)
    requires c.Total() && forall i, j :: 0 <= i < j < |entries| ==> entries[i].0 != entries[j].0
    ensures Sorted(c, Sort(c, entries)) && forall x :: x in Sort(c, entries) <==> x in entries
  {
    hide Insert;
    if |entries| > 0 {
      SortIs(c, entries[..|entries| - 1]);
      InsertSorted(c, Sort(c, entries[..|entries| - 1]), entries[|entries| - 1]);
    }
  }

  lemma {:induction false} SortKeeps(c: Collation, entries: Entries, latest: map<string, int>)
    requires c.Total() && Lists(entries, latest)
    ensures Sorted(c, Sort(c, entries)) && Lists(Sort(c, entries), latest)
  {
    SortIs(c, entries);
    var sorted := Sort(c, entries);
    forall i, j | 0 <= i < j < |sorted|
      ensures sorted[i].0 != sorted[j].0
    {
      assert sorted[i] in sorted && sorted[j] in sorted;
    }
  }

  /** The groups of the entries from index `i` on. */
  ghost function From(entries: Entries, i: nat): set<string>
    requires i <= |entries|
    decreases |entries| - i
  {
    if i == |entries| then {} else {entries[i].0} + From(entries, i + 1)
  }

  ghost predicate OccursFrom(entries: Entries, i: nat, g: string) {
    exists j :: i <= j < |entries| && entries[j].0 == g
  }

  lemma {:induction false} FromIs(entries: Entries, i: nat, g: string)
    requires i <= |entries|
    ensures g in From(entries, i) <==> OccursFrom(entries, i, g)
    decreases |entries| - i
  {
    if i < |entries| {
      FromIs(entries, i + 1, g);
    }
  }

  lemma {:induction false} FromCount(entries: Entries, i: nat)
    requires i <= |entries| && DistinctGroups(entries)
    ensures |From(entries, i)| == |entries| - i
    decreases |entries| - i
  {
    if i < |entries| {
      FromCount(entries, i + 1);
      FromIs(entries, i + 1, entries[i].0);
      assert !OccursFrom(entries, i + 1, entries[i].0);
    }
  }

  lemma {:induction false} CountAbove(c: Collation, entries: Entries, latest: map<string, int>, i: nat)
    requires c.Total() && Sorted(c, entries) && i < |entries| && Lists(entries, latest)
    ensures entries[i].0 in latest && |Above(c, latest, entries[i].0)| == |entries| - (i + 1)
  {
    assert entries[i] in entries;
    forall h
      ensures h in Above(c, latest, entries[i].0) <==> h in From(entries, i + 1)
    {
      FromIs(entries, i + 1, h);
    }
    assert Above(c, latest, entries[i].0) == From(entries, i + 1);
    FromCount(entries, i + 1);
  }

  /** Sorting and slicing keeps exactly the groups with fewer than five above them. */
  lemma {:induction false} SliceIsRecent(c: Collation, entries: Entries, latest: map<string, int>)
    requires c.Total() && Sorted(c, entries) && Lists(entries, latest)
    ensures GroupsIn(LastFive(entries)) == Recent(c, latest)
  {
    hide Above, From, Sorted;
    var cut := if |entries| <= MAX_RECENT_GROUPS then 0 else |entries| - MAX_RECENT_GROUPS;
    forall g
      ensures g in GroupsIn(LastFive(entries)) <==> g in Recent(c, latest)
    {
      if g in latest {
        assert (g, latest[g]) in entries;
        var i :| 0 <= i < |entries| && entries[i] == (g, latest[g]);
        CountAbove(c, entries, latest, i);
      }
    }
  }

  lemma {:induction false} RecentGroupsAre(c: Collation, events: seq<TimelineEvent>)
    requires c.Total()
    ensures RecentGroups(c, events) == Recent(c, Latest(events))
  {
    hide Above, Sorted, LatestByGroup, Latest, LastFive, Less, Lists;
    var entries := LatestByGroup(events);
    LatestListed(events);
    SortKeeps(c, entries, Latest(events));
    SliceIsRecent(c, Sort(c, entries), Latest(events));
  }

  // ----- Merging and retaining -----

  /** Without a conflict, merging adds the incoming events and nothing else; ids stay distinct. */
  lemma {:induction false} MergeIs(existing: seq<TimelineEvent>, incoming: seq<TimelineEvent>)
    requires DistinctIds(existing) && FindConflict(existing, incoming).None?
    ensures DistinctIds(Merge(existing, incoming))
    ensures forall e :: e in Merge(existing, incoming) <==> e in existing || e in incoming
    decreases |incoming|
  {
    if |incoming| > 0 {
      var first, rest := incoming[0], incoming[1..];
      var next := if HasEvent(existing, first.id) then existing else existing + [first];
      assert incoming == [first] + rest;
      assert HasEvent(existing, first.id) ==> first in existing;
      MergeIs(next, rest);
    }
  }

  lemma {:induction false} InGroupsIs(events: seq<TimelineEvent>, groups: set<string>)
    ensures forall e :: e in InGroups(events, groups) <==> e in events && e.group.Some? && e.group.value in groups
    ensures DistinctIds(events) ==> DistinctIds(InGroups(events, groups))
  {
    if |events| > 0 {
      var front, last := events[..|events| - 1], events[|events| - 1];
      InGroupsIs(front, groups);
      forall i | 0 <= i < |InGroups(front, groups)| && DistinctIds(events)
        ensures InGroups(front, groups)[i].id != last.id
      {
        assert InGroups(front, groups)[i] in front;
      }
    }
  }

  ghost function Restrict(latest: map<string, int>, groups: set<string>): map<string, int> {
    map g | g in latest && g in groups :: latest[g]
  }

  lemma {:induction false} RetainedLatest(events: seq<TimelineEvent>, groups: set<string>)
    ensures Latest(InGroups(events, groups)) == Restrict(Latest(events), groups)
  {
    LatestIs(events);
    LatestIs(InGroups(events, groups));
    InGroupsIs(events, groups);
    var kept := InGroups(events, groups);
    assert IsLatest(Restrict(Latest(events), groups), kept);
    LatestUnique(Latest(kept), Restrict(Latest(events), groups), kept, kept);
  }

  lemma {:induction false} MergedLatest(existing: seq<TimelineEvent>, incoming: seq<TimelineEvent>)
    requires DistinctIds(existing) && FindConflict(existing, incoming).None?
    ensures Latest(Merge(existing, incoming)) == Join(Latest(existing), Latest(incoming))
  {
    hide FindConflict, Merge, Latest, DistinctIds, IsLatest, Join;
    MergeIs(existing, incoming);
    LatestJoin(existing, incoming);
    LatestIs(Merge(existing, incoming));
    LatestIs(existing + incoming);
    LatestUnique(Latest(Merge(existing, incoming)), Latest(existing + incoming), Merge(existing, incoming), existing + incoming);
  }

  lemma {:induction false} RetainKeeps(c: Collation, all: map<string, int>, kept: map<string, int>, more: map<string, int>, after: map<string, int>)
    requires c.Total() && KeepsRecent(c, all, kept)
    requires after == Restrict(Join(kept, more), Recent(c, Join(kept, more)))
    ensures KeepsRecent(c, Join(all, more), after)
  {
    hide Join, Above;
    FiveOfAll(c, all, kept, more);
  }

  // ----- All commits together -----

  /** Batches committed one after the other, to a store that was empty. */
  datatype Commits = Nothing | Then(before: Commits, events: seq<TimelineEvent>)

  ghost function StoreAfter(c: Collation, scope: Scope, commits: Commits): seq<TimelineEvent> {
    match commits
    case Nothing => []
    case Then(before, events) => Commit(c, scope, StoreAfter(c, scope, before), events).0
  }

  ghost predicate ConflictFree(c: Collation, scope: Scope, commits: Commits) {
    commits.Then? ==> ConflictFree(c, scope, commits.before) && Commit(c, scope, StoreAfter(c, scope, commits.before), commits.events).1.Ok?
  }

  /** Everything ever committed, dropped since or not. */
  ghost function EverCommitted(commits: Commits): seq<TimelineEvent> {
    match commits
    case Nothing => []
    case Then(before, events) => EverCommitted(before) + Grouped(events)
  }

  lemma {:induction false} CommitKeeps(c: Collation, scope: Scope, store: seq<TimelineEvent>, events: seq<TimelineEvent>, all: map<string, int>)
    requires c.Total() && DistinctIds(store) && KeepsRecent(c, all, Latest(store))
    requires Commit(c, scope, store, events).1.Ok?
    ensures DistinctIds(Commit(c, scope, store, events).0)
    ensures KeepsRecent(c, Join(all, Latest(Grouped(events))), Latest(Commit(c, scope, store, events).0))
  {
    hide Merge, FindConflict, Grouped, RecentGroups, Join, Restrict, KeepsRecent, DistinctIds, InGroups;
    var incoming := Grouped(events);
    if |incoming| == 0 {
      JoinNothing(all);
    } else {
      var merged := Merge(store, incoming);
      MergeIs(store, incoming);
      MergedLatest(store, incoming);
      RecentGroupsAre(c, merged);
      RetainedLatest(merged, RecentGroups(c, merged));
      InGroupsIs(merged, RecentGroups(c, merged));
      RetainKeeps(c, all, Latest(store), Latest(incoming), Latest(SelectRecent(c, merged)));
    }
  }

  lemma {:induction false} JoinNothing(all: map<string, int>)
    ensures Join(all, map[]) == all
  {
  }

  /**
   Whatever has been dropped on the way: the groups in the store, and the latest time of each, are exactly those that
   the most recent five of everything ever committed would be.
   */
  lemma {:induction false} StoreKeepsRecentOfAll(c: Collation, scope: Scope, commits: Commits)
    requires c.Total() && ConflictFree(c, scope, commits)
    ensures DistinctIds(StoreAfter(c, scope, commits))
    ensures KeepsRecent(c, Latest(EverCommitted(commits)), Latest(StoreAfter(c, scope, commits)))
    ensures Latest(StoreAfter(c, scope, commits)).Keys == RecentGroups(c, EverCommitted(commits))
  {
    hide Commit, Grouped, RecentGroups, Join;
    RecentGroupsAre(c, EverCommitted(commits));
    match commits
    case Nothing =>
    case Then(before, events) =>
      StoreKeepsRecentOfAll(c, scope, before);
      CommitKeeps(c, scope, StoreAfter(c, scope, before), events, Latest(EverCommitted(before)));
      LatestJoin(EverCommitted(before), Grouped(events));
  }
}
