/**
 The records a history page is chosen from: recovered events, placed by looking their ids up in the frozen snapshot
 and sorted. They come out as the position-by-position reading of the branch, whichever pass recovered them.
 */
module HistoryRecords {
  import opened Bytes
  import opened Timeline
  import opened Recovery

  datatype EventRecord = EventRecord(event: TimelineEvent, position: nat, bytes: nat)

  ghost predicate Increasing(records: seq<EventRecord>) {
    forall i, j :: 0 <= i < j < |records| ==> records[i].position < records[j].position
  }

  ghost predicate DistinctPositions(records: seq<EventRecord>) {
    forall i, j :: 0 <= i < j < |records| ==> records[i].position != records[j].position
  }

  // ----- Sorting -----

  /** Stable insertion by position. */
  function Insert(records: seq<EventRecord>, r: EventRecord): seq<EventRecord> {
    if |records| == 0 || records[|records| - 1].position <= r.position then records + [r]
    else Insert(records[..|records| - 1], r) + [records[|records| - 1]]
  }

  function SortByPosition(records: seq<EventRecord>): seq<EventRecord> {
    if |records| == 0 then [] else Insert(SortByPosition(records[..|records| - 1]), records[|records| - 1])
  }

  lemma {:induction false} InsertIs(records: seq<EventRecord>, r: EventRecord)
    requires Increasing(records) && forall x :: x in records ==> x.position != r.position
    ensures Increasing(Insert(records, r))
    ensures forall x :: x in Insert(records, r) <==> x in records || x == r
  {
    if |records| > 0 && records[|records| - 1].position > r.position {
      var front, last := records[..|records| - 1], records[|records| - 1];
      InsertIs(front, r);
      forall i | 0 <= i < |Insert(front, r)|
        ensures Insert(front, r)[i].position < last.position
      {
        assert Insert(front, r)[i] in Insert(front, r);
      }
    }
  }

  lemma {:induction false} SortIs(records: seq<EventRecord>)
    requires DistinctPositions(records)
    ensures Increasing(SortByPosition(records))
    ensures forall x :: x in SortByPosition(records) <==> x in records
  {
    if |records| > 0 {
      SortIs(records[..|records| - 1]);
      InsertIs(SortByPosition(records[..|records| - 1]), records[|records| - 1]);
    }
  }

  lemma {:induction false} HasFirst(a: seq<EventRecord>)
    requires |a| > 0
    ensures exists x :: x in a
  {
    assert a[0] in a;
  }

  /** An increasing sequence is determined by its members. */
  lemma {:induction false} SameIncreasing(a: seq<EventRecord>, b: seq<EventRecord>)
    requires Increasing(a) && Increasing(b) && forall x :: x in a <==> x in b
    ensures a == b
  {
    if |a| == 0 {
      if |b| > 0 {
        HasFirst(b);
      }
    } else {
      assert a[|a| - 1] in b;
      var x := a[|a| - 1];
      assert |b| > 0 && b[|b| - 1] in a;
      var y := b[|b| - 1];
      assert x.position <= y.position && y.position <= x.position;
      var i :| 0 <= i < |a| && a[i] == y;
      assert i == |a| - 1;
      var front, others := a[..|a| - 1], b[..|b| - 1];
      forall z
        ensures z in front <==> z in others
      {
        WithoutLast(a, z);
        WithoutLast(b, z);
      }
      SameIncreasing(front, others);
    }
  }

  lemma {:induction false} WithoutLast(a: seq<EventRecord>, z: EventRecord)
    requires |a| > 0 && Increasing(a)
    ensures z in a[..|a| - 1] <==> z in a && z != a[|a| - 1]
  {
    if z in a[..|a| - 1] {
      var i :| 0 <= i < |a| - 1 && a[i] == z;
    }
  }

  /** Sorting what has the members of an increasing sequence gives that sequence. */
  lemma {:induction false} SortsTo(records: seq<EventRecord>, sorted: seq<EventRecord>)
    requires DistinctPositions(records) && Increasing(sorted) && forall x :: x in records <==> x in sorted
    ensures SortByPosition(records) == sorted
  {
    SortIs(records);
    SameIncreasing(SortByPosition(records), sorted);
  }

  // ----- Recovered events at their positions -----

  function NamesOf(e: Entry, position: nat): map<string, nat> {
    map key | key in Keys(e) :: position
  }

  function Positions(branch: Branch, n: nat): map<string, nat>
    requires n <= |branch|
  {
    if n == 0 then map[] else Positions(branch, n - 1) + NamesOf(branch[n - 1], n - 1)
  }

  predicate Placed(positions: map<string, nat>, event: TimelineEvent, limit: nat) {
    event.id in positions && positions[event.id] < limit
  }

  function Locate(codec: Codec, positions: map<string, nat>, events: seq<TimelineEvent>, limit: nat): seq<EventRecord> {
    if |events| == 0 then []
    else
      var last := events[|events| - 1];
      Locate(codec, positions, events[..|events| - 1], limit)
      + if Placed(positions, last, limit) then [EventRecord(last, positions[last.id], codec.Size(last))] else []
  }

  /** `None` where recovery throws. */
  function RecoverRecords(codec: Codec, s: Session, frozen: Branch, current: Branch, limit: nat): Option<seq<EventRecord>> {
    match Recover(s, current)
    case None => None
    case Some(events) => Some(SortByPosition(Locate(codec, Positions(frozen, |frozen|), events, limit)))
  }

  method BuildRecords(codec: Codec, s: Session, frozen: Branch, current: Branch, limit: nat) returns (result: Option<seq<EventRecord>>)
    ensures result == RecoverRecords(codec, s, frozen, current, limit)
  {
    hide NamesOf, Recover, SortByPosition;
    var positions := map[];
    for n := 0 to |frozen|
      invariant positions == Positions(frozen, n)
    {
      positions := positions + NamesOf(frozen[n], n);
    }
    var recovered := RecoverTimeline(s, current);
    if recovered.None? {
      return None;
    }
    var events := recovered.value;
    var records := [];
    for n := 0 to |events|
      invariant records == Locate(codec, positions, events[..n], limit)
    {
      assert events[..n + 1][..n] == events[..n];
      if Placed(positions, events[n], limit) {
        records := records + [EventRecord(events[n], positions[events[n].id], codec.Size(events[n]))];
      }
    }
    assert events[..|events|] == events;
    return Some(SortByPosition(records));
  }

  // ----- They are the position-by-position records -----

  ghost function Records(codec: Codec, s: Session, branch: Branch, n: nat): seq<EventRecord>
    requires n <= |branch|
  {
    if n == 0 then []
    else
      var event := RecordAt(s, branch, n - 1);
      Records(codec, s, branch, n - 1) + if event.Some? then [EventRecord(event.value, n - 1, codec.Size(event.value))] else []
  }

  lemma {:induction false} RecordsAre(codec: Codec, s: Session, branch: Branch, n: nat)
    requires n <= |branch|
    ensures Increasing(Records(codec, s, branch, n))
    ensures forall r :: r in Records(codec, s, branch, n) <==>
              r.position < n && RecordAt(s, branch, r.position) == Some(r.event) && r.bytes == codec.Size(r.event)
  {
    hide RecordAt;
    if n > 0 {
      RecordsAre(codec, s, branch, n - 1);
      var front := Records(codec, s, branch, n - 1);
      forall i | 0 <= i < |front|
        ensures front[i].position < n - 1
      {
        assert front[i] in front;
      }
    }
  }

  lemma {:induction false} PositionsAre(branch: Branch, n: nat, key: string, p: nat)
    requires UniqueKeys(branch) && n <= |branch| && p < |branch| && key in Keys(branch[p])
    ensures key in Positions(branch, n) <==> p < n
    ensures p < n ==> Positions(branch, n)[key] == p
  {
    hide Keys, UniqueKeys;
    if n > 0 {
      PositionsAre(branch, n - 1, key, p);
      if key in Keys(branch[n - 1]) {
        SamePosition(branch, p, n - 1, key);
      }
    }
  }

  lemma {:induction false} LocateIs(codec: Codec, positions: map<string, nat>, events: seq<TimelineEvent>, limit: nat)
    ensures forall r :: r in Locate(codec, positions, events, limit) <==>
              && r.event in events && Placed(positions, r.event, limit)
              && r == EventRecord(r.event, positions[r.event.id], codec.Size(r.event))
  {
    if |events| > 0 {
      LocateIs(codec, positions, events[..|events| - 1], limit);
    }
  }

  lemma {:induction false} LocateDistinct(codec: Codec, positions: map<string, nat>, events: seq<TimelineEvent>, limit: nat)
    requires forall i, j :: 0 <= i < j < |events| && Placed(positions, events[i], limit) && Placed(positions, events[j], limit) ==>
               positions[events[i].id] != positions[events[j].id]
    ensures DistinctPositions(Locate(codec, positions, events, limit))
  {
    if |events| > 0 {
      var front, last := events[..|events| - 1], events[|events| - 1];
      LocateDistinct(codec, positions, front, limit);
      LocateIs(codec, positions, front, limit);
      var located := Locate(codec, positions, front, limit);
      forall i | 0 <= i < |located| && Placed(positions, last, limit)
        ensures located[i].position != positions[last.id]
      {
        assert located[i] in located;
        var j :| 0 <= j < |front| && front[j] == located[i].event;
        assert events[j] == front[j];
      }
    }
  }

  lemma {:induction false} OwnPosition(s: Session, frozen: Branch, current: Branch, e: TimelineEvent) returns (p: nat)
    requires UniqueKeys(current) && frozen <= current && Recorded(s, current, e)
    ensures p < |current| && RecordAt(s, current, p) == Some(e)
    ensures e.id in Positions(frozen, |frozen|) <==> p < |frozen|
    ensures p < |frozen| ==> Positions(frozen, |frozen|)[e.id] == p
  {
    hide RecordAt, Keys;
    p :| 0 <= p < |current| && RecordAt(s, current, p) == Some(e);
    PickedKeys(s, current, p);
    PositionsOfPrefix(frozen, current, |frozen|);
    PositionsAre(current, |frozen|, e.id, p);
  }

  lemma {:induction false} PositionsOfPrefix(frozen: Branch, current: Branch, n: nat)
    requires frozen <= current && n <= |frozen|
    ensures Positions(frozen, n) == Positions(current, n)
  {
    if n > 0 {
      PositionsOfPrefix(frozen, current, n - 1);
    }
  }

  /** Passes, lookups and sorting together read the branch position by position. */
  lemma {:induction false} RecordsAreRead(codec: Codec, s: Session, frozen: Branch, current: Branch, limit: nat)
    requires UniqueKeys(current) && frozen <= current && limit <= |frozen| && Recover(s, current).Some?
    ensures RecoverRecords(codec, s, frozen, current, limit) == Some(Records(codec, s, current, limit))
  {
    hide Recover, RecordAt, Records, UniqueKeys, Positions, Recorded, Locate;
    var events := Recover(s, current).value;
    var positions := Positions(frozen, |frozen|);
    RecoverIsRecords(s, current);
    RecordsAre(codec, s, current, limit);
    LocateIs(codec, positions, events, limit);
    forall r
      ensures r in Locate(codec, positions, events, limit) <==> r in Records(codec, s, current, limit)
    {
      SameRecord(codec, s, frozen, current, limit, r);
    }
    forall i, j | 0 <= i < j < |events| && Placed(positions, events[i], limit) && Placed(positions, events[j], limit)
      ensures positions[events[i].id] != positions[events[j].id]
    {
      assert events[i] in events && events[j] in events;
      var p := OwnPosition(s, frozen, current, events[i]);
      var q := OwnPosition(s, frozen, current, events[j]);
    }
    LocateDistinct(codec, positions, events, limit);
    SortsTo(Locate(codec, positions, events, limit), Records(codec, s, current, limit));
  }

  lemma {:induction false} SameRecord(codec: Codec, s: Session, frozen: Branch, current: Branch, limit: nat, r: EventRecord)
    requires UniqueKeys(current) && frozen <= current && limit <= |frozen|
    ensures (Recorded(s, current, r.event) && Placed(Positions(frozen, |frozen|), r.event, limit)
             && r == EventRecord(r.event, Positions(frozen, |frozen|)[r.event.id], codec.Size(r.event)))
            <==> r.position < limit && RecordAt(s, current, r.position) == Some(r.event) && r.bytes == codec.Size(r.event)
  {
    hide RecordAt, UniqueKeys, Positions;
    if Recorded(s, current, r.event) {
      var p := OwnPosition(s, frozen, current, r.event);
      if r.position < limit && RecordAt(s, current, r.position) == Some(r.event) {
        PickedKeys(s, current, p);
        PickedKeys(s, current, r.position);
        SamePosition(current, p, r.position, r.event.id);
      }
    }
  }

  lemma {:induction false} InsertMembers(records: seq<EventRecord>, r: EventRecord)
    ensures forall x :: x in Insert(records, r) <==> x in records || x == r
  {
    if |records| > 0 && records[|records| - 1].position > r.position {
      InsertMembers(records[..|records| - 1], r);
    }
  }

  lemma {:induction false} SortMembers(records: seq<EventRecord>)
    ensures forall x :: x in SortByPosition(records) <==> x in records
  {
    if |records| > 0 {
      SortMembers(records[..|records| - 1]);
      InsertMembers(SortByPosition(records[..|records| - 1]), records[|records| - 1]);
    }
  }

  lemma {:induction false} RecoveredBelow(codec: Codec, s: Session, frozen: Branch, current: Branch, limit: nat)
    requires RecoverRecords(codec, s, frozen, current, limit).Some?
    ensures forall r :: r in RecoverRecords(codec, s, frozen, current, limit).value ==> r.position < limit
  {
    hide Recover, Positions, Locate;
    var located := Locate(codec, Positions(frozen, |frozen|), Recover(s, current).value, limit);
    LocateIs(codec, Positions(frozen, |frozen|), Recover(s, current).value, limit);
    SortMembers(located);
  }
}
