/**
 The idempotency table of a session: requests are remembered in the order of their last use, for a limited time and
 up to a limited number. What was remembered is answered as a replay, and nothing is forgotten without a reason.
 */
module SessionState {
  import opened Bytes

  datatype Status = Received | Queued | Accepted | Committed | UnknownDelivery

  datatype Record = Record(
    key: string,
    generation: string,
    senderRef: string,
    clientRequestId: string,
    fingerprint: string,
    status: Status,
    messageId: Option<string>,
    groupId: Option<string>,
    touchedAt: int)

  /** An insertion-ordered map, oldest entry first. */
  type Table = seq<Record>

  datatype Config = Config(maxEntries: nat, ttl: int) {
    predicate Valid() { maxEntries >= 1 && ttl >= 1 }
  }

  datatype State = State(generation: string, records: Table)

  // ----- Keys -----

  const NUL := "\0"

  function RecordKey(generation: string, senderRef: string, clientRequestId: string): string {
    generation + NUL + senderRef + NUL + clientRequestId
  }

  lemma {:induction false} FirstPart(a: string, x: string, b: string, y: string)
    requires NUL[0] !in a && NUL[0] !in b && a + NUL + x == b + NUL + y
    ensures a == b && x == y
  {
    var s, t := a + NUL + x, b + NUL + y;
    assert s[|a|] == NUL[0] && t[|b|] == NUL[0];
    assert forall i :: 0 <= i < |a| ==> s[i] == a[i] && s[i] != NUL[0];
    assert forall i :: 0 <= i < |b| ==> t[i] == b[i] && t[i] != NUL[0];
    assert a == s[..|a|] && b == t[..|b|];
    assert x == s[|a| + 1..] && y == t[|b| + 1..];
  }

  /** Requests without NUL characters have the same key only if they are the same request of the same sender. */
  lemma {:induction false} KeysIdentify(g: string, s: string, c: string, h: string, t: string, d: string)
    requires NUL[0] !in g && NUL[0] !in s && NUL[0] !in h && NUL[0] !in t
    requires RecordKey(g, s, c) == RecordKey(h, t, d)
    ensures g == h && s == t && c == d
  {
    assert RecordKey(g, s, c) == g + NUL + (s + NUL + c) && RecordKey(h, t, d) == h + NUL + (t + NUL + d);
    FirstPart(g, s + NUL + c, h, t + NUL + d);
    FirstPart(s, c, t, d);
  }

  // ----- The table -----

  function Find(table: Table, key: string): (r: Option<Record>)
    ensures r.Some? ==> r.value in table && r.value.key == key
    ensures r.None? ==> forall x :: x in table ==> x.key != key
  {
    if |table| == 0 then None
    else if table[|table| - 1].key == key then Some(table[|table| - 1])
    else Find(table[..|table| - 1], key)
  }

  function Remove(table: Table, key: string): Table {
    if |table| == 0 then []
    else
      var last := table[|table| - 1];
      Remove(table[..|table| - 1], key) + if last.key == key then [] else [last]
  }

  /** Deleting and setting again moves an entry to the end. */
  function PutLast(table: Table, r: Record): Table {
    Remove(table, r.key) + [r]
  }

  function RemoveSender(table: Table, senderRef: string): Table {
    if |table| == 0 then []
    else
      var last := table[|table| - 1];
      RemoveSender(table[..|table| - 1], senderRef) + if last.senderRef == senderRef then [] else [last]
  }

  function Unexpired(table: Table, now: int, ttl: int): Table {
    if |table| == 0 then []
    else
      var last := table[|table| - 1];
      Unexpired(table[..|table| - 1], now, ttl) + if now - last.touchedAt >= ttl then [] else [last]
  }

  function Newest(table: Table, max: nat): (r: Table)
    ensures |r| <= max
  {
    if |table| <= max then table else table[|table| - max..]
  }

  function Prune(cfg: Config, table: Table, now: int): Table {
    Newest(Unexpired(table, now, cfg.ttl), cfg.maxEntries)
  }

  // ----- Operations -----

  datatype Begun = New(record: Record) | Replay(record: Record) | Conflict(record: Record) | Invalid

  predicate ValidId(id: string) { 1 <= |id| <= 256 }

  /** `now` is the clock when pruning, `later` when the entry is touched. */
  function Begin(cfg: Config, st: State, senderRef: string, clientRequestId: string, fingerprint: string, now: int, later: int): (State, Begun) {
    var pruned := Prune(cfg, st.records, now);
    if !ValidId(senderRef) || !ValidId(clientRequestId) then (st.(records := pruned), Invalid)
    else
      var key := RecordKey(st.generation, senderRef, clientRequestId);
      match Find(pruned, key)
      case Some(existing) =>
        var touched := existing.(touchedAt := later);
        (st.(records := PutLast(pruned, touched)), if existing.fingerprint == fingerprint then Replay(touched) else Conflict(touched))
      case None =>
        var entry := Record(key, st.generation, senderRef, clientRequestId, fingerprint, Received, None, None, later);
        (st.(records := Newest(pruned + [entry], cfg.maxEntries)), New(entry))
  }

  function Or<T>(a: Option<T>, b: Option<T>): Option<T> { if a.Some? then a else b }

  function Update(cfg: Config, st: State, key: string, status: Status, messageId: Option<string>, groupId: Option<string>,
                  now: int, later: int): (State, Option<Record>)
  {
    var pruned := Prune(cfg, st.records, now);
    match Find(pruned, key)
    case None => (st.(records := pruned), None)
    case Some(existing) =>
      var updated := existing.(status := status, messageId := Or(messageId, existing.messageId),
                               groupId := Or(groupId, existing.groupId), touchedAt := later);
      (st.(records := PutLast(pruned, updated)), Some(updated))
  }

  function GetRecord(cfg: Config, st: State, key: string, now: int): (State, Option<Record>) {
    var pruned := Prune(cfg, st.records, now);
    (st.(records := pruned), Find(pruned, key))
  }

  function Forget(st: State, key: string): State { st.(records := Remove(st.records, key)) }

  function RemoveOwner(st: State, senderRef: string): State { st.(records := RemoveSender(st.records, senderRef)) }

  /** An empty generation throws. */
  function SetGeneration(st: State, generation: string): Option<State> {
    if generation == "" then None
    else if generation == st.generation then Some(st)
    else Some(State(generation, []))
  }

  // ----- The class -----

  class V2SessionState {
    const maxEntries: nat
    const ttlMs: int
    var generation: string
    var records: Table

    function Cfg(): Config { Config(maxEntries, ttlMs) }

    function Snapshot(): State
      reads this
    {
      State(generation, records)
    }

    constructor (generation: string, maxEntries: int, ttlMs: int)
      ensures Snapshot() == State(generation, []) && Cfg().Valid()
      ensures Cfg() == Config(if maxEntries < 1 then 1 else maxEntries, if ttlMs < 1 then 1 else ttlMs)
    {
      this.generation, records := generation, [];
      this.maxEntries := if maxEntries < 1 then 1 else maxEntries;
      this.ttlMs := if ttlMs < 1 then 1 else ttlMs;
    }

    /** `ok` is false where it throws. */
    method SwitchGeneration(next: string) returns (ok: bool)
      modifies this
      ensures SetGeneration(old(Snapshot()), next) == if ok then Some(Snapshot()) else None
      ensures !ok ==> Snapshot() == old(Snapshot())
    {
      if next == "" {
        return false;
      }
      if next != generation {
        generation := next;
        records := [];
      }
      return true;
    }

    method PruneAt(now: int)
      modifies `records
      ensures records == Prune(Cfg(), old(records), now)
    {
      var kept := [];
      for i := 0 to |records|
        invariant kept == Unexpired(records[..i], now, ttlMs) && records == old(records)
      {
        assert records[..i + 1][..i] == records[..i];
        if now - records[i].touchedAt < ttlMs {
          kept := kept + [records[i]];
        }
      }
      assert records[..|records|] == records;
      records := kept;
      PruneCapacity();
    }

    method PruneCapacity()
      modifies `records
      ensures records == Newest(old(records), maxEntries)
    {
      var all := records;
      while |records| > maxEntries
        invariant records == all[|all| - |records|..] && (|records| >= maxEntries || records == all)
      {
        records := records[1..];
      }
    }

    method BeginRequest(senderRef: string, clientRequestId: string, fingerprint: string, now: int, later: int) returns (result: Begun)
      modifies `records
      ensures (Snapshot(), result) == Begin(Cfg(), old(Snapshot()), senderRef, clientRequestId, fingerprint, now, later)
    {
      PruneAt(now);
      if !ValidId(senderRef) || !ValidId(clientRequestId) {
        return Invalid;
      }
      var key := RecordKey(generation, senderRef, clientRequestId);
      var existing := Find(records, key);
      if existing.Some? {
        var touched := existing.value.(touchedAt := later);
        records := PutLast(records, touched);
        return if touched.fingerprint == fingerprint then Replay(touched) else Conflict(touched);
      }
      var entry := Record(key, generation, senderRef, clientRequestId, fingerprint, Received, None, None, later);
      records := records + [entry];
      PruneCapacity();
      return New(entry);
    }

    method UpdateRecord(key: string, status: Status, messageId: Option<string>, groupId: Option<string>, now: int, later: int)
      returns (record: Option<Record>)
      modifies `records
      ensures (Snapshot(), record) == Update(Cfg(), old(Snapshot()), key, status, messageId, groupId, now, later)
    {
      PruneAt(now);
      var existing := Find(records, key);
      if existing.None? {
        return None;
      }
      var updated := existing.value.(status := status);
      if messageId.Some? {
        updated := updated.(messageId := messageId);
      }
      if groupId.Some? {
        updated := updated.(groupId := groupId);
      }
      updated := updated.(touchedAt := later);
      records := PutLast(records, updated);
      return Some(updated);
    }

    method LookUp(key: string, now: int) returns (record: Option<Record>)
      modifies `records
      ensures (Snapshot(), record) == GetRecord(Cfg(), old(Snapshot()), key, now)
    {
      PruneAt(now);
      return Find(records, key);
    }

    method ForgetKey(key: string)
      modifies `records
      ensures Snapshot() == Forget(old(Snapshot()), key)
    {
      records := Remove(records, key);
    }

    method ForgetOwner(senderRef: string)
      modifies `records
      ensures Snapshot() == RemoveOwner(old(Snapshot()), senderRef)
    {
      var kept := [];
      for i := 0 to |records|
        invariant kept == RemoveSender(records[..i], senderRef) && records == old(records)
      {
        assert records[..i + 1][..i] == records[..i];
        if records[i].senderRef != senderRef {
          kept := kept + [records[i]];
        }
      }
      assert records[..|records|] == records;
      records := kept;
    }
  }

  // ----- What every table keeps -----

  predicate Has(table: Table, key: string) { Find(table, key).Some? }

  ghost predicate DistinctKeys(table: Table) {
    forall i, j :: 0 <= i < j < |table| ==> table[i].key != table[j].key
  }

  ghost predicate ByLastTouch(table: Table) {
    forall i, j :: 0 <= i < j < |table| ==> table[i].touchedAt <= table[j].touchedAt
  }

  ghost predicate TouchedBy(table: Table, now: int) {
    forall r :: r in table ==> r.touchedAt <= now
  }

  ghost predicate Tidy(cfg: Config, table: Table, now: int) {
    DistinctKeys(table) && ByLastTouch(table) && TouchedBy(table, now) && |table| <= cfg.maxEntries
  }

  /** `part` is `table` with some entries left out. */
  ghost predicate Thinned(part: Table, table: Table) {
    && |part| <= |table|
    && (DistinctKeys(table) ==> DistinctKeys(part))
    && (ByLastTouch(table) ==> ByLastTouch(part))
    && forall r :: r in part ==> r in table
  }

  lemma {:induction false} ThinnedLast(part: Table, front: Table, last: Record, keep: bool)
    requires Thinned(part, front)
    ensures Thinned(part + (if keep then [last] else []), front + [last])
  {
    var table := front + [last];
    assert front == table[..|front|];
    forall i | 0 <= i < |part|
      ensures part[i] in front
    {
    }
    forall r | r in front
      ensures exists i :: 0 <= i < |front| && table[i] == r
    {
      var i :| 0 <= i < |front| && front[i] == r;
      assert table[i] == r;
    }
  }

  lemma {:induction false} RemoveIs(table: Table, key: string)
    ensures Thinned(Remove(table, key), table)
    ensures forall r :: r in Remove(table, key) <==> r in table && r.key != key
  {
    if |table| > 0 {
      var front, last := table[..|table| - 1], table[|table| - 1];
      RemoveIs(front, key);
      ThinnedLast(Remove(front, key), front, last, last.key != key);
      assert front + [last] == table;
      hide Thinned;
    }
  }

  lemma {:induction false} RemoveSenderIs(table: Table, senderRef: string)
    ensures Thinned(RemoveSender(table, senderRef), table)
    ensures forall r :: r in RemoveSender(table, senderRef) <==> r in table && r.senderRef != senderRef
  {
    if |table| > 0 {
      var front, last := table[..|table| - 1], table[|table| - 1];
      RemoveSenderIs(front, senderRef);
      ThinnedLast(RemoveSender(front, senderRef), front, last, last.senderRef != senderRef);
      assert front + [last] == table;
      hide Thinned;
    }
  }

  lemma {:induction false} UnexpiredIs(table: Table, now: int, ttl: int)
    ensures Thinned(Unexpired(table, now, ttl), table)
    ensures forall r :: r in Unexpired(table, now, ttl) <==> r in table && now - r.touchedAt < ttl
  {
    if |table| > 0 {
      var front, last := table[..|table| - 1], table[|table| - 1];
      UnexpiredIs(front, now, ttl);
      ThinnedLast(Unexpired(front, now, ttl), front, last, now - last.touchedAt < ttl);
      assert front + [last] == table;
      hide Thinned;
    }
  }

  lemma {:induction false} NewestIs(table: Table, max: nat)
    ensures Thinned(Newest(table, max), table)
  {
    forall r | r in Newest(table, max)
      ensures r in table
    {
    }
  }

  /** Within capacity, pruning drops exactly the expired entries. */
  lemma {:induction false} PruneIs(cfg: Config, table: Table, now: int)
    requires |table| <= cfg.maxEntries
    ensures Thinned(Prune(cfg, table, now), table) && |Prune(cfg, table, now)| <= cfg.maxEntries
    ensures forall r :: r in Prune(cfg, table, now) <==> r in table && now - r.touchedAt < cfg.ttl
  {
    UnexpiredIs(table, now, cfg.ttl);
  }

  lemma {:induction false} Appended(table: Table, r: Record, now: int)
    requires DistinctKeys(table) && ByLastTouch(table) && TouchedBy(table, now) && now <= r.touchedAt
    requires forall x :: x in table ==> x.key != r.key
    ensures DistinctKeys(table + [r]) && ByLastTouch(table + [r]) && TouchedBy(table + [r], r.touchedAt)
  {
  }

  lemma {:induction false} MovedLast(table: Table, existing: Record, r: Record, now: int)
    requires DistinctKeys(table) && ByLastTouch(table) && TouchedBy(table, now) && now <= r.touchedAt
    requires existing in table && r.key == existing.key
    ensures DistinctKeys(PutLast(table, r)) && ByLastTouch(PutLast(table, r)) && TouchedBy(PutLast(table, r), r.touchedAt)
    ensures |PutLast(table, r)| <= |table|
    ensures forall x :: x in PutLast(table, r) <==> x == r || (x in table && x.key != r.key)
  {
    RemoveIs(table, r.key);
    Appended(Remove(table, r.key), r, now);
    RemoveShorter(table, existing);
  }

  lemma {:induction false} RemoveShorter(table: Table, r: Record)
    requires r in table
    ensures |Remove(table, r.key)| < |table|
  {
    var front, last := table[..|table| - 1], table[|table| - 1];
    if last.key == r.key {
      RemoveIs(front, r.key);
    } else {
      RemoveShorter(front, r);
    }
  }

  // ----- Runs -----

  datatype Op =
    | BeginOp(senderRef: string, clientRequestId: string, fingerprint: string, now: int, later: int)
    | UpdateOp(key: string, status: Status, messageId: Option<string>, groupId: Option<string>, now: int, later: int)
    | GetOp(key: string, now: int)
    | ForgetOp(key: string)
    | RemoveOwnerOp(senderRef: string)
    | SetGenerationOp(generation: string)

  ghost function Apply(cfg: Config, st: State, op: Op): State {
    match op
    case BeginOp(senderRef, clientRequestId, fingerprint, now, later) => Begin(cfg, st, senderRef, clientRequestId, fingerprint, now, later).0
    case UpdateOp(key, status, messageId, groupId, now, later) => Update(cfg, st, key, status, messageId, groupId, now, later).0
    case GetOp(key, now) => GetRecord(cfg, st, key, now).0
    case ForgetOp(key) => Forget(st, key)
    case RemoveOwnerOp(senderRef) => RemoveOwner(st, senderRef)
    case SetGenerationOp(generation) => if generation == "" then st else SetGeneration(st, generation).value
  }

  /** The request that `op` begins is answered as new: this is when the service hands the message over. */
  ghost predicate Delivers(cfg: Config, st: State, op: Op, key: string) {
    && op.BeginOp?
    && var begun := Begin(cfg, st, op.senderRef, op.clientRequestId, op.fingerprint, op.now, op.later).1;
       begun.New? && begun.record.key == key
  }

  /** The clock does not run backwards. */
  ghost predicate InTime(op: Op, last: int) {
    match op
    case BeginOp(_, _, _, now, later) => last <= now <= later
    case UpdateOp(_, _, _, _, now, later) => last <= now <= later
    case GetOp(_, now) => last <= now
    case _ => true
  }

  ghost function TimeAfter(op: Op, last: int): int {
    match op
    case BeginOp(_, _, _, _, later) => later
    case UpdateOp(_, _, _, _, _, later) => later
    case GetOp(_, now) => now
    case _ => last
  }

  lemma {:induction false} ThinnedTidy(cfg: Config, part: Table, table: Table, last: int, now: int)
    requires Tidy(cfg, table, last) && Thinned(part, table) && last <= now
    ensures Tidy(cfg, part, now)
  {
  }

  lemma {:induction false} BeginTidy(cfg: Config, st: State, op: Op, last: int)
    requires cfg.Valid() && Tidy(cfg, st.records, last) && op.BeginOp? && InTime(op, last)
    ensures Tidy(cfg, Apply(cfg, st, op).records, op.later)
  {
    hide Prune, Thinned, PutLast;
    var pruned := Prune(cfg, st.records, op.now);
    PruneIs(cfg, st.records, op.now);
    ThinnedTidy(cfg, pruned, st.records, last, op.now);
    if ValidId(op.senderRef) && ValidId(op.clientRequestId) {
      var key := RecordKey(st.generation, op.senderRef, op.clientRequestId);
      var existing := Find(pruned, key);
      if existing.Some? {
        MovedLast(pruned, existing.value, existing.value.(touchedAt := op.later), op.now);
      } else {
        var entry := Record(key, st.generation, op.senderRef, op.clientRequestId, op.fingerprint, Received, None, None, op.later);
        Appended(pruned, entry, op.now);
        NewestTidy(cfg, pruned + [entry], op.later);
      }
    }
  }

  lemma {:induction false} NewestTidy(cfg: Config, table: Table, now: int)
    requires DistinctKeys(table) && ByLastTouch(table) && TouchedBy(table, now)
    ensures Tidy(cfg, Newest(table, cfg.maxEntries), now)
  {
    NewestIs(table, cfg.maxEntries);
  }

  lemma {:induction false} UpdateTidy(cfg: Config, st: State, op: Op, last: int)
    requires Tidy(cfg, st.records, last) && op.UpdateOp? && InTime(op, last)
    ensures Tidy(cfg, Apply(cfg, st, op).records, op.later)
  {
    hide Prune, Thinned, PutLast;
    var pruned := Prune(cfg, st.records, op.now);
    PruneIs(cfg, st.records, op.now);
    ThinnedTidy(cfg, pruned, st.records, last, op.now);
    var existing := Find(pruned, op.key);
    if existing.Some? {
      var updated := existing.value.(status := op.status, messageId := Or(op.messageId, existing.value.messageId),
                                     groupId := Or(op.groupId, existing.value.groupId), touchedAt := op.later);
      MovedLast(pruned, existing.value, updated, op.now);
    }
  }

  /** Every operation leaves the table with distinct keys, in the order of last touch, within capacity. */
  lemma {:induction false} TidyStep(cfg: Config, st: State, op: Op, last: int)
    requires cfg.Valid() && Tidy(cfg, st.records, last) && InTime(op, last)
    ensures Tidy(cfg, Apply(cfg, st, op).records, TimeAfter(op, last))
  {
    match op
    case BeginOp(_, _, _, _, _) => BeginTidy(cfg, st, op, last);
    case UpdateOp(_, _, _, _, _, _) => UpdateTidy(cfg, st, op, last);
    case GetOp(_, now) =>
      PruneIs(cfg, st.records, now);
      ThinnedTidy(cfg, Prune(cfg, st.records, now), st.records, last, now);
    case ForgetOp(key) =>
      RemoveIs(st.records, key);
      ThinnedTidy(cfg, Remove(st.records, key), st.records, last, last);
    case RemoveOwnerOp(senderRef) =>
      RemoveSenderIs(st.records, senderRef);
      ThinnedTidy(cfg, RemoveSender(st.records, senderRef), st.records, last, last);
    case SetGenerationOp(_) =>
  }

  // ----- Forgetting has a reason -----

  ghost predicate Expired(cfg: Config, r: Record, now: int) { now - r.touchedAt >= cfg.ttl }

  /** The table is full of other entries, each touched no earlier. */
  ghost predicate Crowded(cfg: Config, table: Table, r: Record) {
    |table| == cfg.maxEntries && forall x :: x in table ==> x.key != r.key && r.touchedAt <= x.touchedAt
  }

  ghost predicate Reason(cfg: Config, st: State, op: Op, r: Record) {
    match op
    case BeginOp(_, _, _, now, _) => Expired(cfg, r, now) || Crowded(cfg, Apply(cfg, st, op).records, r)
    case UpdateOp(_, _, _, _, now, _) => Expired(cfg, r, now)
    case GetOp(_, now) => Expired(cfg, r, now)
    case ForgetOp(key) => key == r.key
    case RemoveOwnerOp(senderRef) => senderRef == r.senderRef
    case SetGenerationOp(generation) => generation != "" && generation != st.generation
  }

  /** After `op` the entry is gone, or has been replaced by a new one. */
  ghost predicate Forgotten(cfg: Config, st: State, op: Op, r: Record) {
    !Has(Apply(cfg, st, op).records, r.key) || Delivers(cfg, st, op, r.key)
  }

  /** The entry as it may have been moved or updated since. */
  ghost predicate Carried(table: Table, r: Record) {
    exists x :: x in table && x.key == r.key && x.fingerprint == r.fingerprint && x.senderRef == r.senderRef
  }

  lemma {:induction false} FindIs(table: Table, r: Record)
    requires DistinctKeys(table) && r in table
    ensures Find(table, r.key) == Some(r)
  {
    var found := Find(table, r.key).value;
    var i :| 0 <= i < |table| && table[i] == r;
    var j :| 0 <= j < |table| && table[j] == found;
    assert i == j;
  }

  lemma {:induction false} FullNewest(table: Table, entry: Record, max: nat, r: Record)
    requires max >= 1 && |table| <= max && DistinctKeys(table) && ByLastTouch(table) && TouchedBy(table, entry.touchedAt)
    requires r in table && r.key != entry.key
    ensures var kept := Newest(table + [entry], max);
            if r in kept then true
            else |kept| == max && forall x :: x in kept ==> x.key != r.key && r.touchedAt <= x.touchedAt
  {
    var kept := Newest(table + [entry], max);
    var i :| 0 <= i < |table| && table[i] == r;
    if |table| == max {
      assert kept == table[1..] + [entry];
      if i > 0 {
        assert table[1..][i - 1] == r;
        assert r in table[1..];
      } else {
        forall x | x in table[1..]
          ensures x.key != r.key && r.touchedAt <= x.touchedAt
        {
          var j :| 0 <= j < |table[1..]| && table[1..][j] == x;
          assert table[j + 1] == x;
        }
      }
    } else {
      assert kept == table + [entry];
    }
  }

  lemma {:induction false} ExpiredGone(cfg: Config, table: Table, now: int, r: Record)
    requires DistinctKeys(table) && |table| <= cfg.maxEntries && r in table
    ensures r in Prune(cfg, table, now) <==> !Expired(cfg, r, now)
    ensures Expired(cfg, r, now) ==> forall x :: x in Prune(cfg, table, now) ==> x.key != r.key
  {
    PruneIs(cfg, table, now);
    forall x | x in Prune(cfg, table, now) && x.key == r.key
      ensures x == r
    {
      FindIs(table, r);
      FindIs(table, x);
    }
  }

  lemma {:induction false} HasIs(table: Table, key: string)
    ensures Has(table, key) <==> exists x :: x in table && x.key == key
  {
  }

  /** A beginning that finds its request, or throws, keeps what pruning left. */
  lemma {:induction false} AgainForgets(cfg: Config, st: State, op: Op, r: Record, pruned: Table)
    requires op.BeginOp? && r in st.records && pruned == Prune(cfg, st.records, op.now) && DistinctKeys(pruned)
    requires !Begin(cfg, st, op.senderRef, op.clientRequestId, op.fingerprint, op.now, op.later).1.New?
    requires r in pruned || forall x :: x in pruned ==> x.key != r.key
    ensures var after := Apply(cfg, st, op).records;
            && (r in pruned ==> Carried(after, r)) && (r !in pruned ==> forall x :: x in after ==> x.key != r.key)
  {
    hide Prune, Thinned;
    if ValidId(op.senderRef) && ValidId(op.clientRequestId) {
      var existing := Find(pruned, RecordKey(st.generation, op.senderRef, op.clientRequestId)).value;
      var touched := existing.(touchedAt := op.later);
      RemoveIs(pruned, touched.key);
      if r in pruned {
        FindIs(pruned, r);
        assert r.key == existing.key ==> touched in PutLast(pruned, touched);
      }
    }
  }

  lemma {:induction false} NewForgets(cfg: Config, st: State, op: Op, last: int, r: Record, pruned: Table)
    requires cfg.Valid() && op.BeginOp? && r in st.records && pruned == Prune(cfg, st.records, op.now) && Tidy(cfg, pruned, op.now)
    requires InTime(op, last) && Begin(cfg, st, op.senderRef, op.clientRequestId, op.fingerprint, op.now, op.later).1.New?
    requires r in pruned || forall x :: x in pruned ==> x.key != r.key
    ensures var after := Apply(cfg, st, op).records;
            && (r in pruned ==> r in after || Crowded(cfg, after, r))
            && (r in pruned ==> !Delivers(cfg, st, op, r.key))
            && (r !in pruned ==> Delivers(cfg, st, op, r.key) || forall x :: x in after ==> x.key != r.key)
  {
    hide Prune;
    var entry := Begin(cfg, st, op.senderRef, op.clientRequestId, op.fingerprint, op.now, op.later).1.record;
    if r in pruned {
      FullNewest(pruned, entry, cfg.maxEntries, r);
    } else {
      NewestIs(pruned + [entry], cfg.maxEntries);
    }
  }

  lemma {:induction false} BeginForgets(cfg: Config, st: State, op: Op, last: int, r: Record)
    requires cfg.Valid() && Tidy(cfg, st.records, last) && op.BeginOp? && InTime(op, last) && r in st.records
    ensures Forgotten(cfg, st, op, r) <==> Reason(cfg, st, op, r)
    ensures !Reason(cfg, st, op, r) ==> Carried(Apply(cfg, st, op).records, r)
  {
    hide Prune, Thinned, Begin, Has, Find;
    var pruned := Prune(cfg, st.records, op.now);
    PruneIs(cfg, st.records, op.now);
    ThinnedTidy(cfg, pruned, st.records, last, op.now);
    ExpiredGone(cfg, st.records, op.now, r);
    HasIs(Apply(cfg, st, op).records, r.key);
    if Begin(cfg, st, op.senderRef, op.clientRequestId, op.fingerprint, op.now, op.later).1.New? {
      NewForgets(cfg, st, op, last, r, pruned);
    } else {
      AgainForgets(cfg, st, op, r, pruned);
    }
  }

  lemma {:induction false} UpdateForgets(cfg: Config, st: State, op: Op, last: int, r: Record)
    requires cfg.Valid() && Tidy(cfg, st.records, last) && op.UpdateOp? && InTime(op, last) && r in st.records
    ensures Forgotten(cfg, st, op, r) <==> Reason(cfg, st, op, r)
    ensures !Reason(cfg, st, op, r) ==> Carried(Apply(cfg, st, op).records, r)
  {
    hide Prune, Thinned, Has;
    var pruned := Prune(cfg, st.records, op.now);
    PruneIs(cfg, st.records, op.now);
    ThinnedTidy(cfg, pruned, st.records, last, op.now);
    ExpiredGone(cfg, st.records, op.now, r);
    HasIs(Apply(cfg, st, op).records, r.key);
    var existing := Find(pruned, op.key);
    if existing.Some? {
      var updated := existing.value.(status := op.status, messageId := Or(op.messageId, existing.value.messageId),
                                     groupId := Or(op.groupId, existing.value.groupId), touchedAt := op.later);
      RemoveIs(pruned, updated.key);
      if r in pruned {
        FindIs(pruned, r);
        assert r.key == op.key ==> updated in PutLast(pruned, updated);
      }
    }
  }

  /**
   An operation forgets an entry exactly for a reason: it was told to forget it or its owner, the generation changed,
   the entry's time was up, or the table is full of other entries touched no earlier. Otherwise the entry stays.
   */
  lemma {:induction false} ForgetsForReason(cfg: Config, st: State, op: Op, last: int, r: Record)
    requires cfg.Valid() && Tidy(cfg, st.records, last) && InTime(op, last) && r in st.records
    ensures Forgotten(cfg, st, op, r) <==> Reason(cfg, st, op, r)
    ensures !Reason(cfg, st, op, r) ==> Carried(Apply(cfg, st, op).records, r)
  {
    hide Prune, Thinned, Has;
    if op.BeginOp? {
      BeginForgets(cfg, st, op, last, r);
    } else if op.UpdateOp? {
      UpdateForgets(cfg, st, op, last, r);
    } else {
      HasIs(Apply(cfg, st, op).records, r.key);
      match op
      case GetOp(_, now) => ExpiredGone(cfg, st.records, now, r);
      case ForgetOp(key) => RemoveIs(st.records, key);
      case RemoveOwnerOp(senderRef) => OwnerForgets(st.records, senderRef, r);
      case SetGenerationOp(_) =>
    }
  }

  lemma {:induction false} OwnerForgets(table: Table, senderRef: string, r: Record)
    requires DistinctKeys(table) && r in table
    ensures Has(RemoveSender(table, senderRef), r.key) <==> r.senderRef != senderRef
    ensures r.senderRef != senderRef ==> r in RemoveSender(table, senderRef)
  {
    RemoveSenderIs(table, senderRef);
    HasIs(RemoveSender(table, senderRef), r.key);
    forall x | x in table && x.key == r.key
      ensures x == r
    {
      FindIs(table, x);
      FindIs(table, r);
    }
  }

  // ----- Delivered at most once -----

  datatype Run = From(start: State, time: int) | Did(before: Run, op: Op)

  ghost function StateOf(cfg: Config, run: Run): State {
    match run
    case From(start, _) => start
    case Did(before, op) => Apply(cfg, StateOf(cfg, before), op)
  }

  ghost function TimeOf(run: Run): int {
    match run
    case From(_, time) => time
    case Did(before, op) => TimeAfter(op, TimeOf(before))
  }

  ghost predicate Clocked(cfg: Config, run: Run) {
    match run
    case From(start, time) => Tidy(cfg, start.records, time)
    case Did(before, op) => Clocked(cfg, before) && InTime(op, TimeOf(before))
  }

  /** No operation of the run has a reason to forget an entry under `key`. */
  ghost predicate Undisturbed(cfg: Config, run: Run, key: string) {
    run.Did? ==>
      && Undisturbed(cfg, run.before, key)
      && forall r :: r in StateOf(cfg, run.before).records && r.key == key ==> !Reason(cfg, StateOf(cfg, run.before), run.op, r)
  }

  ghost function Deliveries(cfg: Config, run: Run, key: string): nat {
    match run
    case From(_, _) => 0
    case Did(before, op) => Deliveries(cfg, before, key) + if Delivers(cfg, StateOf(cfg, before), op, key) then 1 else 0
  }

  lemma {:induction false} AlwaysTidy(cfg: Config, run: Run)
    requires cfg.Valid() && Clocked(cfg, run)
    ensures Tidy(cfg, StateOf(cfg, run).records, TimeOf(run))
  {
    hide Apply, Tidy;
    if run.Did? {
      AlwaysTidy(cfg, run.before);
      TidyStep(cfg, StateOf(cfg, run.before), run.op, TimeOf(run.before));
    }
  }

  lemma {:induction false} OnlyDeliveryAdds(cfg: Config, st: State, op: Op, last: int, key: string)
    requires cfg.Valid() && Tidy(cfg, st.records, last) && InTime(op, last) && !Has(st.records, key)
    ensures Has(Apply(cfg, st, op).records, key) <==> Delivers(cfg, st, op, key)
  {
    hide Prune, Thinned, Has;
    HasIs(st.records, key);
    HasIs(Apply(cfg, st, op).records, key);
    match op
    case BeginOp(_, _, _, now, _) =>
      PruneIs(cfg, st.records, now);
      BeginAdds(cfg, st, op, key);
    case UpdateOp(updated, _, _, _, now, _) =>
      PruneIs(cfg, st.records, now);
      RemoveIs(Prune(cfg, st.records, now), updated);
    case GetOp(_, now) => PruneIs(cfg, st.records, now);
    case ForgetOp(forgotten) => RemoveIs(st.records, forgotten);
    case RemoveOwnerOp(senderRef) => RemoveSenderIs(st.records, senderRef);
    case SetGenerationOp(_) =>
  }

  lemma {:induction false} BeginAdds(cfg: Config, st: State, op: Op, key: string)
    requires cfg.Valid() && op.BeginOp? && forall x :: x in Prune(cfg, st.records, op.now) ==> x.key != key
    ensures (exists x :: x in Apply(cfg, st, op).records && x.key == key) <==> Delivers(cfg, st, op, key)
  {
    hide Prune, Thinned;
    var pruned := Prune(cfg, st.records, op.now);
    if ValidId(op.senderRef) && ValidId(op.clientRequestId) {
      var asked := RecordKey(st.generation, op.senderRef, op.clientRequestId);
      RemoveIs(pruned, asked);
      if Find(pruned, asked).None? {
        var entry := Begin(cfg, st, op.senderRef, op.clientRequestId, op.fingerprint, op.now, op.later).1.record;
        NewestIs(pruned + [entry], cfg.maxEntries);
        assert Newest(pruned + [entry], cfg.maxEntries)[|Newest(pruned + [entry], cfg.maxEntries)| - 1] == entry;
      }
    }
  }

  /**
   While nothing gives a reason to forget it, a request is delivered at most once, and exactly then it is remembered:
   every repetition is answered from the table.
   */
  lemma {:induction false} DeliveredAtMostOnce(cfg: Config, run: Run, key: string)
    requires cfg.Valid() && Clocked(cfg, run) && Undisturbed(cfg, run, key)
    ensures Deliveries(cfg, run, key) <= 1
    ensures run.From? || Has(StateOf(cfg, run).records, key) == (Has(StartOf(run).records, key) || Deliveries(cfg, run, key) == 1)
    ensures Has(StartOf(run).records, key) ==> Deliveries(cfg, run, key) == 0
  {
    hide Apply, Tidy, Reason, Has, InTime, Delivers;
    if run.Did? {
      var st, last := StateOf(cfg, run.before), TimeOf(run.before);
      DeliveredAtMostOnce(cfg, run.before, key);
      AlwaysTidy(cfg, run.before);
      if Has(st.records, key) {
        HasIs(st.records, key);
        var r :| r in st.records && r.key == key;
        ForgetsForReason(cfg, st, run.op, last, r);
      } else {
        OnlyDeliveryAdds(cfg, st, run.op, last, key);
      }
    }
  }

  ghost function StartOf(run: Run): State {
    match run
    case From(start, _) => start
    case Did(before, _) => StartOf(before)
  }
}
