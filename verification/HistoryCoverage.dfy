/**
 A browser that follows `next_before` from the first page to the last, while the session goes on: what it is shown is
 the snapshot it started from, and each cursor serves once.
 */
module HistoryCoverage {
  import opened Bytes
  import opened Timeline
  import opened Recovery
  import opened HistoryRecords
  import opened HistorySelection
  import opened HistoryAssembler
  import opened HistoryDelivery
  import opened HistoryWindow
  import opened HistoryPager

  // ----- Cursors serve once -----

  /** Requests of any number of browsers, in the order in which they are handled. */
  datatype Run = Idle | Asked(before: Run, world: World, request: Request, token: string)

  ghost function StateAfter(codec: Codec, chunkBytes: Sizer, run: Run): PagerState {
    match run
    case Idle => PagerState(map[], false)
    case Asked(before, world, request, token) =>
      Sync(codec, chunkBytes, StateAfter(codec, chunkBytes, before), world, request, token).0
  }

  ghost function LastReply(codec: Codec, chunkBytes: Sizer, run: Run): Reply
    requires run.Asked?
  {
    Sync(codec, chunkBytes, StateAfter(codec, chunkBytes, run.before), run.world, run.request, run.token).1
  }

  ghost predicate FreshTokens(codec: Codec, chunkBytes: Sizer, run: Run) {
    run.Asked? ==> run.token !in StateAfter(codec, chunkBytes, run.before).cursors && FreshTokens(codec, chunkBytes, run.before)
  }

  /** How often the cursor `t` has been answered with a page. */
  ghost function Served(codec: Codec, chunkBytes: Sizer, run: Run, t: string): nat {
    match run
    case Idle => 0
    case Asked(before, _, request, _) =>
      Served(codec, chunkBytes, before, t) + if request.before == Some(t) && LastReply(codec, chunkBytes, run).Frames? then 1 else 0
  }

  ghost predicate NothingBusy(st: PagerState) {
    !st.initialBusy && forall t :: t in st.cursors ==> !st.cursors[t].busy
  }

  lemma {:induction false} PageCursorIsFresh(codec: Codec, chunkBytes: Sizer, w: World, request: Request, c: Cursor, token: string)
    ensures var older := Page(codec, chunkBytes, w, request, c, token).1;
            older.Some? ==> !older.value.busy && !older.value.used
  {
    hide Select, RecordsFor, SnapshotInvalidReason, FragmentWindow;
  }

  lemma {:induction false} SyncStep(codec: Codec, chunkBytes: Sizer, st: PagerState, w: World, request: Request, token: string, t: string)
    requires NothingBusy(st) && token !in st.cursors
    ensures var (after, reply) := Sync(codec, chunkBytes, st, w, request, token);
            && NothingBusy(after)
            && (t in st.cursors ==> t in after.cursors && (st.cursors[t].used ==> after.cursors[t].used))
            && (request.before == Some(t) && reply.Frames? ==> t in st.cursors && !st.cursors[t].used && after.cursors[t].used)
  {
    hide Page;
    PageCursorIsFresh(codec, chunkBytes, w, request, FreshCursor(w), token);
    if request.before.Some? && request.before.value in st.cursors {
      PageCursorIsFresh(codec, chunkBytes, w, request, st.cursors[request.before.value].(busy := true, used := true), token);
    }
  }

  /** No cursor is ever answered with two pages, and between requests nothing is left busy. */
  lemma {:induction false} ServesAtMostOnce(codec: Codec, chunkBytes: Sizer, run: Run, t: string)
    requires FreshTokens(codec, chunkBytes, run)
    ensures NothingBusy(StateAfter(codec, chunkBytes, run))
    ensures Served(codec, chunkBytes, run, t) <= 1
    ensures Served(codec, chunkBytes, run, t) == 1 ==>
              var st := StateAfter(codec, chunkBytes, run);
              t in st.cursors && st.cursors[t].used
  {
    hide Sync;
    if run.Asked? {
      ServesAtMostOnce(codec, chunkBytes, run.before, t);
      SyncStep(codec, chunkBytes, StateAfter(codec, chunkBytes, run.before), run.world, run.request, run.token, t);
    }
  }

  // ----- The snapshot does not move -----

  ghost predicate TimesParse(branch: Branch) {
    forall p :: 0 <= p < |branch| ==> branch[p].at.Some?
  }

  lemma {:induction false} ClockIndependent(s: Session, later: Session, branch: Branch, p: nat)
    requires TimesParse(branch) && p < |branch| && later.scope == s.scope && later.valid == s.valid
    ensures RecordAt(later, branch, p) == RecordAt(s, branch, p)
  {
    hide Claimed, ClaimedBefore;
  }

  /** The end of the snapshot, or an entry that decides all markers before it. */
  ghost predicate IsBoundary(frozen: Branch, current: Branch, position: nat) {
    || (position == |frozen| && current == frozen)
    || (position < |frozen| && !frozen[position].content.CustomContent?)
  }

  lemma {:induction false} RecordUnmoved(s: Session, later: Session, frozen: Branch, current: Branch, p: nat, position: nat)
    requires frozen <= current && IsBoundary(frozen, current, position) && p < position
    requires TimesParse(frozen) && later.scope == s.scope && later.valid == s.valid
    ensures p < |frozen| && RecordAt(later, current, p) == RecordAt(s, frozen, p)
  {
    hide RecordAt;
    ClockIndependent(s, later, frozen, p);
    if position < |frozen| {
      RecordsStay(later, frozen, current, p, position);
    }
  }

  lemma {:induction false} RecordsUnmoved(codec: Codec, s: Session, later: Session, frozen: Branch, current: Branch, n: nat, position: nat)
    requires frozen <= current && IsBoundary(frozen, current, position) && n <= position <= |frozen|
    requires TimesParse(frozen) && later.scope == s.scope && later.valid == s.valid
    ensures Records(codec, later, current, n) == Records(codec, s, frozen, n)
  {
    hide RecordAt, IsBoundary, TimesParse;
    if n > 0 {
      RecordsUnmoved(codec, s, later, frozen, current, n - 1, position);
      RecordUnmoved(s, later, frozen, current, n - 1, position);
    }
  }

  /** The cursor belongs to the snapshot `frozen`. */
  ghost predicate OfSnapshot(c: Cursor, s: Session, frozen: Branch) {
    && c.scope == s.scope && c.entryIds == Ids(frozen) && c.position <= |frozen|
    && (|frozen| > 0 ==> c.snapshotHead == frozen[|frozen| - 1].id)
  }

  lemma {:induction false} SameEntry(branch: Branch, i: nat, j: nat)
    requires UniqueKeys(branch) && i < |branch| && j < |branch| && branch[i].id == branch[j].id
    ensures i == j
  {
    SamePosition(branch, i, j, branch[i].id);
  }

  lemma {:induction false} FindsSnapshot(frozen: Branch, current: Branch, head: string)
    requires frozen <= current && UniqueKeys(current) && |frozen| > 0 && head == frozen[|frozen| - 1].id
    ensures GetBranch(current, head) == frozen
  {
    assert head == Ids(current)[|frozen| - 1];
    var i := IndexOfEntry(current, head);
    SameEntry(current, i.value, |frozen| - 1);
  }

  /** Whatever has been appended meanwhile, the records a cursor pages through are those of its snapshot. */
  lemma {:induction false} SnapshotRecords(codec: Codec, chunkBytes: Sizer, s: Session, frozen: Branch, c: Cursor,
                                           w: World, request: Request, token: string)
    requires OfSnapshot(c, s, frozen) && TimesParse(frozen) && w.session.valid == s.valid
    requires frozen <= w.branch && UniqueKeys(w.branch) && IsBoundary(frozen, w.branch, c.position)
    requires Page(codec, chunkBytes, w, request, c, token).0.Frames?
    ensures w.session.scope == s.scope
    ensures RecordsFor(codec, w, c) == Some(Records(codec, s, frozen, c.position))
    ensures |frozen| > 0 ==> Recover(w.session, w.branch).Some?
  {
    hide Select, FragmentWindow, Recover, UniqueKeys, ServeWindow;
    assert SnapshotInvalidReason(w, c).None? && RecordsFor(codec, w, c).Some?;
    assert w.session.scope == s.scope;
    if |frozen| > 0 {
      FindsSnapshot(frozen, w.branch, c.snapshotHead);
      assert c.entryIds != [];
      RecordsAreRead(codec, w.session, frozen, w.branch, c.position);
      RecordsUnmoved(codec, s, w.session, frozen, w.branch, c.position, c.position);
    } else {
      EmptySnapshot(w, c);
    }
  }

  lemma {:induction false} EmptySnapshot(w: World, c: Cursor)
    requires c.entryIds == [] && SnapshotInvalidReason(w, c).None?
    ensures IsEmptySnapshot(c)
  {
    assert IndexOfEntry(w.branch, c.snapshotHead).Some? <==> |GetBranch(w.branch, c.snapshotHead)| > 0;
  }

  // ----- Following the cursors -----

  /** One request of the browser: what the world was, what was asked, the token drawn, the delivery order of the reply. */
  datatype Visit = Visit(world: World, request: Request, token: string, order: Order)

  /** Pages from the newest on; the last reply carries no `next_before`. */
  datatype Visits = LastVisit(visit: Visit) | MoreVisits(visit: Visit, older: Visits)

  /** Every request is answered with frames, from the cursor the one before it issued; the branch only grew meanwhile. */
  ghost predicate Answered(codec: Codec, chunkBytes: Sizer, s: Session, frozen: Branch, c: Cursor, visits: Visits)
    decreases visits
  {
    var v := visits.visit;
    var (reply, older) := Page(codec, chunkBytes, v.world, v.request, c, v.token);
    && reply.Frames? && v.world.session.valid == s.valid && frozen <= v.world.branch && UniqueKeys(v.world.branch)
    && match visits
       case LastVisit(_) => older.None?
       case MoreVisits(_, rest) => older.Some? && Answered(codec, chunkBytes, s, frozen, older.value, rest)
  }

  /** The pages that these requests ask for, read from the snapshot alone. */
  ghost function WalkOf(codec: Codec, s: Session, frozen: Branch, position: nat, visits: Visits): Walk
    requires position <= |frozen|
    decreases visits
  {
    var limit := visits.visit.request.limit;
    var records := Records(codec, s, frozen, position);
    var selection := Select(records, position, limit);
    var window := if selection.Selected? then selection.records else [];
    match visits
    case LastVisit(_) => Oldest(limit, window)
    case MoreVisits(_, rest) =>
      Newer(limit, window, WalkOf(codec, s, frozen, if selection.Selected? && selection.next <= position then selection.next else 0, rest))
  }

  lemma {:induction false} RecordsBefore(codec: Codec, s: Session, frozen: Branch, next: nat, position: nat)
    requires next <= position <= |frozen|
    ensures Between(Records(codec, s, frozen, position), 0, next) == Records(codec, s, frozen, next)
  {
    RecordsAre(codec, s, frozen, position);
    RecordsAre(codec, s, frozen, next);
    BetweenIs(Records(codec, s, frozen, position), 0, next);
    SameIncreasing(Between(Records(codec, s, frozen, position), 0, next), Records(codec, s, frozen, next));
  }

  lemma {:induction false} RecordsBelow(codec: Codec, s: Session, frozen: Branch, position: nat)
    requires position <= |frozen|
    ensures Increasing(Records(codec, s, frozen, position)) && Below(Records(codec, s, frozen, position), position)
  {
    RecordsAre(codec, s, frozen, position);
  }

  lemma {:induction false} GroupedEntry(s: Session, frozen: Branch, p: nat)
    requires p < |frozen| && RecordAt(s, frozen, p).Some? && !RecordAt(s, frozen, p).value.IsSystem()
    ensures !frozen[p].content.CustomContent?
  {
    hide Claimed, ClaimedBefore;
  }

  /** A page that leaves something older ends at a marker or a message entry. */
  lemma {:induction false} NextIsBoundary(codec: Codec, s: Session, frozen: Branch, current: Branch, position: nat, limit: Limit)
    requires position <= |frozen|
    requires Select(Records(codec, s, frozen, position), position, limit).Selected?
    requires HasOlder(Records(codec, s, frozen, position), Select(Records(codec, s, frozen, position), position, limit).next)
    ensures var next := Select(Records(codec, s, frozen, position), position, limit).next;
            next < position && IsBoundary(frozen, current, next)
  {
    hide Select, RecordAt, Records, Increasing;
    var records := Records(codec, s, frozen, position);
    RecordsBelow(codec, s, frozen, position);
    RecordsAre(codec, s, frozen, position);
    var i :| 0 <= i < |records| && records[i].position < Select(records, position, limit).next;
    assert records[i] in records;
    var head := NextIsGrouped(records, position, limit);
    GroupedEntry(s, frozen, head.position);
  }

  lemma {:induction false} PageIsSelection(codec: Codec, chunkBytes: Sizer, w: World, request: Request, c: Cursor, token: string,
                                           records: seq<EventRecord>)
    requires Page(codec, chunkBytes, w, request, c, token).0.Frames? && RecordsFor(codec, w, c) == Some(records)
    ensures var selection := Select(records, c.position, request.limit);
            && selection.Selected?
            && Page(codec, chunkBytes, w, request, c, token)
               == ServeWindow(codec, chunkBytes, request, c, token, records, selection.records, selection.next)
            && Page(codec, chunkBytes, w, request, c, token).1
               == if HasOlder(records, selection.next) then Some(OlderCursor(c, selection.next)) else None
  {
    hide RecordsFor, Select, SnapshotInvalidReason, FragmentWindow;
  }

  lemma {:induction false} AnsweredOlder(codec: Codec, chunkBytes: Sizer, s: Session, frozen: Branch, c: Cursor, visits: Visits, older: Option<Cursor>)
    requires Answered(codec, chunkBytes, s, frozen, c, visits)
    requires older == Page(codec, chunkBytes, visits.visit.world, visits.visit.request, c, visits.visit.token).1
    ensures visits.MoreVisits? <==> older.Some?
    ensures visits.MoreVisits? ==> Answered(codec, chunkBytes, s, frozen, older.value, visits.older)
  {
    hide Page, UniqueKeys;
  }

  /** One request on the way: what is selected, and where the next request goes on. */
  lemma {:induction false} VisitStep(codec: Codec, chunkBytes: Sizer, s: Session, frozen: Branch, c: Cursor, visits: Visits)
    requires OfSnapshot(c, s, frozen) && TimesParse(frozen) && Answered(codec, chunkBytes, s, frozen, c, visits)
    requires IsBoundary(frozen, visits.visit.world.branch, c.position)
    ensures var records := Records(codec, s, frozen, c.position);
            var selection := Select(records, c.position, visits.visit.request.limit);
            && selection.Selected? && selection.next <= c.position
            && Page(codec, chunkBytes, visits.visit.world, visits.visit.request, c, visits.visit.token).1
               == (if visits.MoreVisits? then Some(OlderCursor(c, selection.next)) else None)
            && (visits.MoreVisits? <==> HasOlder(records, selection.next))
            && (visits.MoreVisits? ==>
                  && OfSnapshot(OlderCursor(c, selection.next), s, frozen)
                  && IsBoundary(frozen, visits.older.visit.world.branch, selection.next)
                  && Answered(codec, chunkBytes, s, frozen, OlderCursor(c, selection.next), visits.older))
  {
    hide Page, RecordsFor, Select, Records, IsBoundary, UniqueKeys, TimesParse, ServeWindow, Between, HasOlder,
         Recover;
    var v := visits.visit;
    var records := Records(codec, s, frozen, c.position);
    var selection := Select(records, c.position, v.request.limit);
    SnapshotRecords(codec, chunkBytes, s, frozen, c, v.world, v.request, v.token);
    PageIsSelection(codec, chunkBytes, v.world, v.request, c, v.token, records);
    AnsweredOlder(codec, chunkBytes, s, frozen, c, visits, if HasOlder(records, selection.next) then Some(OlderCursor(c, selection.next)) else None);
    RecordsBelow(codec, s, frozen, c.position);
    PageFullIff(records, c.position, v.request.limit);
    if visits.MoreVisits? {
      NextIsBoundary(codec, s, frozen, visits.older.visit.world.branch, c.position, v.request.limit);
    }
  }

  lemma {:induction false} WalkUnfolded(codec: Codec, s: Session, frozen: Branch, position: nat, visits: Visits)
    requires position <= |frozen|
    requires Select(Records(codec, s, frozen, position), position, visits.visit.request.limit).Selected?
    requires Select(Records(codec, s, frozen, position), position, visits.visit.request.limit).next <= position
    ensures var selection := Select(Records(codec, s, frozen, position), position, visits.visit.request.limit);
            WalkOf(codec, s, frozen, position, visits)
            == if visits.MoreVisits? then Newer(visits.visit.request.limit, selection.records, WalkOf(codec, s, frozen, selection.next, visits.older))
               else Oldest(visits.visit.request.limit, selection.records)
  {
    hide Select, Records;
  }

  /** The pages served along the way are those of a walk through the snapshot's records. */
  lemma {:induction false} VisitsWalk(codec: Codec, chunkBytes: Sizer, s: Session, frozen: Branch, c: Cursor, visits: Visits)
    requires OfSnapshot(c, s, frozen) && TimesParse(frozen) && Answered(codec, chunkBytes, s, frozen, c, visits)
    requires IsBoundary(frozen, visits.visit.world.branch, c.position)
    ensures Follows(Records(codec, s, frozen, c.position), c.position, WalkOf(codec, s, frozen, c.position, visits))
    decreases visits
  {
    hide Page, Select, Records, IsBoundary, TimesParse, Between, HasOlder, Answered, Follows;
    var limit := visits.visit.request.limit;
    var records := Records(codec, s, frozen, c.position);
    var selection := Select(records, c.position, limit);
    VisitStep(codec, chunkBytes, s, frozen, c, visits);
    WalkUnfolded(codec, s, frozen, c.position, visits);
    if visits.MoreVisits? {
      RecordsBefore(codec, s, frozen, selection.next, c.position);
      VisitsWalk(codec, chunkBytes, s, frozen, OlderCursor(c, selection.next), visits.older);
      NewerFollows(records, c.position, limit, selection.records, selection.next, WalkOf(codec, s, frozen, selection.next, visits.older));
    } else {
      OldestFollows(records, c.position, limit, selection.records, selection.next);
    }
  }

  // ----- What the browser is shown -----

  /** The event schema bounds ids; nothing else about it matters here. */
  ghost predicate BoundsIds(s: Session) {
    forall e :: s.valid(e) ==> 1 <= |e.id| <= MAX_ID_CHARS
  }

  lemma {:induction false} RecoveredIsValid(s: Session, branch: Branch, e: TimelineEvent)
    requires UniqueKeys(branch) && Recover(s, branch).Some? && Recorded(s, branch, e)
    ensures s.valid(e)
  {
    hide Collect, AnnouncedAt, LegacyAt, RecordAt, UniqueKeys, FreshIds;
    PassOf(s, branch, e);
    PassesFresh(s, branch);
    CollectIs(SystemAt(s, branch), |branch|);
  }

  lemma {:induction false} RecordScope(s: Session, branch: Branch, p: nat)
    requires p < |branch| && RecordAt(s, branch, p).Some?
    ensures InScope(RecordAt(s, branch, p).value, s.scope)
  {
    hide Claimed, ClaimedBefore;
  }

  lemma {:induction false} DifferentEvents(codec: Codec, s: Session, frozen: Branch, r: EventRecord, x: EventRecord, n: nat)
    requires UniqueKeys(frozen) && n <= |frozen|
    requires r in Records(codec, s, frozen, n) && x in Records(codec, s, frozen, n) && r.position != x.position
    ensures r.event.id != x.event.id
  {
    hide RecordAt, Records, Keys;
    RecordsAre(codec, s, frozen, n);
    PickedKeys(s, frozen, r.position);
    PickedKeys(s, frozen, x.position);
    if r.event.id == x.event.id {
      SamePosition(frozen, r.position, x.position, r.event.id);
    }
  }

  lemma {:induction false} WindowDistinct(codec: Codec, s: Session, frozen: Branch, window: seq<EventRecord>, n: nat)
    requires UniqueKeys(frozen) && n <= |frozen| && Increasing(window)
    requires forall r :: r in window ==> r in Records(codec, s, frozen, n)
    ensures DistinctIds(Events(window))
  {
    hide Records, UniqueKeys;
    forall i, j | 0 <= i < j < |window|
      ensures Events(window)[i].id != Events(window)[j].id
    {
      DifferentEvents(codec, s, frozen, window[i], window[j], n);
    }
  }

  lemma {:induction false} WindowBytes(codec: Codec, window: seq<EventRecord>)
    requires forall r :: r in window ==> r.bytes == codec.Size(r.event)
    ensures EventBytes(codec, Events(window)) == BytesOf(window)
  {
    if |window| > 0 {
      WindowBytes(codec, window[..|window| - 1]);
      assert Events(window)[..|window| - 1] == Events(window[..|window| - 1]);
    }
  }

  lemma {:induction false} InEvents(records: seq<EventRecord>, e: TimelineEvent)
    ensures e in Events(records) <==> exists r :: r in records && r.event == e
  {
    if e in Events(records) {
      var i :| 0 <= i < |records| && Events(records)[i] == e;
      assert records[i] in records;
    }
    if r :| r in records && r.event == e {
      var i :| 0 <= i < |records| && records[i] == r;
      assert Events(records)[i] == e;
    }
  }

  lemma {:induction false} RecordSendable(codec: Codec, s: Session, frozen: Branch, w: World, r: EventRecord, position: nat)
    requires BoundsIds(s) && frozen <= w.branch && UniqueKeys(w.branch) && IsBoundary(frozen, w.branch, position)
    requires position <= |frozen| && TimesParse(frozen) && w.session.scope == s.scope && w.session.valid == s.valid
    requires Recover(w.session, w.branch).Some? && r in Records(codec, s, frozen, position)
    ensures InScope(r.event, s.scope) && 1 <= |r.event.id| <= MAX_ID_CHARS
  {
    hide Recover, RecordAt, Records, UniqueKeys, TimesParse;
    RecordsAre(codec, s, frozen, position);
    RecordUnmoved(s, w.session, frozen, w.branch, r.position, position);
    assert Recorded(w.session, w.branch, r.event);
    RecoveredIsValid(w.session, w.branch, r.event);
    RecordScope(s, frozen, r.position);
  }

  /** Every page is something the packer accepts: its events differ, are in scope and stay within the byte limit. */
  lemma {:induction false} PageTransferable(codec: Codec, s: Session, frozen: Branch, w: World, env: Envelope, position: nat, limit: Limit)
    requires BoundsIds(s) && frozen <= w.branch && UniqueKeys(w.branch) && IsBoundary(frozen, w.branch, position)
    requires position <= |frozen| && TimesParse(frozen) && w.session.scope == s.scope && w.session.valid == s.valid
    requires |frozen| > 0 ==> Recover(w.session, w.branch).Some?
    requires Select(Records(codec, s, frozen, position), position, limit).Selected?
    requires env.codec == codec && env.header.scope == s.scope
    ensures Transferable(env, Events(Select(Records(codec, s, frozen, position), position, limit).records))
  {
    hide Select, RecordAt, Recover, TimesParse, IsBoundary, Records, BoundsIds;
    var records := Records(codec, s, frozen, position);
    var window := Select(records, position, limit).records;
    assert UniqueKeys(frozen);
    RecordsAre(codec, s, frozen, position);
    RecordsBelow(codec, s, frozen, position);
    PageWithin(records, position, limit);
    WindowDistinct(codec, s, frozen, window, position);
    WindowBytes(codec, window);
    forall e | e in Events(window)
      ensures InScope(e, s.scope) && 1 <= |e.id| <= MAX_ID_CHARS
    {
      InEvents(window, e);
      var r :| r in window && r.event == e;
      RecordSendable(codec, s, frozen, w, r, position);
    }
  }

  /** The browser's view of one reply, its chunks delivered in the visit's order. */
  ghost function Assembled(codec: Codec, chunkBytes: Sizer, c: Cursor, v: Visit, frames: seq<Chunk>): WindowResult
    requires Once(v.order, |frames|)
  {
    var header := Header(v.request.requestId, c.scope, c.snapshotHead);
    Receive(codec, chunkBytes, Some(c.scope), Response([], map[], frames, header, None), v.order).1
  }

  lemma {:induction false} ReceivesFrames(codec: Codec, chunkBytes: Sizer, expected: Option<Scope>, r: Response, q: Response, order: Order)
    requires Once(order, |r.frames|) && q.frames == r.frames && q.header == r.header
    ensures Receive(codec, chunkBytes, expected, q, order) == Receive(codec, chunkBytes, expected, r, order)
  {
    hide AcceptChunk;
    if order.Next? {
      ReceivesFrames(codec, chunkBytes, expected, r, q, order.before);
    }
  }

  lemma {:induction false} PageAssembled(codec: Codec, chunkBytes: Sizer, c: Cursor, v: Visit, env: Envelope, window: seq<TimelineEvent>)
    requires codec.Lossless() && Transferable(env, window) && FragmentWindow(env, window).Some?
    requires env == EnvelopeOf(codec, chunkBytes, c, v.request, env.nextBefore)
    requires Once(v.order, |FragmentWindow(env, window).value|) && |Delivered(v.order)| == |FragmentWindow(env, window).value|
    requires v.order.Next?
    ensures var result := Assembled(codec, chunkBytes, c, v, FragmentWindow(env, window).value);
            && result.WindowComplete? && result.nextBefore == env.nextBefore
            && DistinctIds(result.events) && forall e :: e in result.events <==> e in window
  {
    hide FragmentWindow, Transferable, Receive, DistinctIds, Fitting, Once, SentOf;
    var frames := FragmentWindow(env, window).value;
    WindowRoundTrip(env, window, Some(c.scope), v.order);
    ReceivesFrames(codec, chunkBytes, Some(c.scope), ResponseOf(env, window, frames), Response([], map[], frames, env.header, None), v.order);
  }

  /** Each reply consists of frames, and all of them are delivered, in some order. */
  ghost predicate InFull(codec: Codec, chunkBytes: Sizer, c: Cursor, visits: Visits)
    decreases visits
  {
    var v := visits.visit;
    var (reply, older) := Page(codec, chunkBytes, v.world, v.request, c, v.token);
    && reply.Frames? && v.order.Next? && Once(v.order, |reply.frames|) && |Delivered(v.order)| == |reply.frames|
    && (visits.MoreVisits? ==> older.Some? && InFull(codec, chunkBytes, older.value, visits.older))
  }

  /** The events the browser holds after all pages, oldest page first. */
  ghost function Screen(codec: Codec, chunkBytes: Sizer, c: Cursor, visits: Visits): seq<TimelineEvent>
    requires InFull(codec, chunkBytes, c, visits)
    decreases visits
  {
    var v := visits.visit;
    var (reply, older) := Page(codec, chunkBytes, v.world, v.request, c, v.token);
    var result := Assembled(codec, chunkBytes, c, v, reply.frames);
    (if visits.MoreVisits? then Screen(codec, chunkBytes, older.value, visits.older) else [])
    + (if result.WindowComplete? then result.events else [])
  }

  /** One reply, fully delivered, is the events of the page that was selected. */
  lemma {:induction false} PageShown(codec: Codec, chunkBytes: Sizer, s: Session, frozen: Branch, c: Cursor, v: Visit)
    requires codec.Lossless() && BoundsIds(s) && OfSnapshot(c, s, frozen) && TimesParse(frozen)
    requires v.world.session.valid == s.valid && frozen <= v.world.branch && UniqueKeys(v.world.branch)
    requires IsBoundary(frozen, v.world.branch, c.position)
    requires Page(codec, chunkBytes, v.world, v.request, c, v.token).0.Frames?
    requires var frames := Page(codec, chunkBytes, v.world, v.request, c, v.token).0.frames;
             v.order.Next? && Once(v.order, |frames|) && |Delivered(v.order)| == |frames|
    ensures var selection := Select(Records(codec, s, frozen, c.position), c.position, v.request.limit);
            var result := Assembled(codec, chunkBytes, c, v, Page(codec, chunkBytes, v.world, v.request, c, v.token).0.frames);
            && selection.Selected? && result.WindowComplete? && DistinctIds(result.events)
            && forall e :: e in result.events <==> e in Events(selection.records)
  {
    hide Page, Records, Select, RecordsFor, UniqueKeys, TimesParse, IsBoundary, Assembled, FragmentWindow, BoundsIds,
         Once, Delivered, Transferable, Recover, DistinctIds;
    var records := Records(codec, s, frozen, c.position);
    SnapshotRecords(codec, chunkBytes, s, frozen, c, v.world, v.request, v.token);
    PageIsSelection(codec, chunkBytes, v.world, v.request, c, v.token, records);
    var selection := Select(records, c.position, v.request.limit);
    var env := EnvelopeOf(codec, chunkBytes, c, v.request, if HasOlder(records, selection.next) then Some(v.token) else None);
    PageTransferable(codec, s, frozen, v.world, env, c.position, v.request.limit);
    PageAssembled(codec, chunkBytes, c, v, env, Events(selection.records));
  }

  lemma {:induction false} UniquePrefix(frozen: Branch, current: Branch)
    requires frozen <= current && UniqueKeys(current)
    ensures UniqueKeys(frozen)
  {
  }

  lemma {:induction false} InJoined(a: seq<EventRecord>, b: seq<EventRecord>, e: TimelineEvent)
    ensures e in Events(a + b) <==> e in Events(a) || e in Events(b)
  {
    InEvents(a + b, e);
    InEvents(a, e);
    InEvents(b, e);
  }

  lemma {:induction false} DifferentPages(codec: Codec, s: Session, frozen: Branch, n: nat, a: seq<EventRecord>, b: seq<EventRecord>,
                                          boundary: nat, e: TimelineEvent, x: TimelineEvent)
    requires UniqueKeys(frozen) && n <= |frozen| && e in Events(a) && x in Events(b)
    requires forall r :: r in a ==> r in Records(codec, s, frozen, n) && r.position < boundary
    requires forall r :: r in b ==> r in Records(codec, s, frozen, n) && boundary <= r.position
    ensures e.id != x.id
  {
    hide Records, UniqueKeys;
    InEvents(a, e);
    InEvents(b, x);
    var r :| r in a && r.event == e;
    var q :| q in b && q.event == x;
    DifferentEvents(codec, s, frozen, r, q, n);
  }

  /** What two pages show together. */
  lemma {:induction false} JoinPages(codec: Codec, s: Session, frozen: Branch, n: nat, a: seq<EventRecord>, b: seq<EventRecord>,
                                     boundary: nat, older: seq<TimelineEvent>, page: seq<TimelineEvent>)
    requires UniqueKeys(frozen) && n <= |frozen|
    requires forall r :: r in a ==> r in Records(codec, s, frozen, n) && r.position < boundary
    requires forall r :: r in b ==> r in Records(codec, s, frozen, n) && boundary <= r.position
    requires DistinctIds(older) && forall e :: e in older <==> e in Events(a)
    requires DistinctIds(page) && forall e :: e in page <==> e in Events(b)
    ensures DistinctIds(older + page) && forall e :: e in older + page <==> e in Events(a + b)
  {
    hide Records, UniqueKeys, DistinctIds;
    forall e
      ensures e in older + page <==> e in Events(a + b)
    {
      InJoined(a, b, e);
    }
    forall e, x | e in older && x in page
      ensures e.id != x.id
    {
      DifferentPages(codec, s, frozen, n, a, b, boundary, e, x);
    }
    DistinctJoin(older, page);
  }

  /** The screen of these requests is the screen of the older ones and one page. */
  lemma {:induction false} ScreenUnfolded(codec: Codec, chunkBytes: Sizer, c: Cursor, visits: Visits, older: Option<Cursor>)
    requires InFull(codec, chunkBytes, c, visits)
    requires older == Page(codec, chunkBytes, visits.visit.world, visits.visit.request, c, visits.visit.token).1
    ensures visits.MoreVisits? ==> older.Some? && InFull(codec, chunkBytes, older.value, visits.older)
    ensures var v := visits.visit;
            var frames := Page(codec, chunkBytes, v.world, v.request, c, v.token).0.frames;
            var result := Assembled(codec, chunkBytes, c, v, frames);
            result.WindowComplete? ==>
              Screen(codec, chunkBytes, c, visits)
              == (if visits.MoreVisits? then Screen(codec, chunkBytes, older.value, visits.older) else []) + result.events
  {
    hide Page, Assembled, Once, Delivered;
  }

  /** From any cursor on, all pages together show exactly the events of the walk that was made, each once. */
  lemma {:induction false} ScreenIsWalk(codec: Codec, chunkBytes: Sizer, s: Session, frozen: Branch, c: Cursor, visits: Visits)
    requires codec.Lossless() && BoundsIds(s) && OfSnapshot(c, s, frozen) && TimesParse(frozen)
    requires Answered(codec, chunkBytes, s, frozen, c, visits) && IsBoundary(frozen, visits.visit.world.branch, c.position)
    requires InFull(codec, chunkBytes, c, visits)
    ensures DistinctIds(Screen(codec, chunkBytes, c, visits))
    ensures forall e :: e in Screen(codec, chunkBytes, c, visits) <==> e in Events(Everything(WalkOf(codec, s, frozen, c.position, visits)))
    decreases visits
  {
    hide Page, Records, Select, UniqueKeys, TimesParse, IsBoundary, Assembled, BoundsIds, DistinctIds, Follows,
         HasOlder, Once, Delivered, WalkOf;
    var v := visits.visit;
    var selection := Select(Records(codec, s, frozen, c.position), c.position, v.request.limit);
    UniquePrefix(frozen, v.world.branch);
    PageShown(codec, chunkBytes, s, frozen, c, v);
    VisitStep(codec, chunkBytes, s, frozen, c, visits);
    var page := Assembled(codec, chunkBytes, c, v, Page(codec, chunkBytes, v.world, v.request, c, v.token).0.frames).events;
    assert c.position <= |frozen|;
    WalkUnfolded(codec, s, frozen, c.position, visits);
    if visits.MoreVisits? {
      var o := OlderCursor(c, selection.next);
      assert Everything(WalkOf(codec, s, frozen, c.position, visits))
          == Everything(WalkOf(codec, s, frozen, selection.next, visits.older)) + selection.records;
      ScreenUnfolded(codec, chunkBytes, c, visits, Some(o));
      ScreenIsWalk(codec, chunkBytes, s, frozen, o, visits.older);
      PartsWithin(codec, chunkBytes, s, frozen, c, visits);
      JoinPages(codec, s, frozen, c.position, Everything(WalkOf(codec, s, frozen, selection.next, visits.older)), selection.records,
                selection.next, Screen(codec, chunkBytes, o, visits.older), page);
    } else {
      ScreenUnfolded(codec, chunkBytes, c, visits, None);
      assert [] + page == page;
    }
  }

  /** The older pages lie before the end of a page, and the page lies behind it. */
  lemma {:induction false} PartsWithin(codec: Codec, chunkBytes: Sizer, s: Session, frozen: Branch, c: Cursor, visits: Visits)
    requires OfSnapshot(c, s, frozen) && TimesParse(frozen) && Answered(codec, chunkBytes, s, frozen, c, visits)
    requires IsBoundary(frozen, visits.visit.world.branch, c.position) && visits.MoreVisits?
    ensures var records := Records(codec, s, frozen, c.position);
            var selection := Select(records, c.position, visits.visit.request.limit);
            && selection.Selected? && selection.next <= c.position
            && (forall r :: r in Everything(WalkOf(codec, s, frozen, selection.next, visits.older)) ==> r in records && r.position < selection.next)
            && (forall r :: r in selection.records ==> r in records && selection.next <= r.position)
  {
    hide Page, Select, IsBoundary, TimesParse, Answered, HasOlder, Follows, Records, Everything, WalkOf, Between,
         Increasing;
    var records := Records(codec, s, frozen, c.position);
    var selection := Select(records, c.position, visits.visit.request.limit);
    VisitStep(codec, chunkBytes, s, frozen, c, visits);
    RecordsBelow(codec, s, frozen, c.position);
    PageWithin(records, c.position, visits.visit.request.limit);
    VisitsWalk(codec, chunkBytes, s, frozen, OlderCursor(c, selection.next), visits.older);
    var walk := WalkOf(codec, s, frozen, selection.next, visits.older);
    RecordsBelow(codec, s, frozen, selection.next);
    RecordsBefore(codec, s, frozen, selection.next, c.position);
    BetweenIs(records, 0, selection.next);
    forall r | r in Everything(walk)
      ensures r in records && r.position < selection.next
    {
      WalkWithin(Records(codec, s, frozen, selection.next), selection.next, walk, r);
    }
  }

  /** If no group interleaves with another, they are the events of the snapshot before the cursor. */
  lemma {:induction false} CursorShowsRest(codec: Codec, chunkBytes: Sizer, s: Session, frozen: Branch, c: Cursor, visits: Visits)
    requires codec.Lossless() && BoundsIds(s) && OfSnapshot(c, s, frozen) && TimesParse(frozen)
    requires Answered(codec, chunkBytes, s, frozen, c, visits) && IsBoundary(frozen, visits.visit.world.branch, c.position)
    requires Separated(Records(codec, s, frozen, c.position)) && InFull(codec, chunkBytes, c, visits)
    ensures DistinctIds(Screen(codec, chunkBytes, c, visits))
    ensures forall e :: e in Screen(codec, chunkBytes, c, visits) <==> e in Events(Records(codec, s, frozen, c.position))
  {
    hide Page, Records, Select, TimesParse, IsBoundary, BoundsIds, DistinctIds, Answered, InFull, Screen, Follows, Separated;
    ScreenIsWalk(codec, chunkBytes, s, frozen, c, visits);
    VisitsWalk(codec, chunkBytes, s, frozen, c, visits);
    RecordsBelow(codec, s, frozen, c.position);
    WalkCovers(Records(codec, s, frozen, c.position), c.position, WalkOf(codec, s, frozen, c.position, visits));
  }

  /** Records in order that show all events are all records. */
  lemma {:induction false} AllEventsAllRecords(codec: Codec, s: Session, frozen: Branch, n: nat, part: seq<EventRecord>)
    requires UniqueKeys(frozen) && n <= |frozen| && Increasing(part) && forall r :: r in part ==> r in Records(codec, s, frozen, n)
    requires forall e :: e in Events(Records(codec, s, frozen, n)) ==> e in Events(part)
    ensures part == Records(codec, s, frozen, n)
  {
    hide Records, UniqueKeys, Increasing;
    var records := Records(codec, s, frozen, n);
    RecordsBelow(codec, s, frozen, n);
    forall r | r in records
      ensures r in part
    {
      InEvents(records, r.event);
      InEvents(part, r.event);
      var x :| x in part && x.event == r.event;
      if x.position == r.position {
        SamePlace(records, r, x);
      } else {
        DifferentEvents(codec, s, frozen, r, x, n);
      }
    }
    SameIncreasing(part, records);
  }

  lemma {:induction false} FreshSnapshot(w: World)
    requires HasSnapshotHead(w)
    ensures OfSnapshot(FreshCursor(w), w.session, w.branch) && FreshCursor(w).position == |w.branch|
    ensures IsBoundary(w.branch, w.branch, |w.branch|)
  {
  }

  lemma {:induction false} AllRecorded(codec: Codec, s: Session, branch: Branch, e: TimelineEvent)
    ensures e in Events(Records(codec, s, branch, |branch|)) <==> Recorded(s, branch, e)
  {
    hide RecordAt, Records;
    var records := Records(codec, s, branch, |branch|);
    RecordsAre(codec, s, branch, |branch|);
    InEvents(records, e);
    if p: nat :| p < |branch| && RecordAt(s, branch, p) == Some(e) {
      assert EventRecord(e, p, codec.Size(e)) in records;
    }
  }

  ghost function Snapshot(codec: Codec, w: World): seq<EventRecord> {
    Records(codec, w.session, w.branch, |w.branch|)
  }

  ghost function WalkMade(codec: Codec, visits: Visits): Walk {
    var w := visits.visit.world;
    WalkOf(codec, w.session, w.branch, |w.branch|, visits)
  }

  /** A browser that has asked for the first page and followed the cursors to the end, while the session went on, and has
      got all chunks of all replies in some order. */
  ghost predicate Followed(codec: Codec, chunkBytes: Sizer, visits: Visits) {
    var w := visits.visit.world;
    && codec.Lossless() && BoundsIds(w.session) && TimesParse(w.branch) && HasSnapshotHead(w)
    && Answered(codec, chunkBytes, w.session, w.branch, FreshCursor(w), visits)
    && InFull(codec, chunkBytes, FreshCursor(w), visits)
  }

  lemma {:induction false} FollowedWalk(codec: Codec, chunkBytes: Sizer, visits: Visits)
    requires Followed(codec, chunkBytes, visits)
    ensures var w := visits.visit.world;
            var shown := Screen(codec, chunkBytes, FreshCursor(w), visits);
            && UniqueKeys(w.branch) && Follows(Snapshot(codec, w), |w.branch|, WalkMade(codec, visits))
            && DistinctIds(shown) && forall e :: e in shown <==> e in Events(Everything(WalkMade(codec, visits)))
  {
    hide Screen, InFull, Records, DistinctIds, TimesParse, BoundsIds, OfSnapshot, IsBoundary, FreshCursor, UniqueKeys,
         Follows, WalkOf;
    var w := visits.visit.world;
    FreshSnapshot(w);
    assert UniqueKeys(w.branch);
    ScreenIsWalk(codec, chunkBytes, w.session, w.branch, FreshCursor(w), visits);
    VisitsWalk(codec, chunkBytes, w.session, w.branch, FreshCursor(w), visits);
  }

  /**
   From the first page to the end of the stream, whatever limits the requests carry, however the chunks of each reply
   are reordered and whatever is appended to the session meanwhile: the browser ends up with events that the branch
   stood for at the first request, each once; and it has all of them if and only if no cursor position splits a group.
   */
  lemma {:induction false} HistoryIsCompleteIff(codec: Codec, chunkBytes: Sizer, visits: Visits)
    requires Followed(codec, chunkBytes, visits)
    ensures var w := visits.visit.world;
            var shown := Screen(codec, chunkBytes, FreshCursor(w), visits);
            && DistinctIds(shown) && (forall e :: e in shown ==> Recorded(w.session, w.branch, e))
            && Follows(Snapshot(codec, w), |w.branch|, WalkMade(codec, visits))
            && ((forall e :: Recorded(w.session, w.branch, e) ==> e in shown)
                <==> Unsplit(Snapshot(codec, w), Cursors(Snapshot(codec, w), |w.branch|, WalkMade(codec, visits))))
  {
    hide Screen, Followed, DistinctIds, UniqueKeys, Follows, WalkOf, Recorded, Unsplit, Cursors, FreshCursor,
         Everything, WalkMade;
    var w, walk := visits.visit.world, WalkMade(codec, visits);
    var records := Snapshot(codec, w);
    FollowedWalk(codec, chunkBytes, visits);
    RecordsBelow(codec, w.session, w.branch, |w.branch|);
    WalkCoversIff(records, |w.branch|, walk);
    WalkIncreases(records, |w.branch|, walk);
    forall e
      ensures e in Events(records) <==> Recorded(w.session, w.branch, e)
    {
      AllRecorded(codec, w.session, w.branch, e);
    }
    WalkShows(codec, w, Everything(walk), walk);
  }

  lemma {:induction false} WalkShows(codec: Codec, w: World, part: seq<EventRecord>, walk: Walk)
    requires UniqueKeys(w.branch) && Follows(Snapshot(codec, w), |w.branch|, walk) && part == Everything(walk) && Increasing(part)
    ensures forall e :: e in Events(part) ==> e in Events(Snapshot(codec, w))
    ensures (forall e :: e in Events(Snapshot(codec, w)) ==> e in Events(part)) <==> part == Snapshot(codec, w)
  {
    hide UniqueKeys, Follows, Records, Everything, Increasing, Below;
    var records := Snapshot(codec, w);
    RecordsBelow(codec, w.session, w.branch, |w.branch|);
    forall r | r in part
      ensures r in records
    {
      WalkWithin(records, |w.branch|, walk, r);
    }
    forall e | e in Events(part)
      ensures e in Events(records)
    {
      InEvents(part, e);
      InEvents(records, e);
    }
    if forall e :: e in Events(records) ==> e in Events(part) {
      AllEventsAllRecords(codec, w.session, w.branch, |w.branch|, part);
    }
  }

  /** So the browser gets exactly the events of the branch, each once, if no group interleaves with another. */
  lemma {:induction false} HistoryIsComplete(codec: Codec, chunkBytes: Sizer, visits: Visits)
    requires Followed(codec, chunkBytes, visits) && Separated(Snapshot(codec, visits.visit.world))
    ensures var w := visits.visit.world;
            var shown := Screen(codec, chunkBytes, FreshCursor(w), visits);
            DistinctIds(shown) && forall e :: e in shown <==> Recorded(w.session, w.branch, e)
  {
    hide Screen, Followed, DistinctIds, Follows, WalkOf, Recorded, Unsplit, Cursors, FreshCursor, Everything,
         Separated, WalkMade, Records;
    var w, walk := visits.visit.world, WalkMade(codec, visits);
    HistoryIsCompleteIff(codec, chunkBytes, visits);
    RecordsBelow(codec, w.session, w.branch, |w.branch|);
    WalkCovers(Snapshot(codec, w), |w.branch|, walk);
    WalkCoversIff(Snapshot(codec, w), |w.branch|, walk);
  }
}
