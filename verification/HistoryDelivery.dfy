/**
 A history response in transit: its chunks may be delivered in any order. Whatever the order, the browser's window
 stays pending until the last chunk, then completes with exactly the events of the window that was sent.
 */
module HistoryDelivery {
  import opened Bytes
  import opened Timeline
  import opened Sums
  import opened Ranges
  import opened FragmentTransfer
  import opened FragmentAssembler
  import opened FragmentStreams
  import opened HistoryAssembler

  /** Chunks that carry `window`: some of its events whole, the others (`sent`, by id) as fragments. */
  datatype Response = Response(
    window: seq<TimelineEvent>,
    sent: Sent,
    frames: seq<Chunk>,
    header: Header,
    nextBefore: Option<string>)

  ghost function AllEvents(frames: seq<Chunk>): seq<TimelineEvent> {
    if |frames| == 0 then [] else AllEvents(frames[..|frames| - 1]) + frames[|frames| - 1].events
  }

  ghost predicate Numbered(r: Response) {
    forall k :: 0 <= k < |r.frames| ==>
      && r.frames[k].header == r.header
      && r.frames[k].index == k
      && r.frames[k].tail == if k == |r.frames| - 1 then Final(r.nextBefore) else More
  }

  ghost predicate IsPart(codec: Codec, sent: Sent, f: Fragment) {
    && f.eventId in sent
    && f.index < |sent[f.eventId].slices|
    && DecodeFragment(f) == PieceAt(f.eventId, sent[f.eventId].slices, f.index)
  }

  ghost predicate SamePart(f: Fragment, g: Fragment) {
    f.eventId == g.eventId && f.index == g.index
  }

  /** Every fragment belongs to a sent event; no two chunks carry the same part, and every part is carried. */
  ghost predicate PartsOnce(codec: Codec, r: Response) {
    && (forall k, j :: 0 <= k < |r.frames| && 0 <= j < |r.frames[k].fragments| ==>
          IsPart(codec, r.sent, r.frames[k].fragments[j]))
    && (forall k, j, l, m :: 0 <= k < |r.frames| && 0 <= l < |r.frames| && k != l
                             && 0 <= j < |r.frames[k].fragments| && 0 <= m < |r.frames[l].fragments| ==>
          !SamePart(r.frames[k].fragments[j], r.frames[l].fragments[m]))
    && (forall id, i: nat :: id in r.sent && i < |r.sent[id].slices| ==> CarriesPart(r.frames, id, i))
  }

  ghost predicate CarriesPart(frames: seq<Chunk>, id: string, i: nat) {
    exists k, j :: 0 <= k < |frames| && 0 <= j < |frames[k].fragments|
                   && frames[k].fragments[j].eventId == id && frames[k].fragments[j].index == i
  }

  ghost predicate WholesOnce(r: Response) {
    && DistinctIds(AllEvents(r.frames))
    && forall e :: e in AllEvents(r.frames) ==> InScope(e, r.header.scope) && e.id !in r.sent
  }

  ghost function Numbering(frames: seq<Chunk>): map<nat, Chunk> {
    map k: nat | k in Range(|frames|) :: frames[k]
  }

  ghost function Weight(codec: Codec): Chunk -> nat {
    (c: Chunk) => ChunkWeight(codec, c)
  }

  /** Which events a response is to restore. */
  ghost predicate Covers(r: Response) {
    forall e :: e in r.window <==> e in AllEvents(r.frames) || (e.id in r.sent && e == r.sent[e.id].event)
  }

  ghost predicate Carries(codec: Codec, chunkBytes: Sizer, r: Response) {
    && |r.frames| > 0
    && AllSendable(codec, r.header.scope, r.sent)
    && Numbered(r) && PartsOnce(codec, r) && WholesOnce(r)
    && (forall k :: 0 <= k < |r.frames| ==> Acceptable(chunkBytes, r.frames[k]))
    && SumOf(Numbering(r.frames), Weight(codec)) <= MAX_WINDOW_BYTES
    && DistinctIds(r.window) && EventBytes(codec, r.window) <= MAX_WINDOW_BYTES
    && Covers(r)
  }

  // ----- Holding part of a response -----

  /** Exactly the whole events in `wholes` and the parts in `run` have been taken in. */
  ghost predicate Holds(w: WindowState, sent: Sent, wholes: set<TimelineEvent>, run: Run) {
    && WellTyped(sent, run)
    && w.formal == (set e | e in wholes :: e.id)
    && w.fragments == OpenStates(sent, run)
    && DistinctIds(w.complete)
    && forall e :: e in w.complete <==> e in wholes || Restored(sent, run, e)
  }

  ghost predicate Restored(sent: Sent, run: Run, e: TimelineEvent) {
    e.id in sent && Covered(sent, run, e.id) && e == sent[e.id].event
  }

  ghost predicate ApartFrom(sent: Sent, wholes: set<TimelineEvent>) {
    forall e :: e in wholes ==> e.id !in sent
  }

  lemma {:induction false} TakeEvent(w: WindowState, sent: Sent, wholes: set<TimelineEvent>, run: Run, scope: Scope, e: TimelineEvent)
    requires Holds(w, sent, wholes, run) && ApartFrom(sent, wholes)
    requires InScope(e, scope) && e.id !in sent && forall x :: x in wholes ==> x.id != e.id
    ensures ApplyEvent(w, scope, e).Some?
    ensures Holds(ApplyEvent(w, scope, e).value, sent, wholes + {e}, run)
  {
    hide Arrived, Open, Gathered, WellTyped, Covered;
    forall i | 0 <= i < |w.complete|
      ensures w.complete[i].id != e.id
    {
      assert w.complete[i] in w.complete;
    }
  }

  lemma {:induction false} NotYetComplete(w: WindowState, sent: Sent, wholes: set<TimelineEvent>, run: Run, id: string)
    requires Holds(w, sent, wholes, run) && ApartFrom(sent, wholes) && id in sent && !Covered(sent, run, id)
    ensures id !in w.formal && !HasEvent(w.complete, id)
  {
    hide Arrived, OpenStates, WellTyped, Covered;
    forall i | 0 <= i < |w.complete|
      ensures w.complete[i].id != id
    {
      assert w.complete[i] in w.complete;
    }
  }

  lemma {:induction false} ApplyStored(codec: Codec, w: WindowState, scope: Scope, p: Piece, peak: FragmentStates)
    requires p.eventId !in w.formal && !HasEvent(w.complete, p.eventId)
    requires AddFragment(w.fragments, p).0 == peak
    requires AddFragment(w.fragments, p).1.Added? || AddFragment(w.fragments, p).1.Duplicate?
    requires var result := FinishFragment(codec, peak, p.eventId, scope).1;
             result.Pending? || (result.Complete? && result.event.id == p.eventId)
    ensures var (left, result) := FinishFragment(codec, peak, p.eventId, scope);
            ApplyPiece(codec, w, scope, p)
            == Some(w.(fragments := left, complete := if result.Complete? then w.complete + [result.event] else w.complete))
  {
    hide AddFragment, FinishFragment, HasEvent;
  }

  lemma {:induction false} PieceResult(codec: Codec, scope: Scope, sent: Sent, run: Run)
    requires codec.Lossless() && AllSendable(codec, scope, sent) && run.Deliver? && WellTyped(sent, run)
    ensures FinishFragment(codec, PeakStates(sent, run), run.id, scope)
            == (OpenStates(sent, run), if Covered(sent, run, run.id) then Complete(sent[run.id].event) else Pending)
  {
    hide FinishFragment, OpenStates, Arrived;
    ArrivedWithin(sent, run, run.id);
    OpenAfter(sent, run);
    assert sent[run.id].event.id == run.id;
    FinishEvent(codec, scope, sent[run.id], PeakStates(sent, run), Arrived(run, run.id));
  }

  lemma {:induction false} RestoredAfter(sent: Sent, run: Run, e: TimelineEvent)
    requires run.Deliver? && run.id in sent && sent[run.id].event.id == run.id && !Covered(sent, run.before, run.id)
    ensures Restored(sent, run, e)
            <==> Restored(sent, run.before, e) || (Covered(sent, run, run.id) && e == sent[run.id].event)
  {
    hide Covered;
    if e.id in sent {
      CoveredByOwnDelivery(sent, run, e.id);
    }
  }

  lemma {:induction false} HoldsMore(w: WindowState, after: WindowState, sent: Sent, wholes: set<TimelineEvent>, run: Run)
    requires run.Deliver? && WellTyped(sent, run)
    requires Holds(w, sent, wholes, run.before) && sent[run.id].event.id == run.id && !Covered(sent, run.before, run.id)
    requires !HasEvent(w.complete, run.id) && after.fragments == OpenStates(sent, run) && after.formal == w.formal
    requires after.complete == if Covered(sent, run, run.id) then w.complete + [sent[run.id].event] else w.complete
    ensures Holds(after, sent, wholes, run)
  {
    hide Covered, Restored, OpenStates, Arrived;
    forall e
      ensures e in after.complete <==> e in wholes || Restored(sent, run, e)
    {
      RestoredAfter(sent, run, e);
    }
  }

  /** A part that has not been there yet is taken in, and completes its event if it was the last one missing. */
  lemma {:induction false} TakePiece(codec: Codec, scope: Scope, w: WindowState, sent: Sent, wholes: set<TimelineEvent>, run: Run)
    requires codec.Lossless() && AllSendable(codec, scope, sent)
    requires run.Deliver? && WellTyped(sent, run) && run.index !in Arrived(run.before, run.id)
    requires Holds(w, sent, wholes, run.before) && ApartFrom(sent, wholes)
    ensures var after := ApplyPiece(codec, w, scope, PieceAt(run.id, sent[run.id].slices, run.index));
            && after.Some? && Holds(after.value, sent, wholes, run)
            && after.value == w.(fragments := after.value.fragments, complete := after.value.complete)
  {
    hide AddFragment, FinishFragment, OpenStates, Arrived, PeakStates, HasEvent, ApplyPiece, ApartFrom;
    var p := PieceAt(run.id, sent[run.id].slices, run.index);
    assert run.index in Range(|sent[run.id].slices|);
    NotYetComplete(w, sent, wholes, run.before, run.id);
    AddReachesPeak(codec, scope, sent, run);
    PieceResult(codec, scope, sent, run);
    assert sent[run.id].event.id == run.id;
    assert w.fragments == OpenStates(sent, run.before);
    ApplyStored(codec, w, scope, p, PeakStates(sent, run));
    HoldsMore(w, ApplyPiece(codec, w, scope, p).value, sent, wholes, run);
  }

  // ----- One chunk -----

  ghost function Members(events: seq<TimelineEvent>): set<TimelineEvent> {
    set e | e in events
  }

  ghost function AppendParts(run: Run, fragments: seq<Fragment>): Run {
    if |fragments| == 0 then run
    else
      var last := fragments[|fragments| - 1];
      Deliver(AppendParts(run, fragments[..|fragments| - 1]), last.eventId, last.index)
  }

  lemma {:induction false} TakeEvents(w: WindowState, sent: Sent, wholes: set<TimelineEvent>, run: Run, scope: Scope, events: seq<TimelineEvent>)
    requires Holds(w, sent, wholes, run) && ApartFrom(sent, wholes) && DistinctIds(events)
    requires forall e :: e in events ==> InScope(e, scope) && e.id !in sent
    requires forall e, x :: e in events && x in wholes ==> x.id != e.id
    ensures var after := ApplyEvents(w, scope, events);
            && after.Some? && Holds(after.value, sent, wholes + Members(events), run)
            && after.value == w.(formal := after.value.formal, complete := after.value.complete)
    ensures ApartFrom(sent, wholes + Members(events))
  {
    hide Holds;
    if |events| == 0 {
      assert wholes + Members(events) == wholes;
    } else {
      var front, last := events[..|events| - 1], events[|events| - 1];
      TakeEvents(w, sent, wholes, run, scope, front);
      assert wholes + Members(front) + {last} == wholes + Members(events);
      var before := ApplyEvents(w, scope, front).value;
      TakeEvent(before, sent, wholes + Members(front), run, scope, last);
    }
  }

  ghost predicate AllParts(codec: Codec, sent: Sent, fragments: seq<Fragment>) {
    forall j :: 0 <= j < |fragments| ==> IsPart(codec, sent, fragments[j])
  }

  ghost predicate DistinctEvents(fragments: seq<Fragment>) {
    forall i, j :: 0 <= i < j < |fragments| ==> fragments[i].eventId != fragments[j].eventId
  }

  ghost predicate AllNew(run: Run, fragments: seq<Fragment>) {
    forall j :: 0 <= j < |fragments| ==> fragments[j].index !in Arrived(run, fragments[j].eventId)
  }

  lemma {:induction false} ArrivedAppended(run: Run, fragments: seq<Fragment>, id: string, i: nat)
    ensures i in Arrived(AppendParts(run, fragments), id)
            <==> i in Arrived(run, id) || exists j :: 0 <= j < |fragments| && fragments[j].eventId == id && fragments[j].index == i
  {
    if |fragments| > 0 {
      var front, last := fragments[..|fragments| - 1], fragments[|fragments| - 1];
      ArrivedAppended(run, front, id, i);
      assert forall j :: 0 <= j < |front| ==> front[j] == fragments[j];
    }
  }

  lemma {:induction false} AppendedWellTyped(codec: Codec, sent: Sent, run: Run, fragments: seq<Fragment>)
    requires WellTyped(sent, run) && AllParts(codec, sent, fragments)
    ensures WellTyped(sent, AppendParts(run, fragments))
  {
    if |fragments| > 0 {
      var front, last := fragments[..|fragments| - 1], fragments[|fragments| - 1];
      AppendedWellTyped(codec, sent, run, front);
      assert IsPart(codec, sent, last);
    }
  }

  lemma {:induction false} TakePieces(codec: Codec, scope: Scope, w: WindowState, sent: Sent, wholes: set<TimelineEvent>, run: Run,
                                      fragments: seq<Fragment>, pieces: seq<Piece>)
    requires codec.Lossless() && AllSendable(codec, scope, sent)
    requires Holds(w, sent, wholes, run) && ApartFrom(sent, wholes)
    requires AllParts(codec, sent, fragments) && DistinctEvents(fragments) && AllNew(run, fragments)
    requires |pieces| == |fragments| && forall j :: 0 <= j < |pieces| ==> pieces[j] == DecodeFragment(fragments[j])
    ensures var after := ApplyPieces(codec, w, scope, pieces);
            && after.Some? && Holds(after.value, sent, wholes, AppendParts(run, fragments))
            && after.value == w.(fragments := after.value.fragments, complete := after.value.complete)
  {
    hide ApartFrom, ApplyPiece, AllSendable, DecodeFragment, Arrived, WellTyped;
    if |fragments| > 0 {
      var front, last := fragments[..|fragments| - 1], fragments[|fragments| - 1];
      TakePieces(codec, scope, w, sent, wholes, run, front, pieces[..|pieces| - 1]);
      var before := ApplyPieces(codec, w, scope, pieces[..|pieces| - 1]).value;
      assert IsPart(codec, sent, last);
      var next := AppendParts(run, fragments);
      ArrivedAppended(run, front, last.eventId, last.index);
      AppendedWellTyped(codec, sent, run, fragments);
      assert pieces[|pieces| - 1] == PieceAt(next.id, sent[next.id].slices, next.index);
      TakePiece(codec, scope, before, sent, wholes, next);
    }
  }

  // ----- Whole deliveries -----

  /** The order in which chunks arrive, the latest last. */
  datatype Order = NoChunks | Next(before: Order, chunk: nat)

  ghost function Delivered(order: Order): set<nat> {
    match order
    case NoChunks => {}
    case Next(before, k) => Delivered(before) + {k}
  }

  /** Each of the chunks 0 to n-1 arrives at most once. */
  ghost predicate Once(order: Order, n: nat) {
    match order
    case NoChunks => true
    case Next(before, k) => Once(before, n) && k < n && k !in Delivered(before)
  }

  ghost function WholesOf(frames: seq<Chunk>, order: Order): set<TimelineEvent>
    requires Once(order, |frames|)
  {
    match order
    case NoChunks => {}
    case Next(before, k) => WholesOf(frames, before) + Members(frames[k].events)
  }

  ghost function RunOf(frames: seq<Chunk>, order: Order): Run
    requires Once(order, |frames|)
  {
    match order
    case NoChunks => Start
    case Next(before, k) => AppendParts(RunOf(frames, before), frames[k].fragments)
  }

  ghost function Receive(codec: Codec, chunkBytes: Sizer, expected: Option<Scope>, r: Response, order: Order): (WindowState, WindowResult)
    requires Once(order, |r.frames|)
  {
    match order
    case NoChunks => (EmptyWindow, WindowPending)
    case Next(before, k) =>
      AcceptChunk(codec, chunkBytes, r.header.requestId, expected, Receive(codec, chunkBytes, expected, r, before).0, r.frames[k])
  }

  lemma {:induction false} OnceWithin(order: Order, n: nat)
    requires Once(order, n)
    ensures forall k :: k in Delivered(order) ==> k < n
  {
    if order.Next? {
      OnceWithin(order.before, n);
    }
  }

  lemma {:induction false} WholesFrom(frames: seq<Chunk>, order: Order, e: TimelineEvent)
    requires Once(order, |frames|)
    ensures e in WholesOf(frames, order) <==> exists k :: k in Delivered(order) && k < |frames| && e in frames[k].events
  {
    if order.Next? {
      WholesFrom(frames, order.before, e);
    }
  }

  ghost predicate HasPart(chunk: Chunk, id: string, i: nat) {
    exists j :: 0 <= j < |chunk.fragments| && chunk.fragments[j].eventId == id && chunk.fragments[j].index == i
  }

  lemma {:induction false} PartsFrom(frames: seq<Chunk>, order: Order, id: string, i: nat)
    requires Once(order, |frames|)
    ensures i in Arrived(RunOf(frames, order), id) <==> exists k :: k in Delivered(order) && k < |frames| && HasPart(frames[k], id, i)
  {
    if order.Next? {
      PartsFrom(frames, order.before, id, i);
      ArrivedAppended(RunOf(frames, order.before), frames[order.chunk].fragments, id, i);
    }
  }

  lemma {:induction false} EventOfFrame(frames: seq<Chunk>, k: nat, e: TimelineEvent)
    requires k < |frames| && e in frames[k].events
    ensures e in AllEvents(frames)
  {
    if k < |frames| - 1 {
      EventOfFrame(frames[..|frames| - 1], k, e);
    }
  }

  lemma {:induction false} FrameOfEvent(frames: seq<Chunk>, e: TimelineEvent) returns (k: nat)
    requires e in AllEvents(frames)
    ensures k < |frames| && e in frames[k].events
  {
    var last := |frames| - 1;
    if e in frames[last].events {
      k := last;
    } else {
      k := FrameOfEvent(frames[..last], e);
    }
  }

  lemma {:induction false} DistinctParts(a: seq<TimelineEvent>, b: seq<TimelineEvent>)
    requires DistinctIds(a + b)
    ensures DistinctIds(a) && DistinctIds(b)
    ensures forall e, x :: e in a && x in b ==> e.id != x.id
  {
    forall i | 0 <= i < |a|
      ensures (a + b)[i] == a[i]
    {
    }
    forall i, j | 0 <= i < j < |b|
      ensures b[i].id != b[j].id
    {
      assert (a + b)[|a| + i].id != (a + b)[|a| + j].id;
    }
    forall e, x | e in a && x in b
      ensures e.id != x.id
    {
      var i :| 0 <= i < |a| && a[i] == e;
      var j :| 0 <= j < |b| && b[j] == x;
      assert (a + b)[i].id != (a + b)[|a| + j].id;
    }
  }

  lemma {:induction false} FramesApart(frames: seq<Chunk>, k: nat)
    requires DistinctIds(AllEvents(frames)) && k < |frames|
    ensures DistinctIds(frames[k].events)
    ensures forall l, e, x :: 0 <= l < |frames| && l != k && e in frames[k].events && x in frames[l].events ==> e.id != x.id
  {
    hide DistinctIds;
    var front, last := frames[..|frames| - 1], |frames| - 1;
    DistinctParts(AllEvents(front), frames[last].events);
    forall l, e | 0 <= l < last && e in frames[l].events
      ensures e in AllEvents(front)
    {
      EventOfFrame(front, l, e);
    }
    if k < last {
      FramesApart(front, k);
      assert forall l :: 0 <= l < last ==> front[l] == frames[l];
    }
  }

  ghost function DeliveredChunks(r: Response, order: Order): map<nat, Chunk> {
    map k | k in Delivered(order) && k < |r.frames| :: r.frames[k]
  }

  ghost function KnownTail(r: Response, order: Order): Option<(nat, Option<string>)> {
    if |r.frames| > 0 && |r.frames| - 1 in Delivered(order) then Some((|r.frames| - 1, r.nextBefore)) else None
  }

  /** Header, numbering and byte total of a window that has received the chunks of `order`. */
  ghost predicate Registered(codec: Codec, r: Response, order: Order, w: WindowState) {
    && w.phase.Collecting?
    && w.chunks == DeliveredChunks(r, order)
    && w.scope == (if order.Next? then Some(r.header) else None)
    && w.total == SumOf(w.chunks, Weight(codec))
    && w.tail == KnownTail(r, order)
  }

  /** Nothing of the chunks received so far is lost, and nothing is invented. */
  ghost predicate Progress(codec: Codec, r: Response, order: Order, w: WindowState)
    requires Once(order, |r.frames|)
  {
    && Registered(codec, r, order, w)
    && Holds(w, r.sent, WholesOf(r.frames, order), RunOf(r.frames, order))
    && ApartFrom(r.sent, WholesOf(r.frames, order))
  }

  lemma {:induction false} ChunksNext(r: Response, order: Order)
    requires Once(order, |r.frames|) && order.Next?
    ensures DeliveredChunks(r, order) == DeliveredChunks(r, order.before)[order.chunk := r.frames[order.chunk]]
    ensures order.chunk !in DeliveredChunks(r, order.before)
  {
  }

  lemma {:induction false} TotalNext(codec: Codec, r: Response, order: Order)
    requires Once(order, |r.frames|) && order.Next?
    requires SumOf(Numbering(r.frames), Weight(codec)) <= MAX_WINDOW_BYTES
    ensures SumOf(DeliveredChunks(r, order.before), Weight(codec)) + ChunkWeight(codec, r.frames[order.chunk])
            == SumOf(DeliveredChunks(r, order), Weight(codec)) <= MAX_WINDOW_BYTES
  {
    hide SumOf, ChunkWeight, Delivered;
    var k := order.chunk;
    assert Weight(codec)(r.frames[k]) == ChunkWeight(codec, r.frames[k]);
    SumOfPart(DeliveredChunks(r, order), Numbering(r.frames), Weight(codec));
    ChunksNext(r, order);
    SumInsert(DeliveredChunks(r, order.before), Weight(codec), k, r.frames[k]);
  }

  lemma {:induction false} FitsNext(codec: Codec, expected: Option<Scope>, r: Response, order: Order, w: WindowState)
    requires Numbered(r) && (expected.Some? ==> expected.value == r.header.scope)
    requires Once(order, |r.frames|) && order.Next? && Registered(codec, r, order.before, w)
    ensures FitsTail(w, r.frames[order.chunk]) && ScopeAgrees(w, expected, r.frames[order.chunk].header)
  {
    hide SumOf, Weight;
    OnceWithin(order.before, |r.frames|);
  }

  lemma {:induction false} RegisterFits(codec: Codec, chunkBytes: Sizer, expected: Option<Scope>, w: WindowState, chunk: Chunk)
    requires Acceptable(chunkBytes, chunk) && ScopeAgrees(w, expected, chunk.header) && FitsTail(w, chunk)
    requires w.total + ChunkWeight(codec, chunk) <= MAX_WINDOW_BYTES
    requires w.scope.Some? ==> w.scope.value == chunk.header
    ensures Register(codec, chunkBytes, expected, w, chunk)
            == Some(w.(chunks := w.chunks[chunk.index := chunk], scope := Some(chunk.header), total := w.total + ChunkWeight(codec, chunk),
                       tail := if chunk.tail.Final? then Some((chunk.index, chunk.tail.nextBefore)) else w.tail))
  {
    hide Acceptable, ScopeAgrees, FitsTail, ChunkWeight;
  }

  lemma {:induction false} TailNext(r: Response, order: Order)
    requires Once(order, |r.frames|) && order.Next? && Numbered(r)
    ensures KnownTail(r, order)
            == if r.frames[order.chunk].tail.Final? then Some((order.chunk, r.frames[order.chunk].tail.nextBefore)) else KnownTail(r, order.before)
  {
    OnceWithin(order.before, |r.frames|);
  }

  lemma {:induction false} FrameIs(r: Response, order: Order)
    requires Numbered(r) && Once(order, |r.frames|) && order.Next?
    ensures r.frames[order.chunk].header == r.header && r.frames[order.chunk].index == order.chunk
  {
  }

  lemma {:induction false} RegisteredNext(codec: Codec, r: Response, order: Order, w: WindowState)
    requires Numbered(r) && SumOf(Numbering(r.frames), Weight(codec)) <= MAX_WINDOW_BYTES
    requires Once(order, |r.frames|) && order.Next? && Registered(codec, r, order.before, w)
    ensures var chunk := r.frames[order.chunk];
            Registered(codec, r, order,
                       w.(chunks := w.chunks[chunk.index := chunk], scope := Some(chunk.header), total := w.total + ChunkWeight(codec, chunk),
                          tail := if chunk.tail.Final? then Some((chunk.index, chunk.tail.nextBefore)) else w.tail))
  {
    hide SumOf, ChunkWeight, Weight, EventBytes, DeliveredChunks, KnownTail, Numbered, Once, Delivered;
    FrameIs(r, order);
    ChunksNext(r, order);
    TotalNext(codec, r, order);
    TailNext(r, order);
  }

  lemma {:induction false} RoomForNext(codec: Codec, r: Response, order: Order, w: WindowState)
    requires Numbered(r) && SumOf(Numbering(r.frames), Weight(codec)) <= MAX_WINDOW_BYTES
    requires Once(order, |r.frames|) && order.Next? && Registered(codec, r, order.before, w)
    ensures order.chunk < |r.frames| && w.total + ChunkWeight(codec, r.frames[order.chunk]) <= MAX_WINDOW_BYTES
    ensures w.scope.Some? ==> w.scope.value == r.frames[order.chunk].header
  {
    hide SumOf, Numbering, ChunkWeight, Weight, DeliveredChunks, KnownTail, Numbered;
    FrameIs(r, order);
    TotalNext(codec, r, order);
  }

  lemma {:induction false} RegisterNext(codec: Codec, chunkBytes: Sizer, expected: Option<Scope>, r: Response, order: Order, w: WindowState)
    requires Numbered(r) && (expected.Some? ==> expected.value == r.header.scope)
    requires SumOf(Numbering(r.frames), Weight(codec)) <= MAX_WINDOW_BYTES
    requires Once(order, |r.frames|) && order.Next? && Registered(codec, r, order.before, w)
    requires Acceptable(chunkBytes, r.frames[order.chunk])
    ensures var after := Register(codec, chunkBytes, expected, w, r.frames[order.chunk]);
            && after.Some? && Registered(codec, r, order, after.value)
            && after.value.fragments == w.fragments && after.value.complete == w.complete && after.value.formal == w.formal
  {
    hide SumOf, Numbering, Acceptable, ChunkWeight, Weight, EventBytes, FitsTail, ScopeAgrees, Register, Registered, Numbered, Once;
    RoomForNext(codec, r, order, w);
    FitsNext(codec, expected, r, order, w);
    RegisterFits(codec, chunkBytes, expected, w, r.frames[order.chunk]);
    RegisteredNext(codec, r, order, w);
  }

  lemma {:induction false} EventsNext(r: Response, order: Order)
    requires WholesOnce(r) && Once(order, |r.frames|) && order.Next?
    requires ApartFrom(r.sent, WholesOf(r.frames, order.before))
    ensures var events := r.frames[order.chunk].events;
            && DistinctIds(events)
            && (forall e :: e in events ==> InScope(e, r.header.scope) && e.id !in r.sent)
            && (forall e, x :: e in events && x in WholesOf(r.frames, order.before) ==> x.id != e.id)
  {
    hide DistinctIds, WholesOf, AllEvents;
    var events := r.frames[order.chunk].events;
    FramesApart(r.frames, order.chunk);
    forall e | e in events
      ensures e in AllEvents(r.frames)
    {
      EventOfFrame(r.frames, order.chunk, e);
    }
    forall e, x | e in events && x in WholesOf(r.frames, order.before)
      ensures x.id != e.id
    {
      WholesFrom(r.frames, order.before, x);
    }
  }

  lemma {:induction false} PartsNext(codec: Codec, r: Response, order: Order)
    requires PartsOnce(codec, r) && Once(order, |r.frames|) && order.Next?
    ensures AllParts(codec, r.sent, r.frames[order.chunk].fragments)
    ensures AllNew(RunOf(r.frames, order.before), r.frames[order.chunk].fragments)
  {
    hide IsPart, Arrived, RunOf;
    var k := order.chunk;
    var fragments := r.frames[k].fragments;
    forall j | 0 <= j < |fragments|
      ensures fragments[j].index !in Arrived(RunOf(r.frames, order.before), fragments[j].eventId)
    {
      PartsFrom(r.frames, order.before, fragments[j].eventId, fragments[j].index);
      forall l | l in Delivered(order.before) && l < |r.frames|
        ensures !HasPart(r.frames[l], fragments[j].eventId, fragments[j].index)
      {
        forall m | 0 <= m < |r.frames[l].fragments|
          ensures !SamePart(r.frames[l].fragments[m], fragments[j])
        {
        }
      }
    }
    assert forall j :: 0 <= j < |r.frames[k].fragments| ==> IsPart(codec, r.sent, r.frames[k].fragments[j]);
  }

  lemma {:induction false} ContentsNext(codec: Codec, r: Response, order: Order, w: WindowState)
    requires codec.Lossless() && AllSendable(codec, r.header.scope, r.sent)
    requires PartsOnce(codec, r) && WholesOnce(r) && Once(order, |r.frames|) && order.Next? && SchemaValid(r.frames[order.chunk])
    requires Holds(w, r.sent, WholesOf(r.frames, order.before), RunOf(r.frames, order.before))
    requires ApartFrom(r.sent, WholesOf(r.frames, order.before))
    ensures var chunk := r.frames[order.chunk];
            var withEvents := ApplyEvents(w, r.header.scope, chunk.events);
            && withEvents.Some?
            && var after := ApplyPieces(codec, withEvents.value, r.header.scope, Pieces(chunk));
            && after.Some? && Holds(after.value, r.sent, WholesOf(r.frames, order), RunOf(r.frames, order))
            && after.value == w.(formal := after.value.formal, fragments := after.value.fragments, complete := after.value.complete)
            && ApartFrom(r.sent, WholesOf(r.frames, order))
  {
    hide Holds, ApartFrom, DistinctIds, AllSendable, PartsOnce, WholesOnce, AllParts, AllNew, DecodeFragment,
         ApplyEvents, ApplyPieces;
    var chunk := r.frames[order.chunk];
    var wholes, run := WholesOf(r.frames, order.before), RunOf(r.frames, order.before);
    EventsNext(r, order);
    PartsNext(codec, r, order);
    assert DistinctEvents(chunk.fragments);
    TakeEvents(w, r.sent, wholes, run, r.header.scope, chunk.events);
    TakePieces(codec, r.header.scope, ApplyEvents(w, r.header.scope, chunk.events).value, r.sent,
               wholes + Members(chunk.events), run, chunk.fragments, Pieces(chunk));
  }

  lemma {:induction false} ApplyUnfolded(codec: Codec, chunkBytes: Sizer, expected: Option<Scope>, w: WindowState, chunk: Chunk)
    requires Register(codec, chunkBytes, expected, w, chunk).Some?
    requires ApplyEvents(Register(codec, chunkBytes, expected, w, chunk).value, chunk.header.scope, chunk.events).Some?
    ensures ApplyChunk(codec, chunkBytes, expected, w, chunk)
            == ApplyPieces(codec, ApplyEvents(Register(codec, chunkBytes, expected, w, chunk).value, chunk.header.scope, chunk.events).value,
                           chunk.header.scope, Pieces(chunk))
  {
    hide Register, ApplyEvents, ApplyPieces;
  }

  /** Whichever chunk comes next, it is taken in whole. */
  lemma {:induction false} ApplyNext(codec: Codec, chunkBytes: Sizer, expected: Option<Scope>, r: Response, order: Order, w: WindowState)
    requires codec.Lossless() && Carries(codec, chunkBytes, r) && (expected.Some? ==> expected.value == r.header.scope)
    requires Once(order, |r.frames|) && order.Next? && Progress(codec, r, order.before, w)
    ensures var after := ApplyChunk(codec, chunkBytes, expected, w, r.frames[order.chunk]);
            after.Some? && Progress(codec, r, order, after.value)
  {
    hide ApplyChunk, ApartFrom, DistinctIds, AllSendable, PartsOnce, WholesOnce, ApplyEvents, ApplyPieces, Register,
         SumOf, DeliveredChunks, KnownTail, WholesOf, RunOf, Weight, WellTyped, OpenStates, Restored, EventBytes;
    var chunk := r.frames[order.chunk];
    assert Acceptable(chunkBytes, chunk) && chunk.header == r.header;
    RegisterNext(codec, chunkBytes, expected, r, order, w);
    var registered := Register(codec, chunkBytes, expected, w, chunk).value;
    assert Holds(registered, r.sent, WholesOf(r.frames, order.before), RunOf(r.frames, order.before));
    ContentsNext(codec, r, order, registered);
    ApplyUnfolded(codec, chunkBytes, expected, w, chunk);
  }

  // ----- The last chunk -----

  lemma {:induction false} DeliveredCount(order: Order, n: nat)
    requires Once(order, n)
    ensures |Delivered(order)| <= n && (|Delivered(order)| == n <==> Delivered(order) == Range(n))
  {
    OnceWithin(order, n);
    CardinalityBelow(Delivered(order), n);
  }

  lemma {:induction false} ChunksDelivered(r: Response, order: Order)
    requires Once(order, |r.frames|)
    ensures DeliveredChunks(r, order).Keys == Delivered(order) && |DeliveredChunks(r, order)| == |Delivered(order)|
  {
    OnceWithin(order, |r.frames|);
    assert DeliveredChunks(r, order).Keys == Delivered(order);
  }

  ghost predicate AllDelivered(r: Response, order: Order) {
    Delivered(order) == Range(|r.frames|)
  }

  lemma {:induction false} PartArrives(codec: Codec, r: Response, order: Order, id: string, i: nat)
    requires PartsOnce(codec, r) && Once(order, |r.frames|) && AllDelivered(r, order) && id in r.sent
    ensures i in Arrived(RunOf(r.frames, order), id) <==> i in Range(|r.sent[id].slices|)
  {
    hide RunOf, Arrived, Once;
    PartsFrom(r.frames, order, id, i);
    if i < |r.sent[id].slices| {
      assert CarriesPart(r.frames, id, i);
      var k, j :| 0 <= k < |r.frames| && 0 <= j < |r.frames[k].fragments|
                  && r.frames[k].fragments[j].eventId == id && r.frames[k].fragments[j].index == i;
      assert HasPart(r.frames[k], id, i);
    }
  }

  lemma {:induction false} AllCovered(codec: Codec, r: Response, order: Order, id: string)
    requires PartsOnce(codec, r) && Once(order, |r.frames|) && AllDelivered(r, order) && id in r.sent
    ensures Covered(r.sent, RunOf(r.frames, order), id)
  {
    hide PartsOnce, RunOf, AllDelivered, Arrived, Once;
    var run := RunOf(r.frames, order);
    forall i: nat
      ensures i in Arrived(run, id) <==> i in Range(|r.sent[id].slices|)
    {
      PartArrives(codec, r, order, id, i);
    }
  }

  lemma {:induction false} NothingOpen(codec: Codec, r: Response, order: Order)
    requires PartsOnce(codec, r) && Once(order, |r.frames|) && AllDelivered(r, order)
    ensures OpenStates(r.sent, RunOf(r.frames, order)) == map[]
  {
    hide PartsOnce, RunOf, AllDelivered, Arrived, Once;
    forall id | id in r.sent
      ensures !Open(r.sent, RunOf(r.frames, order), id)
    {
      AllCovered(codec, r, order, id);
    }
  }

  lemma {:induction false} ContiguousWhenAllDelivered(r: Response, order: Order)
    requires |r.frames| > 0 && Once(order, |r.frames|)
    ensures (KnownTail(r, order).Some? && Contiguous(DeliveredChunks(r, order), |r.frames| - 1)) <==> AllDelivered(r, order)
  {
    DeliveredCount(order, |r.frames|);
    ChunksDelivered(r, order);
  }

  /** The window is ready exactly when every chunk has arrived. */
  lemma {:induction false} ReadyWhenAllDelivered(codec: Codec, r: Response, order: Order, w: WindowState)
    requires |r.frames| > 0 && PartsOnce(codec, r) && Once(order, |r.frames|) && Progress(codec, r, order, w)
    ensures Ready(w) <==> AllDelivered(r, order)
  {
    hide RunOf, WholesOf, SumOf, Weight, Restored, PartsOnce, DeliveredChunks, DistinctIds, ApartFrom;
    ContiguousWhenAllDelivered(r, order);
    if AllDelivered(r, order) {
      NothingOpen(codec, r, order);
    }
  }

  lemma {:induction false} WholesAreAll(frames: seq<Chunk>, order: Order, e: TimelineEvent)
    requires Once(order, |frames|) && Delivered(order) == Range(|frames|)
    ensures e in WholesOf(frames, order) <==> e in AllEvents(frames)
  {
    WholesFrom(frames, order, e);
    if e in AllEvents(frames) {
      var k := FrameOfEvent(frames, e);
      assert k in Delivered(order);
    }
    if e in WholesOf(frames, order) {
      var k :| k in Delivered(order) && k < |frames| && e in frames[k].events;
      EventOfFrame(frames, k, e);
    }
  }

  /** Whole or restored, the completed events are the events of the window. */
  lemma {:induction false} CompletedIsWindow(codec: Codec, r: Response, order: Order, w: WindowState)
    requires PartsOnce(codec, r) && Covers(r) && Once(order, |r.frames|) && AllDelivered(r, order)
    requires Holds(w, r.sent, WholesOf(r.frames, order), RunOf(r.frames, order))
    ensures DistinctIds(w.complete) && forall e :: e in w.complete <==> e in r.window
  {
    hide RunOf, WholesOf, AllEvents, PartsOnce, Once, Covered, DistinctIds, OpenStates, WellTyped;
    forall e
      ensures e in w.complete <==> e in r.window
    {
      WholesAreAll(r.frames, order, e);
      if e.id in r.sent {
        AllCovered(codec, r, order, e.id);
      }
    }
  }

  lemma {:induction false} WholesInOrder(r: Response, chunks: map<nat, Chunk>, n: nat)
    requires n <= |r.frames| && forall k: nat :: k < n ==> k in chunks && chunks[k] == r.frames[k]
    ensures WholeEvents(chunks, n) == AllEvents(r.frames[..n])
  {
    if n > 0 {
      WholesInOrder(r, chunks, n - 1);
      assert r.frames[..n][..n - 1] == r.frames[..n - 1];
    }
  }

  lemma {:induction false} MissingIs(events: seq<TimelineEvent>, others: seq<TimelineEvent>)
    ensures forall e :: e in Missing(events, others) <==> e in events && !HasEvent(others, e.id)
    ensures DistinctIds(events) ==> DistinctIds(Missing(events, others))
  {
    if |events| > 0 {
      MissingIs(events[..|events| - 1], others);
    }
  }

  ghost function Indexed(events: seq<TimelineEvent>): map<TimelineEvent, TimelineEvent> {
    map e | e in events :: e
  }

  lemma {:induction false} BytesAsSum(codec: Codec, events: seq<TimelineEvent>)
    requires DistinctIds(events)
    ensures EventBytes(codec, events) == SumOf(Indexed(events), (e: TimelineEvent) => codec.Size(e))
  {
    var weight := (e: TimelineEvent) => codec.Size(e);
    if |events| == 0 {
      assert Indexed(events) == map[];
    } else {
      var front, last := events[..|events| - 1], events[|events| - 1];
      BytesAsSum(codec, front);
      LastIndexed(events);
      SumInsert(Indexed(front), weight, last, last);
    }
  }

  lemma {:induction false} LastIndexed(events: seq<TimelineEvent>)
    requires |events| > 0 && DistinctIds(events)
    ensures var front, last := events[..|events| - 1], events[|events| - 1];
            DistinctIds(front) && last !in Indexed(front) && Indexed(events) == Indexed(front)[last := last]
  {
  }

  /** Two orders of the same events weigh the same. */
  lemma {:induction false} SameMembersSameBytes(codec: Codec, a: seq<TimelineEvent>, b: seq<TimelineEvent>)
    requires DistinctIds(a) && DistinctIds(b) && forall e :: e in a <==> e in b
    ensures EventBytes(codec, a) == EventBytes(codec, b)
  {
    BytesAsSum(codec, a);
    BytesAsSum(codec, b);
    assert Indexed(a) == Indexed(b);
  }

  /** The events of `r.window`, those that travelled whole first and in the order in which they were sent. */
  ghost predicate Restores(r: Response, events: seq<TimelineEvent>) {
    && AllEvents(r.frames) <= events
    && DistinctIds(events)
    && forall e :: e in events <==> e in r.window
  }

  lemma {:induction false} SameIdSameEvent(events: seq<TimelineEvent>, e: TimelineEvent, x: TimelineEvent)
    requires DistinctIds(events) && e in events && x in events && e.id == x.id
    ensures e == x
  {
    var i :| 0 <= i < |events| && events[i] == e;
    var j :| 0 <= j < |events| && events[j] == x;
    assert i == j;
  }

  lemma {:induction false} RestoresFrom(r: Response, complete: seq<TimelineEvent>)
    requires DistinctIds(r.window) && DistinctIds(AllEvents(r.frames)) && DistinctIds(complete)
    requires forall e :: e in complete <==> e in r.window
    requires forall e :: e in AllEvents(r.frames) ==> e in r.window
    ensures Restores(r, AllEvents(r.frames) + Missing(complete, AllEvents(r.frames)))
  {
    hide AllEvents, Missing;
    var whole := AllEvents(r.frames);
    var rest := Missing(complete, whole);
    MissingIs(complete, whole);
    forall e | e in r.window && HasEvent(whole, e.id)
      ensures e in whole
    {
      var i :| 0 <= i < |whole| && whole[i].id == e.id;
      SameIdSameEvent(r.window, e, whole[i]);
    }
    forall i, j | 0 <= i < |whole| && 0 <= j < |rest|
      ensures whole[i].id != rest[j].id
    {
      assert rest[j] in rest;
    }
    assert forall i | 0 <= i < |rest| :: (whole + rest)[|whole| + i] == rest[i];
  }

  lemma {:induction false} WindowBytes(codec: Codec, r: Response, order: Order, w: WindowState)
    requires PartsOnce(codec, r) && Covers(r) && DistinctIds(r.window) && EventBytes(codec, r.window) <= MAX_WINDOW_BYTES
    requires Once(order, |r.frames|) && AllDelivered(r, order)
    requires Holds(w, r.sent, WholesOf(r.frames, order), RunOf(r.frames, order))
    ensures EventBytes(codec, w.complete) <= MAX_WINDOW_BYTES
  {
    hide RunOf, WholesOf, Holds, PartsOnce, DistinctIds, EventBytes, Covers, AllDelivered;
    CompletedIsWindow(codec, r, order, w);
    SameMembersSameBytes(codec, w.complete, r.window);
  }

  lemma {:induction false} WholesComplete(r: Response, order: Order)
    requires |r.frames| > 0 && Once(order, |r.frames|) && AllDelivered(r, order)
    ensures forall k: nat :: k < |r.frames| ==> k in DeliveredChunks(r, order)
    ensures WholeEvents(DeliveredChunks(r, order), |r.frames|) == AllEvents(r.frames)
  {
    WholesInOrder(r, DeliveredChunks(r, order), |r.frames|);
    assert r.frames[..|r.frames|] == r.frames;
  }

  lemma {:induction false} CompletesWindow(codec: Codec, chunkBytes: Sizer, r: Response, order: Order, w: WindowState)
    requires Carries(codec, chunkBytes, r) && Once(order, |r.frames|) && AllDelivered(r, order) && Progress(codec, r, order, w)
    requires Ready(w)
    ensures var result := CompleteWindow(codec, w).1;
            result.WindowComplete? && result.nextBefore == r.nextBefore && Restores(r, result.events)
  {
    hide RunOf, WholesOf, SumOf, PartsOnce, Numbered, AllSendable, Restores, DistinctIds, EventBytes, AllEvents,
         Missing, WellTyped, OpenStates, Weight, DeliveredChunks, Restored, Once, Acceptable, InScope, Holds;
    WindowBytes(codec, r, order, w);
    CompletedIsWindow(codec, r, order, w);
    WholesComplete(r, order);
    RestoresFrom(r, w.complete);
    assert w.tail == Some((|r.frames| - 1, r.nextBefore));
  }

  lemma {:induction false} ProgressKept(codec: Codec, chunkBytes: Sizer, expected: Option<Scope>, r: Response, order: Order)
    requires codec.Lossless() && Carries(codec, chunkBytes, r) && (expected.Some? ==> expected.value == r.header.scope)
    requires Once(order, |r.frames|)
    ensures !AllDelivered(r, order) ==> Progress(codec, r, order, Receive(codec, chunkBytes, expected, r, order).0)
    ensures order.Next? ==>
              var result := Receive(codec, chunkBytes, expected, r, order).1;
              if AllDelivered(r, order) then
                result.WindowComplete? && result.nextBefore == r.nextBefore && Restores(r, result.events)
              else result == WindowPending
  {
    hide Progress, AcceptChunk, Restores;
    if order.NoChunks? {
      StartsEmpty(codec, r);
    } else {
      assert !AllDelivered(r, order.before);
      ProgressKept(codec, chunkBytes, expected, r, order.before);
      NextChunk(codec, chunkBytes, expected, r, order, Receive(codec, chunkBytes, expected, r, order.before).0);
    }
  }

  lemma {:induction false} NothingAtStart(sent: Sent)
    ensures OpenStates(sent, Start) == map[]
  {
    hide Covered;
  }

  lemma {:induction false} StartsEmpty(codec: Codec, r: Response)
    requires codec.Lossless() && AllSendable(codec, r.header.scope, r.sent)
    ensures Progress(codec, r, NoChunks, EmptyWindow)
  {
    hide Weight, OpenStates;
    assert DeliveredChunks(r, NoChunks) == map[];
    NothingAtStart(r.sent);
    forall id | id in r.sent
      ensures !Covered(r.sent, Start, id)
    {
      SendableSlices(codec, r.header.scope, r.sent[id]);
      assert 0 in Range(|r.sent[id].slices|);
    }
  }

  lemma {:induction false} AcceptsNext(codec: Codec, chunkBytes: Sizer, expected: Option<Scope>, r: Response, order: Order, w: WindowState)
    requires codec.Lossless() && Carries(codec, chunkBytes, r) && (expected.Some? ==> expected.value == r.header.scope)
    requires Once(order, |r.frames|) && order.Next? && Progress(codec, r, order.before, w)
    ensures var applied := ApplyChunk(codec, chunkBytes, expected, w, r.frames[order.chunk]);
            && applied.Some? && Progress(codec, r, order, applied.value)
            && AcceptChunk(codec, chunkBytes, r.header.requestId, expected, w, r.frames[order.chunk])
               == if Ready(applied.value) then Caught(CompleteWindow(codec, applied.value)) else (applied.value, WindowPending)
  {
    hide ApplyChunk, Ready, CompleteWindow, Caught;
    assert r.frames[order.chunk].header == r.header && w.phase.Collecting?;
    ApplyNext(codec, chunkBytes, expected, r, order, w);
  }

  lemma {:induction false} NextChunk(codec: Codec, chunkBytes: Sizer, expected: Option<Scope>, r: Response, order: Order, w: WindowState)
    requires codec.Lossless() && Carries(codec, chunkBytes, r) && (expected.Some? ==> expected.value == r.header.scope)
    requires Once(order, |r.frames|) && order.Next? && Progress(codec, r, order.before, w)
    ensures var (after, result) := AcceptChunk(codec, chunkBytes, r.header.requestId, expected, w, r.frames[order.chunk]);
            if AllDelivered(r, order) then
              result.WindowComplete? && result.nextBefore == r.nextBefore && Restores(r, result.events)
            else result == WindowPending && Progress(codec, r, order, after)
  {
    hide Progress, PartsOnce, ApplyChunk, AcceptChunk, Restores, CompleteWindow, AllDelivered;
    assert |r.frames| > 0 && PartsOnce(codec, r);
    AcceptsNext(codec, chunkBytes, expected, r, order, w);
    var next := ApplyChunk(codec, chunkBytes, expected, w, r.frames[order.chunk]).value;
    ReadyWhenAllDelivered(codec, r, order, next);
    if AllDelivered(r, order) {
      CompletesWindow(codec, chunkBytes, r, order, next);
    }
  }

  /**
   However the chunks of a response are ordered, the window is pending until the last of them arrives; then it
   completes with exactly the events that were sent and with the token for older history. It is never discarded.
   */
  lemma {:induction false} Reassembles(codec: Codec, chunkBytes: Sizer, expected: Option<Scope>, r: Response, order: Order)
    requires codec.Lossless() && Carries(codec, chunkBytes, r) && (expected.Some? ==> expected.value == r.header.scope)
    requires Once(order, |r.frames|) && order.Next?
    ensures var result := Receive(codec, chunkBytes, expected, r, order).1;
            if |Delivered(order)| < |r.frames| then result == WindowPending
            else result.WindowComplete? && result.nextBefore == r.nextBefore && Restores(r, result.events)
  {
    hide Carries, Receive, Restores;
    ProgressKept(codec, chunkBytes, expected, r, order);
    DeliveredCount(order, |r.frames|);
  }
}
