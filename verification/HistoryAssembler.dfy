/**
 The browser's assembler of one history response: chunks arrive in any order, whole events are kept as they come,
 fragments go to fragment states, and the window completes when the chunk numbers are contiguous up to the final one.
 */
module HistoryAssembler {
  import opened Bytes
  import opened Timeline
  import opened FragmentTransfer
  import opened FragmentAssembler

  datatype Header = Header(requestId: string, scope: Scope, snapshotHead: string)

  /** The last chunk says where older history continues; no token there means the end of the stream. */
  datatype Tail = More | Final(nextBefore: Option<string>)

  datatype Chunk = Chunk(header: Header, index: nat, events: seq<TimelineEvent>, fragments: seq<Fragment>, tail: Tail)

  /** Encoded size of a chunk frame; nothing is assumed about it. */
  type Sizer = Chunk -> nat

  predicate SchemaValid(chunk: Chunk) {
    && |chunk.events| <= MAX_ARRAY_ITEMS
    && |chunk.fragments| <= MAX_ARRAY_ITEMS
    && (forall i, j :: 0 <= i < j < |chunk.fragments| ==> chunk.fragments[i].eventId != chunk.fragments[j].eventId)
    && (forall i, j :: 0 <= i < |chunk.events| && 0 <= j < |chunk.fragments| ==>
          chunk.events[i].id != chunk.fragments[j].eventId)
    && forall j :: 0 <= j < |chunk.fragments| ==> WellFormed(chunk.fragments[j])
  }

  function Pieces(chunk: Chunk): (pieces: seq<Piece>)
    ensures |pieces| == |chunk.fragments|
  {
    seq(|chunk.fragments|, j requires 0 <= j < |chunk.fragments| => DecodeFragment(chunk.fragments[j]))
  }

  /** Both ends hold a chunk to this: the schema, the chunk size and every fragment's decoded size. */
  predicate Acceptable(chunkBytes: Sizer, chunk: Chunk) {
    && SchemaValid(chunk)
    && chunkBytes(chunk) <= MAX_HISTORY_CHUNK_BYTES
    && forall j :: 0 <= j < |chunk.fragments| ==> Pieces(chunk)[j].bytes.Some?
  }

  // ----- State -----

  datatype Phase = Collecting | Completed | Rejected

  datatype WindowState = WindowState(
    phase: Phase,
    chunks: map<nat, Chunk>,
    fragments: FragmentStates,
    complete: seq<TimelineEvent>,   // in the order they completed
    formal: set<string>,
    scope: Option<Header>,
    total: nat,
    tail: Option<(nat, Option<string>)>)

  const EmptyWindow := WindowState(Collecting, map[], map[], [], {}, None, 0, None)

  const DiscardedWindow := EmptyWindow.(phase := Rejected)

  datatype WindowResult =
    | WindowPending
    | WindowComplete(events: seq<TimelineEvent>, nextBefore: Option<string>)
    | WindowDiscarded
    | WindowIgnored
    | WindowThrew

  // ----- Applying one chunk -----

  function EventBytes(codec: Codec, events: seq<TimelineEvent>): nat {
    if |events| == 0 then 0 else EventBytes(codec, events[..|events| - 1]) + codec.Size(events[|events| - 1])
  }

  function PieceSize(p: Piece): nat { if p.bytes.Some? then |p.bytes.value| else 0 }

  function PieceBytes(pieces: seq<Piece>): nat {
    if |pieces| == 0 then 0 else PieceBytes(pieces[..|pieces| - 1]) + PieceSize(pieces[|pieces| - 1])
  }

  function ChunkWeight(codec: Codec, chunk: Chunk): nat {
    EventBytes(codec, chunk.events) + PieceBytes(Pieces(chunk))
  }

  function ApplyEvent(w: WindowState, scope: Scope, event: TimelineEvent): Option<WindowState> {
    if !InScope(event, scope) || event.id in w.formal || HasEvent(w.complete, event.id) || event.id in w.fragments then None
    else Some(w.(formal := w.formal + {event.id}, complete := w.complete + [event]))
  }

  function ApplyEvents(w: WindowState, scope: Scope, events: seq<TimelineEvent>): Option<WindowState> {
    if |events| == 0 then Some(w)
    else match ApplyEvents(w, scope, events[..|events| - 1])
         case None => None
         case Some(before) => ApplyEvent(before, scope, events[|events| - 1])
  }

  function ApplyPiece(codec: Codec, w: WindowState, scope: Scope, p: Piece): Option<WindowState> {
    if p.eventId in w.formal || HasEvent(w.complete, p.eventId) then None
    else
      var (added, outcome) := AddFragment(w.fragments, p);
      if outcome.Threw? || outcome.Discarded? then None
      else
        var (left, result) := FinishFragment(codec, added, p.eventId, scope);
        match result
        case Pending => Some(w.(fragments := left))
        case Discard(_) => None
        case Complete(event) =>
          if HasEvent(w.complete, event.id) then None
          else Some(w.(fragments := left, complete := w.complete + [event]))
  }

  function ApplyPieces(codec: Codec, w: WindowState, scope: Scope, pieces: seq<Piece>): Option<WindowState> {
    if |pieces| == 0 then Some(w)
    else match ApplyPieces(codec, w, scope, pieces[..|pieces| - 1])
         case None => None
         case Some(before) => ApplyPiece(codec, before, scope, pieces[|pieces| - 1])
  }

  predicate ScopeAgrees(w: WindowState, expected: Option<Scope>, header: Header) {
    && (expected.Some? ==> header.scope == expected.value)
    && (w.scope.Some? ==>
          && header.scope == w.scope.value.scope
          && (w.scope.value.snapshotHead == "" || header.snapshotHead == w.scope.value.snapshotHead))
  }

  /** The chunk number is new, lies below a known final number, and a final chunk is the only one and the highest. */
  predicate FitsTail(w: WindowState, chunk: Chunk) {
    && chunk.index !in w.chunks
    && (w.tail.Some? ==> chunk.index <= w.tail.value.0 && chunk.tail.More?)
    && (chunk.tail.Final? ==> forall k :: k in w.chunks ==> k <= chunk.index)
  }

  /** Header, numbering and byte total of a chunk; its contents are applied afterwards. */
  function Register(codec: Codec, chunkBytes: Sizer, expected: Option<Scope>, w: WindowState, chunk: Chunk): Option<WindowState> {
    if !Acceptable(chunkBytes, chunk) || !ScopeAgrees(w, expected, chunk.header) || !FitsTail(w, chunk)
       || w.total + ChunkWeight(codec, chunk) > MAX_WINDOW_BYTES then None
    else
      Some(w.(chunks := w.chunks[chunk.index := chunk],
              scope := if w.scope.Some? then w.scope else Some(chunk.header),
              total := w.total + ChunkWeight(codec, chunk),
              tail := if chunk.tail.Final? then Some((chunk.index, chunk.tail.nextBefore)) else w.tail))
  }

  function ApplyChunk(codec: Codec, chunkBytes: Sizer, expected: Option<Scope>, w: WindowState, chunk: Chunk): Option<WindowState> {
    match Register(codec, chunkBytes, expected, w, chunk)
    case None => None
    case Some(registered) =>
      match ApplyEvents(registered, chunk.header.scope, chunk.events)
      case None => None
      case Some(withEvents) => ApplyPieces(codec, withEvents, chunk.header.scope, Pieces(chunk))
  }

  // ----- Completing the window -----

  predicate Contiguous(chunks: map<nat, Chunk>, last: nat) {
    last + 1 == |chunks| && forall k: nat :: k <= last ==> k in chunks
  }

  predicate Ready(w: WindowState) {
    w.tail.Some? && Contiguous(w.chunks, w.tail.value.0) && |w.fragments| == 0
  }

  /** The whole events of chunks 0 to n-1, in chunk order. */
  function WholeEvents(chunks: map<nat, Chunk>, n: nat): seq<TimelineEvent>
    requires forall k: nat :: k < n ==> k in chunks
  {
    if n == 0 then [] else WholeEvents(chunks, n - 1) + chunks[n - 1].events
  }

  /** The events of `events` that do not appear among `others`. */
  function Missing(events: seq<TimelineEvent>, others: seq<TimelineEvent>): seq<TimelineEvent> {
    if |events| == 0 then []
    else
      var last := events[|events| - 1];
      Missing(events[..|events| - 1], others) + if HasEvent(others, last.id) then [] else [last]
  }

  /** Completing throws where the events are too large, and leaves the window as it is. */
  function CompleteWindow(codec: Codec, w: WindowState): (WindowState, WindowResult)
    requires Ready(w)
  {
    if EventBytes(codec, w.complete) > MAX_WINDOW_BYTES then (w, WindowThrew)
    else
      var whole := WholeEvents(w.chunks, w.tail.value.0 + 1);
      (w.(phase := Completed), WindowComplete(whole + Missing(w.complete, whole), w.tail.value.1))
  }

  /** A chunk that makes completing throw discards the window. */
  function Caught(outcome: (WindowState, WindowResult)): (WindowState, WindowResult) {
    if outcome.1.WindowThrew? then (DiscardedWindow, WindowDiscarded) else outcome
  }

  function AcceptChunk(codec: Codec, chunkBytes: Sizer, requestId: string, expected: Option<Scope>, w: WindowState, chunk: Chunk)
    : (WindowState, WindowResult)
  {
    if !w.phase.Collecting? || chunk.header.requestId != requestId then (w, WindowIgnored)
    else
      match ApplyChunk(codec, chunkBytes, expected, w, chunk)
      case None => (DiscardedWindow, WindowDiscarded)
      case Some(next) => if Ready(next) then Caught(CompleteWindow(codec, next)) else (next, WindowPending)
  }

  function Finalize(codec: Codec, w: WindowState): (WindowState, WindowResult) {
    if !w.phase.Collecting? then (w, WindowIgnored)
    else if !Ready(w) then (DiscardedWindow, WindowDiscarded)
    else CompleteWindow(codec, w)
  }

  function TakeChunks(codec: Codec, chunkBytes: Sizer, requestId: string, expected: Option<Scope>, chunks: seq<Chunk>): WindowState {
    if |chunks| == 0 then EmptyWindow
    else
      AcceptChunk(codec, chunkBytes, requestId, expected,
                  TakeChunks(codec, chunkBytes, requestId, expected, chunks[..|chunks| - 1]), chunks[|chunks| - 1]).0
  }

  /**
   A window completes with the chunk that makes it ready, so finalizing after any chunks finds nothing to complete:
   it discards an open window, ignores any other and never throws.
   */
  lemma {:induction false} FinalizeOnlyDiscards(codec: Codec, chunkBytes: Sizer, requestId: string, expected: Option<Scope>,
                                                chunks: seq<Chunk>)
    ensures var w := TakeChunks(codec, chunkBytes, requestId, expected, chunks);
            Finalize(codec, w) == if w.phase.Collecting? then (DiscardedWindow, WindowDiscarded) else (w, WindowIgnored)
  {
    hide ApplyChunk;
    if |chunks| > 0 {
      FinalizeOnlyDiscards(codec, chunkBytes, requestId, expected, chunks[..|chunks| - 1]);
    }
  }

  // ----- The class -----

  ghost predicate HoldsEventsOf(held: seq<TimelineEvent>, chunks: map<nat, Chunk>) {
    forall k, j :: k in chunks && 0 <= j < |chunks[k].events| ==> chunks[k].events[j] in held
  }

  /** What every window keeps: the whole events of stored chunks are held, once each, and fragments are accounted for. */
  ghost predicate Coherent(w: WindowState) {
    AllAccounted(w.fragments) && HoldsEventsOf(w.complete, w.chunks) && DistinctIds(w.complete)
  }

  lemma {:induction false} EventsApplied(w: WindowState, scope: Scope, events: seq<TimelineEvent>)
    requires DistinctIds(w.complete) && ApplyEvents(w, scope, events).Some?
    ensures var after := ApplyEvents(w, scope, events).value;
            && after == w.(formal := after.formal, complete := w.complete + events)
            && DistinctIds(after.complete)
  {
    if |events| > 0 {
      EventsApplied(w, scope, events[..|events| - 1]);
      assert w.complete + events == w.complete + events[..|events| - 1] + [events[|events| - 1]];
    } else {
      assert w.complete + events == w.complete;
    }
  }

  lemma {:induction false} PieceApplied(codec: Codec, w: WindowState, scope: Scope, p: Piece)
    requires AllAccounted(w.fragments) && DistinctIds(w.complete) && ApplyPiece(codec, w, scope, p).Some?
    ensures var after := ApplyPiece(codec, w, scope, p).value;
            && after == w.(fragments := after.fragments, complete := after.complete)
            && AllAccounted(after.fragments) && w.complete <= after.complete && DistinctIds(after.complete)
  {
    hide AddFragment, Accounted, ReadyBytes, ParseAssembled;
    AddKeepsAccounts(w.fragments, p);
  }

  lemma {:induction false} PiecesApplied(codec: Codec, w: WindowState, scope: Scope, pieces: seq<Piece>)
    requires AllAccounted(w.fragments) && DistinctIds(w.complete) && ApplyPieces(codec, w, scope, pieces).Some?
    ensures var after := ApplyPieces(codec, w, scope, pieces).value;
            && after == w.(fragments := after.fragments, complete := after.complete)
            && AllAccounted(after.fragments) && w.complete <= after.complete && DistinctIds(after.complete)
  {
    hide ApplyPiece, AllAccounted, DistinctIds;
    if |pieces| > 0 {
      PiecesApplied(codec, w, scope, pieces[..|pieces| - 1]);
      PieceApplied(codec, ApplyPieces(codec, w, scope, pieces[..|pieces| - 1]).value, scope, pieces[|pieces| - 1]);
    }
  }

  lemma {:induction false} HoldsNewChunk(held: seq<TimelineEvent>, chunks: map<nat, Chunk>, chunk: Chunk, after: seq<TimelineEvent>)
    requires HoldsEventsOf(held, chunks) && held + chunk.events <= after
    ensures HoldsEventsOf(after, chunks[chunk.index := chunk])
  {
    forall j | 0 <= j < |chunk.events|
      ensures chunk.events[j] in after
    {
      assert after[|held| + j] == chunk.events[j];
    }
    forall e | e in held
      ensures e in after
    {
      var i :| 0 <= i < |held| && held[i] == e;
      assert after[i] == e;
    }
  }

  lemma {:induction false} ApplyKeepsCoherence(codec: Codec, chunkBytes: Sizer, expected: Option<Scope>, w: WindowState, chunk: Chunk)
    requires Coherent(w) && ApplyChunk(codec, chunkBytes, expected, w, chunk).Some?
    ensures Coherent(ApplyChunk(codec, chunkBytes, expected, w, chunk).value)
  {
    hide ApplyEvents, ApplyPieces, AllAccounted, DistinctIds, HoldsEventsOf, Acceptable, ChunkWeight, FitsTail, ScopeAgrees;
    var registered := Register(codec, chunkBytes, expected, w, chunk).value;
    EventsApplied(registered, chunk.header.scope, chunk.events);
    var withEvents := ApplyEvents(registered, chunk.header.scope, chunk.events).value;
    PiecesApplied(codec, withEvents, chunk.header.scope, Pieces(chunk));
    var after := ApplyPieces(codec, withEvents, chunk.header.scope, Pieces(chunk)).value;
    HoldsNewChunk(w.complete, w.chunks, chunk, after.complete);
  }

  function Get(events: seq<TimelineEvent>, id: string): (e: TimelineEvent)
    requires HasEvent(events, id)
    ensures e in events && e.id == id
  {
    var last := events[|events| - 1];
    if last.id == id then last else Get(events[..|events| - 1], id)
  }

  class HistoryWindowAssembler {
    const codec: Codec
    const chunkBytes: Sizer
    const inReplyTo: string
    const expectedScope: Option<Scope>
    var phase: Phase
    var chunks: map<nat, Chunk>
    var fragmentStates: FragmentStates
    var completeEvents: seq<TimelineEvent>
    var formalEventIds: set<string>
    var scope: Option<Header>
    var totalDecodedBytes: nat
    var finalTail: Option<(nat, Option<string>)>

    function State(): WindowState
      reads this
    {
      WindowState(phase, chunks, fragmentStates, completeEvents, formalEventIds, scope, totalDecodedBytes, finalTail)
    }

    constructor (codec: Codec, chunkBytes: Sizer, inReplyTo: string, expectedScope: Option<Scope>)
      ensures State() == EmptyWindow
      ensures this.codec == codec && this.chunkBytes == chunkBytes
      ensures this.inReplyTo == inReplyTo && this.expectedScope == expectedScope
    {
      this.codec, this.chunkBytes, this.inReplyTo, this.expectedScope := codec, chunkBytes, inReplyTo, expectedScope;
      phase, chunks, fragmentStates, completeEvents := Collecting, map[], map[], [];
      formalEventIds, scope, totalDecodedBytes, finalTail := {}, None, 0, None;
    }

    method Discard() returns (result: WindowResult)
      modifies this
      ensures State() == DiscardedWindow && Coherent(State()) && result == WindowDiscarded
    {
      phase, chunks, fragmentStates, completeEvents := Rejected, map[], map[], [];
      formalEventIds, scope, totalDecodedBytes, finalTail := {}, None, 0, None;
      result := WindowDiscarded;
    }

    method AcceptFrame(chunk: Chunk) returns (result: WindowResult)
      requires Coherent(State())
      modifies this
      ensures Coherent(State())
      ensures (State(), result) == AcceptChunk(codec, chunkBytes, inReplyTo, expectedScope, old(State()), chunk)
    {
      if phase != Collecting || chunk.header.requestId != inReplyTo {
        return WindowIgnored;
      }
      if ApplyChunk(codec, chunkBytes, expectedScope, State(), chunk).Some? {
        ApplyKeepsCoherence(codec, chunkBytes, expectedScope, State(), chunk);
      }
      var applied := TakeChunk(chunk);
      if !applied {
        result := Discard();
        return;
      }
      var ready := IsReady();
      if !ready {
        return WindowPending;
      }
      result := Complete();
      if result.WindowThrew? {
        result := Discard();
      }
    }

    method TakeChunk(chunk: Chunk) returns (ok: bool)
      requires Coherent(State())
      modifies this
      ensures ok <==> ApplyChunk(codec, chunkBytes, expectedScope, old(State()), chunk).Some?
      ensures ok ==> Some(State()) == ApplyChunk(codec, chunkBytes, expectedScope, old(State()), chunk)
    {
      hide Acceptable, ChunkWeight, ScopeAgrees, FitsTail, ApplyEvents, ApplyPieces, AllAccounted, HoldsEventsOf;
      if !Acceptable(chunkBytes, chunk) || !ScopeAgrees(State(), expectedScope, chunk.header) || !FitsTail(State(), chunk) {
        return false;
      }
      if scope.None? {
        scope := Some(chunk.header);
      }
      if chunk.tail.Final? {
        finalTail := Some((chunk.index, chunk.tail.nextBefore));
      }
      chunks := chunks[chunk.index := chunk];
      totalDecodedBytes := totalDecodedBytes + ChunkWeight(codec, chunk);
      if totalDecodedBytes > MAX_WINDOW_BYTES {
        return false;
      }
      ok := AcceptEvents(chunk.header.scope, chunk.events);
      if ok {
        ok := AcceptPieces(chunk.header.scope, Pieces(chunk));
      }
    }

    method IsReady() returns (ready: bool)
      ensures ready <==> Ready(State())
    {
      if finalTail.None? || |fragmentStates| > 0 || finalTail.value.0 + 1 != |chunks| {
        return false;
      }
      var index := 0;
      while index <= finalTail.value.0
        invariant index <= finalTail.value.0 + 1
        invariant forall k: nat :: k < index ==> k in chunks
      {
        if index !in chunks {
          return false;
        }
        index := index + 1;
      }
      return true;
    }

    method Complete() returns (result: WindowResult)
      requires Ready(State()) && Coherent(State())
      modifies this
      ensures Coherent(State()) && (State(), result) == CompleteWindow(codec, old(State()))
    {
      var whole := CollectWholes();
      var events := AppendOthers(whole);
      if EventBytes(codec, completeEvents) > MAX_WINDOW_BYTES {
        return WindowThrew;
      }
      phase := Completed;
      result := WindowComplete(events, finalTail.value.1);
    }

    method CollectWholes() returns (whole: seq<TimelineEvent>)
      requires Ready(State()) && Coherent(State())
      ensures whole == WholeEvents(chunks, finalTail.value.0 + 1)
    {
      hide AllAccounted, HasEvent;
      var last := finalTail.value.0;
      whole := [];
      var index := 0;
      while index <= last
        invariant index <= last + 1
        invariant whole == WholeEvents(chunks, index)
      {
        var stored := chunks[index].events;
        var i := 0;
        while i < |stored|
          invariant 0 <= i <= |stored|
          invariant whole == WholeEvents(chunks, index) + stored[..i]
        {
          assert stored[i] in completeEvents;
          GetFindsEvent(completeEvents, stored[i]);
          whole := whole + [Get(completeEvents, stored[i].id)];
          assert stored[..i + 1] == stored[..i] + [stored[i]];
          i := i + 1;
        }
        assert stored[..i] == stored;
        index := index + 1;
      }
    }

    method AppendOthers(whole: seq<TimelineEvent>) returns (events: seq<TimelineEvent>)
      ensures events == whole + Missing(completeEvents, whole)
    {
      events := whole;
      var n := 0;
      while n < |completeEvents|
        invariant 0 <= n <= |completeEvents|
        invariant events == whole + Missing(completeEvents[..n], whole)
      {
        assert completeEvents[..n + 1][..n] == completeEvents[..n];
        if !HasEvent(whole, completeEvents[n].id) {
          events := events + [completeEvents[n]];
        }
        n := n + 1;
      }
      assert completeEvents[..n] == completeEvents;
    }

    method FinalizeWindow() returns (result: WindowResult)
      requires Coherent(State())
      modifies this
      ensures Coherent(State()) && (State(), result) == Finalize(codec, old(State()))
    {
      if phase != Collecting {
        return WindowIgnored;
      }
      var ready := IsReady();
      if !ready {
        result := Discard();
        return;
      }
      result := Complete();
    }

    method AcceptEvents(scope: Scope, events: seq<TimelineEvent>) returns (ok: bool)
      modifies `formalEventIds, `completeEvents
      ensures ok <==> ApplyEvents(old(State()), scope, events).Some?
      ensures ok ==> Some(State()) == ApplyEvents(old(State()), scope, events)
    {
      var i := 0;
      while i < |events|
        invariant 0 <= i <= |events|
        invariant Some(State()) == ApplyEvents(old(State()), scope, events[..i])
      {
        assert events[..i + 1][..i] == events[..i];
        var event := events[i];
        if !InScope(event, scope) || event.id in formalEventIds || HasEvent(completeEvents, event.id)
           || event.id in fragmentStates {
          EventsStayFailed(old(State()), scope, events, i + 1);
          return false;
        }
        formalEventIds := formalEventIds + {event.id};
        completeEvents := completeEvents + [event];
        i := i + 1;
      }
      assert events[..i] == events;
      return true;
    }

    method AcceptPieces(scope: Scope, pieces: seq<Piece>) returns (ok: bool)
      requires AllAccounted(fragmentStates)
      modifies `fragmentStates, `completeEvents
      ensures ok <==> ApplyPieces(codec, old(State()), scope, pieces).Some?
      ensures ok ==> Some(State()) == ApplyPieces(codec, old(State()), scope, pieces)
    {
      var i := 0;
      while i < |pieces|
        invariant 0 <= i <= |pieces|
        invariant AllAccounted(fragmentStates)
        invariant Some(State()) == ApplyPieces(codec, old(State()), scope, pieces[..i])
      {
        assert pieces[..i + 1][..i] == pieces[..i];
        var applied := AcceptPiece(scope, pieces[i]);
        if !applied {
          PiecesStayFailed(codec, old(State()), scope, pieces, i + 1);
          return false;
        }
        i := i + 1;
      }
      assert pieces[..i] == pieces;
      return true;
    }

    method AcceptPiece(scope: Scope, p: Piece) returns (ok: bool)
      requires AllAccounted(fragmentStates)
      modifies `fragmentStates, `completeEvents
      ensures ok <==> ApplyPiece(codec, old(State()), scope, p).Some?
      ensures ok ==> Some(State()) == ApplyPiece(codec, old(State()), scope, p)
      ensures ok ==> AllAccounted(fragmentStates)
    {
      hide AddFragment, Accounted, ReadyBytes, ParseAssembled;
      if p.eventId in formalEventIds || HasEvent(completeEvents, p.eventId) {
        return false;
      }
      AddKeepsAccounts(fragmentStates, p);
      var (added, outcome) := AddFragment(fragmentStates, p);
      if outcome.Threw? || outcome.Discarded? {
        return false;
      }
      fragmentStates := added;
      EmptyStateIsAccounted();
      var ready := JoinEntries(StateOf(fragmentStates, p.eventId));
      if ready.None? {
        return true;
      }
      var result := ParseAssembled(codec, p.eventId, scope, ready.value);
      if !result.Complete? || HasEvent(completeEvents, result.event.id) {
        return false;
      }
      fragmentStates := fragmentStates - {p.eventId};
      completeEvents := completeEvents + [result.event];
      return true;
    }
  }

  lemma {:induction false} GetFindsEvent(events: seq<TimelineEvent>, event: TimelineEvent)
    requires DistinctIds(events) && event in events
    ensures HasEvent(events, event.id) && Get(events, event.id) == event
  {
    var i :| 0 <= i < |events| && events[i] == event;
    var last := events[|events| - 1];
    if last.id != event.id {
      assert events[..|events| - 1][i] == event;
      GetFindsEvent(events[..|events| - 1], event);
    }
  }

  lemma {:induction false} EmptyStateIsAccounted()
    ensures Accounted(NoFragments)
  {
  }

  lemma {:induction false} EventsStayFailed(w: WindowState, scope: Scope, events: seq<TimelineEvent>, n: nat)
    requires n <= |events| && ApplyEvents(w, scope, events[..n]).None?
    ensures ApplyEvents(w, scope, events).None?
    decreases |events| - n
  {
    if n < |events| {
      assert events[..n + 1][..n] == events[..n];
      EventsStayFailed(w, scope, events, n + 1);
    } else {
      assert events[..n] == events;
    }
  }

  lemma {:induction false} PiecesStayFailed(codec: Codec, w: WindowState, scope: Scope, pieces: seq<Piece>, n: nat)
    requires n <= |pieces| && ApplyPieces(codec, w, scope, pieces[..n]).None?
    ensures ApplyPieces(codec, w, scope, pieces).None?
    decreases |pieces| - n
  {
    if n < |pieces| {
      assert pieces[..n + 1][..n] == pieces[..n];
      PiecesStayFailed(codec, w, scope, pieces, n + 1);
    } else {
      assert pieces[..n] == pieces;
    }
  }
}
