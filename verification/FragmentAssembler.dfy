/**
 The browser's assembler for events broadcast in fragments, and the fate of a sender's fragments in it: in any
 interleaving of any number of events, with repeats, each event completes exactly once, with its own bytes.
 */
module FragmentAssembler {
  import opened Bytes
  import opened Timeline
  import opened Sums
  import opened Ranges
  import opened FragmentTransfer
  import Base64

  datatype FragmentFrame = FragmentFrame(scope: Scope, fragment: Fragment)

  datatype AssemblerState = AssemblerState(states: FragmentStates, activeBytes: int)

  const EmptyAssembler := AssemblerState(map[], 0)

  function ActiveBytesOf(states: FragmentStates, id: string): nat {
    StateOf(states, id).decodedBytes
  }

  function Without(st: AssemblerState, id: string): AssemblerState {
    AssemblerState(st.states - {id}, st.activeBytes - ActiveBytesOf(st.states, id))
  }

  function AfterAdd(st: AssemblerState, p: Piece): AssemblerState {
    var added := AddFragment(st.states, p).0;
    AssemblerState(added, st.activeBytes + ActiveBytesOf(added, p.eventId) - ActiveBytesOf(st.states, p.eventId))
  }

  /** What follows once a fragment of the event was added, or refused along with the event's other fragments. */
  function Settle(codec: Codec, scope: Scope, st: AssemblerState, id: string, discarded: bool): (AssemblerState, TransferResult) {
    if |st.states| > MAX_ARRAY_ITEMS || st.activeBytes > MAX_WINDOW_BYTES then (EmptyAssembler, Discard(WindowTooLarge))
    else if discarded then (st, Discard(InvalidSequence))
    else
      var (left, result) := FinishFragment(codec, st.states, id, scope);
      if result.Pending? then (AssemblerState(left, st.activeBytes), Pending)
      else (AssemblerState(left, st.activeBytes - ActiveBytesOf(st.states, id)), result)
  }

  /** What one frame does, given its scope and its fragment as decoded. */
  function Accept(codec: Codec, scope: Scope, st: AssemblerState, frameScope: Scope, p: Piece): (AssemblerState, TransferResult) {
    if frameScope != scope then (EmptyAssembler, Discard(ScopeMismatch))
    else
      var outcome := AddFragment(st.states, p).1;
      if outcome.Threw? then (Without(st, p.eventId), Discard(InvalidFragment))
      else Settle(codec, scope, AfterAdd(st, p), p.eventId, outcome.Discarded?)
  }

  // ----- Accounting over arbitrary frames -----

  ghost predicate Balanced(st: AssemblerState) {
    && AllAccounted(st.states)
    && st.activeBytes == SumOf(st.states, StateSize)
    && st.activeBytes <= MAX_WINDOW_BYTES
    && |st.states| <= MAX_ARRAY_ITEMS
  }

  lemma {:induction false} SumReplaced(states: FragmentStates, id: string, s: FragmentState)
    ensures SumOf(states[id := s], StateSize) == SumOf(states, StateSize) - ActiveBytesOf(states, id) + s.decodedBytes
  {
    if id in states {
      SumUpdate(states, StateSize, id, s);
    } else {
      SumInsert(states, StateSize, id, s);
    }
  }

  lemma {:induction false} SumDropped(states: FragmentStates, id: string)
    ensures SumOf(states - {id}, StateSize) == SumOf(states, StateSize) - ActiveBytesOf(states, id)
    ensures |states - {id}| <= |states|
  {
    if id in states {
      SumRemove(states, StateSize, id);
      assert (states - {id}).Keys == states.Keys - {id};
    } else {
      assert states - {id} == states;
    }
  }

  lemma {:induction false} SumAdded(states: FragmentStates, p: Piece)
    ensures var added := AddFragment(states, p).0;
            SumOf(added, StateSize)
            == SumOf(states, StateSize) - ActiveBytesOf(states, p.eventId) + ActiveBytesOf(added, p.eventId)
  {
    hide SumOf, AddFragment;
    AddTouchesOneEvent(states, p);
    var (added, outcome) := AddFragment(states, p);
    if outcome.Added? {
      SumReplaced(states, p.eventId, added[p.eventId]);
    } else if outcome.Discarded? {
      SumDropped(states, p.eventId);
    }
  }

  lemma {:induction false} WithoutKeepsBalance(st: AssemblerState, id: string)
    requires Balanced(st)
    ensures Balanced(Without(st, id))
  {
    hide SumOf, Accounted;
    SumDropped(st.states, id);
  }

  lemma {:induction false} AddKeepsBalance(st: AssemblerState, p: Piece)
    requires Balanced(st)
    requires AfterAdd(st, p).activeBytes <= MAX_WINDOW_BYTES && |AfterAdd(st, p).states| <= MAX_ARRAY_ITEMS
    ensures Balanced(AfterAdd(st, p))
  {
    hide SumOf, Accounted, AddFragment;
    AddKeepsAccounts(st.states, p);
    SumAdded(st.states, p);
  }

  lemma {:induction false} AcceptOutcomes(codec: Codec, scope: Scope, st: AssemblerState, frameScope: Scope, p: Piece)
    ensures var after, next := Accept(codec, scope, st, frameScope, p).0, AfterAdd(st, p);
            || after == EmptyAssembler
            || after == Without(st, p.eventId)
            || (next.activeBytes <= MAX_WINDOW_BYTES && |next.states| <= MAX_ARRAY_ITEMS
                && (after == next || after == Without(next, p.eventId)))
  {
    hide AddFragment, ReadyBytes, ParseAssembled, StateOf;
  }

  /** Whatever frame arrives, `activeBytes` stays the sum of what is held and both limits hold afterwards. */
  lemma {:induction false} AcceptKeepsBalance(codec: Codec, scope: Scope, st: AssemblerState, frameScope: Scope, p: Piece)
    requires Balanced(st)
    ensures Balanced(Accept(codec, scope, st, frameScope, p).0)
  {
    hide Accept, AfterAdd, Without;
    assert Balanced(EmptyAssembler);
    AcceptOutcomes(codec, scope, st, frameScope, p);
    WithoutKeepsBalance(st, p.eventId);
    var next := AfterAdd(st, p);
    if next.activeBytes <= MAX_WINDOW_BYTES && |next.states| <= MAX_ARRAY_ITEMS {
      AddKeepsBalance(st, p);
      WithoutKeepsBalance(next, p.eventId);
    }
  }

  ghost function AcceptAll(codec: Codec, scope: Scope, frames: seq<FragmentFrame>): AssemblerState {
    if |frames| == 0 then EmptyAssembler
    else
      var last := frames[|frames| - 1];
      Accept(codec, scope, AcceptAll(codec, scope, frames[..|frames| - 1]), last.scope, DecodeFragment(last.fragment)).0
  }

  lemma {:induction false} BalanceAlways(codec: Codec, scope: Scope, frames: seq<FragmentFrame>)
    ensures Balanced(AcceptAll(codec, scope, frames))
  {
    if |frames| > 0 {
      var last := frames[|frames| - 1];
      BalanceAlways(codec, scope, frames[..|frames| - 1]);
      AcceptKeepsBalance(codec, scope, AcceptAll(codec, scope, frames[..|frames| - 1]), last.scope,
                         DecodeFragment(last.fragment));
    }
  }

  lemma {:induction false} BeforePiece(codec: Codec, scope: Scope, st: AssemblerState, frameScope: Scope, p: Piece)
    requires Balanced(st)
    ensures Balanced(Accept(codec, scope, st, frameScope, p).0) && AllAccounted(AddFragment(st.states, p).0)
    ensures var (added, outcome) := AddFragment(st.states, p);
            outcome.Discarded? ==> ActiveBytesOf(added, p.eventId) == 0
  {
    hide Accept, AddFragment;
    AcceptKeepsBalance(codec, scope, st, frameScope, p);
    DiscardDrops(st.states, p);
    AddKeepsAccounts(st.states, p);
  }

  lemma {:induction false} DiscardDrops(states: FragmentStates, p: Piece)
    ensures var (added, outcome) := AddFragment(states, p);
            outcome.Discarded? ==> ActiveBytesOf(added, p.eventId) == 0
  {
    hide AddFragment;
    AddTouchesOneEvent(states, p);
  }

  // ----- The class -----

  /** Copies the entries into one buffer of `decodedBytes` bytes; the accounting is what keeps the copy in bounds. */
  method JoinEntries(state: FragmentState) returns (bytes: Option<seq<byte>>)
    requires Accounted(state)
    ensures bytes == ReadyBytes(state)
  {
    if state.finalIndex.None? || state.finalIndex.value + 1 != |state.entries| {
      return None;
    }
    var last := state.finalIndex.value;
    var encoded := new byte[state.decodedBytes](_ => 0);
    var offset, index := 0, 0;
    while index <= last
      invariant index <= last + 1
      invariant Assemble(state.entries, index).Some? && offset == |Assemble(state.entries, index).value| <= encoded.Length
      invariant encoded[..offset] == Assemble(state.entries, index).value
    {
      if index !in state.entries {
        MissingEntry(state.entries, index, last + 1);
        return None;
      }
      var entry := state.entries[index].bytes;
      AssembledFits(state.entries, index + 1);
      ghost var before := encoded[..offset];
      forall i | 0 <= i < |entry| {
        encoded[offset + i] := entry[i];
      }
      assert encoded[..offset + |entry|] == before + entry;
      offset := offset + |entry|;
      index := index + 1;
    }
    AssembledFillsBuffer(state, last + 1);
    assert encoded[..] == encoded[..offset];
    return Some(encoded[..]);
  }

  lemma {:induction false} MissingEntry(entries: map<nat, FragmentEntry>, missing: nat, n: nat)
    requires missing !in entries && missing < n
    ensures Assemble(entries, n).None?
  {
    if missing < n - 1 {
      MissingEntry(entries, missing, n - 1);
    }
  }

  lemma {:induction false} AssembledFillsBuffer(state: FragmentState, n: nat)
    requires Accounted(state) && |state.entries| == n && Assemble(state.entries, n).Some?
    ensures |Assemble(state.entries, n).value| == state.decodedBytes
  {
    AssembledFits(state.entries, n);
    OnlyRange(state.entries.Keys, n);
  }

  class TimelineEventFragmentAssembler {
    const codec: Codec
    const scope: Scope
    var states: FragmentStates
    var activeBytes: int

    ghost predicate Valid()
      reads this
    {
      Balanced(State())
    }

    function State(): AssemblerState
      reads this
    {
      AssemblerState(states, activeBytes)
    }

    constructor (codec: Codec, scope: Scope)
      ensures Valid() && State() == EmptyAssembler && this.codec == codec && this.scope == scope
    {
      this.codec, this.scope, states, activeBytes := codec, scope, map[], 0;
    }

    method AcceptFrame(frame: FragmentFrame) returns (result: TransferResult)
      requires Valid()
      modifies this
      ensures Valid()
      ensures (State(), result) == Accept(codec, scope, old(State()), frame.scope, DecodeFragment(frame.fragment))
    {
      result := AcceptPiece(frame.scope, DecodeFragment(frame.fragment));
    }

    method AcceptPiece(frameScope: Scope, p: Piece) returns (result: TransferResult)
      requires Valid()
      modifies this
      ensures Valid() && (State(), result) == Accept(codec, scope, old(State()), frameScope, p)
    {
      hide AddFragment, AllAccounted, Balanced, Settle, StateOf;
      BeforePiece(codec, scope, State(), frameScope, p);
      if frameScope != scope {
        Reset();
        return Discard(ScopeMismatch);
      }
      var previousBytes := ActiveBytesOf(states, p.eventId);
      var (added, outcome) := AddFragment(states, p);
      if outcome.Threw? {
        states := states - {p.eventId};
        activeBytes := activeBytes - previousBytes;
        return Discard(InvalidFragment);
      }
      states := added;
      var nextBytes := ActiveBytesOf(states, p.eventId);
      activeBytes := activeBytes + nextBytes - previousBytes;
      assert State() == AfterAdd(old(State()), p);
      result := SettleStream(p.eventId, outcome.Discarded?);
    }

    method SettleStream(eventId: string, discarded: bool) returns (result: TransferResult)
      requires AllAccounted(states) && (discarded ==> ActiveBytesOf(states, eventId) == 0)
      modifies this
      ensures (State(), result) == Settle(codec, scope, old(State()), eventId, discarded)
    {
      hide AllAccounted, Balanced, FinishFragment, StateOf;
      var nextBytes := ActiveBytesOf(states, eventId);
      if |states| > MAX_ARRAY_ITEMS || activeBytes > MAX_WINDOW_BYTES {
        Reset();
        return Discard(WindowTooLarge);
      }
      if discarded {
        activeBytes := activeBytes - nextBytes;
        return Discard(InvalidSequence);
      }
      result := FinishStream(eventId);
      if !result.Pending? {
        activeBytes := activeBytes - nextBytes;
      }
    }

    method FinishStream(eventId: string) returns (result: TransferResult)
      requires AllAccounted(states)
      modifies `states
      ensures (states, result) == FinishFragment(codec, old(states), eventId, scope)
    {
      hide ReadyBytes, ParseAssembled;
      assert Accounted(StateOf(states, eventId));
      var ready := JoinEntries(StateOf(states, eventId));
      if ready.None? {
        return Pending;
      }
      result := ParseAssembled(codec, eventId, scope, ready.value);
      states := states - {eventId};
    }

    method Reset()
      modifies this
      ensures Valid() && State() == EmptyAssembler
    {
      states := map[];
      activeBytes := 0;
    }
  }
}
