/**
 What becomes of a sender's fragments in the receiver's fragment states. The fragments of one event may arrive
 in any order; several events may interleave; a fragment may repeat until its event is complete.
 */
module FragmentStreams {
  import opened Bytes
  import opened Timeline
  import opened Sums
  import opened Ranges
  import opened FragmentTransfer
  import opened FragmentAssembler
  import Base64

  // ----- One event -----

  /** An event on its way, with the slices its sender cut. */
  datatype Stream = Stream(event: TimelineEvent, slices: seq<seq<byte>>)

  ghost predicate Sendable(codec: Codec, scope: Scope, s: Stream) {
    && 1 <= |s.event.id| <= MAX_ID_CHARS
    && InScope(s.event, scope)
    && codec.Size(s.event) <= MAX_WINDOW_BYTES
    && s.slices == Slices(codec.serialize(s.event))
  }

  ghost function PieceAt(id: string, slices: seq<seq<byte>>, i: nat): Piece
    requires i < |slices|
  {
    Piece(id, i, i == |slices| - 1, Some(slices[i]))
  }

  lemma {:induction false} SendableSlices(codec: Codec, scope: Scope, s: Stream)
    requires codec.Lossless() && Sendable(codec, scope, s)
    ensures 0 < |s.slices| <= MAX_ARRAY_ITEMS
    ensures Flatten(s.slices) == codec.serialize(s.event)
  {
    SlicesShape(codec.serialize(s.event));
    FlattenSlices(codec.serialize(s.event));
  }

  lemma {:induction false} DecodesToPiece(codec: Codec, scope: Scope, s: Stream, i: nat)
    requires Sendable(codec, scope, s) && i < |s.slices|
    ensures DecodeFragment(FragmentsOf(codec, s.event)[i]) == PieceAt(s.event.id, s.slices, i)
  {
    SlicesShape(codec.serialize(s.event));
    Base64.EncodeIsPadded(s.slices[i]);
  }

  ghost predicate Within(got: set<nat>, slices: seq<seq<byte>>) {
    forall i :: i in got ==> i < |slices|
  }

  ghost function EntryAt(slices: seq<seq<byte>>, i: nat): FragmentEntry
    requires i < |slices|
  {
    FragmentEntry(slices[i], i == |slices| - 1)
  }

  ghost function EntriesOf(slices: seq<seq<byte>>, got: set<nat>): map<nat, FragmentEntry> {
    map i | i in got && i < |slices| :: EntryAt(slices, i)
  }

  /** The state of an event of which exactly the slices in `got` have arrived. */
  ghost function PartialState(slices: seq<seq<byte>>, got: set<nat>): FragmentState {
    FragmentState(EntriesOf(slices, got),
                  if |slices| > 0 && |slices| - 1 in got then Some(|slices| - 1) else None,
                  SumOf(EntriesOf(slices, got), EntrySize))
  }

  lemma {:induction false} NothingArrived(slices: seq<seq<byte>>)
    ensures PartialState(slices, {}) == NoFragments
  {
    assert EntriesOf(slices, {}) == map[];
  }

  lemma {:induction false} EntryOf(slices: seq<seq<byte>>, got: set<nat>, i: nat)
    requires i in got && i < |slices|
    ensures i in EntriesOf(slices, got) && EntriesOf(slices, got)[i].bytes == slices[i]
  {
  }

  lemma {:induction false} AssembleEntries(slices: seq<seq<byte>>, got: set<nat>, n: nat)
    requires Within(got, slices) && n <= |slices| && Range(n) <= got
    ensures Assemble(EntriesOf(slices, got), n) == Some(Flatten(slices[..n]))
  {
    hide Within, EntriesOf;
    if n > 0 {
      AssembleEntries(slices, got, n - 1);
      EntryOf(slices, got, n - 1);
      assert slices[..n][..n - 1] == slices[..n - 1];
    }
  }

  lemma {:induction false} PartialSize(slices: seq<seq<byte>>, got: set<nat>)
    requires Within(got, slices)
    ensures PartialState(slices, got).decodedBytes <= |Flatten(slices)|
  {
    var all := Range(|slices|);
    AssembleEntries(slices, all, |slices|);
    AssembledFits(EntriesOf(slices, all), |slices|);
    assert slices[..|slices|] == slices;
    SumOfPart(EntriesOf(slices, got), EntriesOf(slices, all), EntrySize);
  }

  lemma {:induction false} ExtendPartial(slices: seq<seq<byte>>, got: set<nat>, id: string, i: nat)
    requires Within(got, slices) && i < |slices| && i !in got
    ensures Extend(PartialState(slices, got), PieceAt(id, slices, i)) == PartialState(slices, got + {i})
  {
    SumInsert(EntriesOf(slices, got), EntrySize, i, EntryAt(slices, i));
    assert EntriesOf(slices, got)[i := EntryAt(slices, i)] == EntriesOf(slices, got + {i});
  }

  lemma {:induction false} NewPieceInSequence(slices: seq<seq<byte>>, got: set<nat>, id: string, i: nat)
    requires Within(got, slices) && i < |slices| <= MAX_ARRAY_ITEMS && i !in got
    ensures !OutOfSequence(PartialState(slices, got), PieceAt(id, slices, i))
    ensures i !in PartialState(slices, got).entries
  {
    hide SumOf, Range;
    CardinalityBelow(got, |slices|);
    assert EntriesOf(slices, got).Keys == got;
  }

  lemma {:induction false} AddNewPiece(states: FragmentStates, slices: seq<seq<byte>>, got: set<nat>, id: string, i: nat)
    requires Within(got, slices) && i < |slices| && i !in got
    requires |slices| <= MAX_ARRAY_ITEMS && |Flatten(slices)| <= MAX_WINDOW_BYTES
    requires StateOf(states, id) == PartialState(slices, got)
    ensures AddFragment(states, PieceAt(id, slices, i)) == (states[id := PartialState(slices, got + {i})], Added)
  {
    hide Flatten, OutOfSequence, Extend, PartialState;
    NewPieceInSequence(slices, got, id, i);
    ExtendPartial(slices, got, id, i);
    PartialSize(slices, got + {i});
  }

  /** Storing a piece, new or repeated, leaves the state that the arrived slices call for. */
  lemma {:induction false} AddPiece(states: FragmentStates, slices: seq<seq<byte>>, got: set<nat>, id: string, i: nat)
    requires Within(got, slices) && i < |slices|
    requires |slices| <= MAX_ARRAY_ITEMS && |Flatten(slices)| <= MAX_WINDOW_BYTES
    requires StateOf(states, id) == PartialState(slices, got)
    ensures var (added, outcome) := AddFragment(states, PieceAt(id, slices, i));
            added == states[id := PartialState(slices, got + {i})] && (outcome.Added? || outcome.Duplicate?)
  {
    hide Flatten;
    if i in got {
      assert got + {i} == got;
      assert i in StateOf(states, id).entries;
      assert id in states;
    } else {
      AddNewPiece(states, slices, got, id, i);
    }
  }

  lemma {:induction false} ReadyWhenComplete(slices: seq<seq<byte>>, got: set<nat>)
    requires Within(got, slices) && |slices| > 0
    ensures ReadyBytes(PartialState(slices, got)) == if got == Range(|slices|) then Some(Flatten(slices)) else None
  {
    assert EntriesOf(slices, got).Keys == got;
    CardinalityBelow(got, |slices|);
    if got == Range(|slices|) {
      AssembleEntries(slices, got, |slices|);
      assert slices[..|slices|] == slices;
    }
  }

  /** An event is complete exactly when every slice has arrived, and then it is the event that was sent. */
  lemma {:induction false} FinishEvent(codec: Codec, scope: Scope, s: Stream, states: FragmentStates, got: set<nat>)
    requires codec.Lossless() && Sendable(codec, scope, s) && Within(got, s.slices)
    requires StateOf(states, s.event.id) == PartialState(s.slices, got)
    ensures FinishFragment(codec, states, s.event.id, scope)
            == if got == Range(|s.slices|) then (states - {s.event.id}, Complete(s.event)) else (states, Pending)
  {
    SendableSlices(codec, scope, s);
    ReadyWhenComplete(s.slices, got);
  }

  // ----- Many events at once -----

  /** The events being broadcast, by id. */
  type Sent = map<string, Stream>

  /** A run of deliveries: slice `index` of event `id` is the last to arrive. */
  datatype Run = Start | Deliver(before: Run, id: string, index: nat)

  ghost predicate AllSendable(codec: Codec, scope: Scope, sent: Sent) {
    forall id :: id in sent ==> sent[id].event.id == id && Sendable(codec, scope, sent[id])
  }

  /** Which slices of an event a run has brought, repeats or not. */
  ghost function Arrived(run: Run, id: string): set<nat> {
    match run
    case Start => {}
    case Deliver(before, last, index) => if last == id then Arrived(before, id) + {index} else Arrived(before, id)
  }

  ghost predicate WellTyped(sent: Sent, run: Run) {
    match run
    case Start => true
    case Deliver(before, id, index) => WellTyped(sent, before) && id in sent && index < |sent[id].slices|
  }

  ghost predicate Covered(sent: Sent, run: Run, id: string)
    requires id in sent
  {
    Arrived(run, id) == Range(|sent[id].slices|)
  }

  /** Some slices of the event have arrived, but not all. */
  ghost predicate Open(sent: Sent, run: Run, id: string)
    requires id in sent
  {
    Arrived(run, id) != {} && !Covered(sent, run, id)
  }

  ghost function Gathered(sent: Sent, run: Run, id: string): FragmentState
    requires id in sent
  {
    PartialState(sent[id].slices, Arrived(run, id))
  }

  ghost function OpenStates(sent: Sent, run: Run): FragmentStates {
    map id | id in sent && Open(sent, run, id) :: Gathered(sent, run, id)
  }

  /** The states held when the last delivery has been stored, before its event is checked for completeness. */
  ghost function PeakStates(sent: Sent, run: Run): FragmentStates
    requires run.Deliver? && run.id in sent
  {
    OpenStates(sent, run.before)[run.id := Gathered(sent, run, run.id)]
  }

  ghost predicate InBounds(held: FragmentStates) {
    |held| <= MAX_ARRAY_ITEMS && SumOf(held, StateSize) <= MAX_WINDOW_BYTES
  }

  /** Any interleaving, with repeats as long as the event is incomplete, whose active totals stay in bounds. */
  ghost predicate Legitimate(sent: Sent, run: Run) {
    match run
    case Start => true
    case Deliver(before, id, index) =>
      && Legitimate(sent, before)
      && id in sent && index < |sent[id].slices|
      && !Covered(sent, before, id)
      && InBounds(PeakStates(sent, run))
  }

  lemma {:induction false} LegitimateIsWellTyped(sent: Sent, run: Run)
    requires Legitimate(sent, run)
    ensures WellTyped(sent, run)
  {
    if run.Deliver? {
      LegitimateIsWellTyped(sent, run.before);
    }
  }

  lemma {:induction false} ArrivedWithin(sent: Sent, run: Run, id: string)
    requires WellTyped(sent, run) && id in sent
    ensures Within(Arrived(run, id), sent[id].slices)
  {
    if run.Deliver? {
      ArrivedWithin(sent, run.before, id);
    }
  }

  /** Storing a new or a repeated piece leads to the peak states. */
  lemma {:induction false} AddReachesPeak(codec: Codec, scope: Scope, sent: Sent, run: Run)
    requires codec.Lossless() && AllSendable(codec, scope, sent)
    requires run.Deliver? && WellTyped(sent, run) && !Covered(sent, run.before, run.id)
    ensures var (added, outcome) := AddFragment(OpenStates(sent, run.before), PieceAt(run.id, sent[run.id].slices, run.index));
            added == PeakStates(sent, run) && (outcome.Added? || outcome.Duplicate?)
  {
    hide AddFragment, Flatten, Covered;
    var s, got := sent[run.id], Arrived(run.before, run.id);
    ArrivedWithin(sent, run.before, run.id);
    SendableSlices(codec, scope, s);
    assert Arrived(run, run.id) == got + {run.index};
    AddPiece(OpenStates(sent, run.before), s.slices, got, run.id, run.index);
  }

  lemma {:induction false} OthersUntouched(sent: Sent, run: Run, id: string)
    requires run.Deliver? && id in sent && id != run.id
    ensures Open(sent, run, id) == Open(sent, run.before, id) && Gathered(sent, run, id) == Gathered(sent, run.before, id)
  {
    hide Range, PartialState;
  }

  lemma {:induction false} OpenUnlessCovered(sent: Sent, run: Run)
    requires run.Deliver? && run.id in sent
    ensures Open(sent, run, run.id) == !Covered(sent, run, run.id)
  {
    assert run.index in Arrived(run, run.id);
  }

  lemma {:induction false} OpenAfter(sent: Sent, run: Run)
    requires run.Deliver? && run.id in sent
    ensures OpenStates(sent, run)
            == if Covered(sent, run, run.id) then PeakStates(sent, run) - {run.id} else PeakStates(sent, run)
  {
    hide Open, Gathered, Covered, Arrived;
    OpenUnlessCovered(sent, run);
    forall id | id in sent && id != run.id
      ensures Open(sent, run, id) == Open(sent, run.before, id) && Gathered(sent, run, id) == Gathered(sent, run.before, id)
    {
      OthersUntouched(sent, run, id);
    }
  }

  /** A fragment that is stored within the limits leaves its event's fate to the completeness check. */
  lemma {:induction false} AcceptStored(codec: Codec, scope: Scope, st: AssemblerState, p: Piece, peak: FragmentStates)
    requires Balanced(st) && InBounds(peak) && p.eventId in peak
    requires peak == st.states[p.eventId := peak[p.eventId]]
    requires AddFragment(st.states, p).0 == peak
    requires AddFragment(st.states, p).1.Added? || AddFragment(st.states, p).1.Duplicate?
    ensures var (after, result) := Accept(codec, scope, st, scope, p);
            (after.states, result) == FinishFragment(codec, peak, p.eventId, scope)
  {
    hide AddFragment, ReadyBytes, ParseAssembled, SumOf, AllAccounted;
    SumReplaced(st.states, p.eventId, peak[p.eventId]);
  }

  /** One delivery: the event completes if this was its last missing slice, and no other event is touched. */
  lemma {:induction false} DeliverOne(codec: Codec, scope: Scope, sent: Sent, st: AssemblerState, run: Run)
    requires codec.Lossless() && AllSendable(codec, scope, sent)
    requires run.Deliver? && Legitimate(sent, run)
    requires Balanced(st) && st.states == OpenStates(sent, run.before)
    ensures var (after, result) := Accept(codec, scope, st, scope, PieceAt(run.id, sent[run.id].slices, run.index));
            && after.states == OpenStates(sent, run)
            && result == if Covered(sent, run, run.id) then Complete(sent[run.id].event) else Pending
  {
    hide AddFragment, FinishFragment, Accept, OpenStates, InBounds, Balanced;
    var peak := PeakStates(sent, run);
    LegitimateIsWellTyped(sent, run);
    ArrivedWithin(sent, run, run.id);
    OpenAfter(sent, run);
    FinishEvent(codec, scope, sent[run.id], peak, Arrived(run, run.id));
    AddReachesPeak(codec, scope, sent, run);
    AcceptStored(codec, scope, st, PieceAt(run.id, sent[run.id].slices, run.index), peak);
  }

  // ----- Whole runs -----

  /** The assembler's state and last result after the sender's frames of a run, as they are on the wire. */
  ghost function AcceptRun(codec: Codec, scope: Scope, sent: Sent, run: Run): (AssemblerState, TransferResult)
    requires AllSendable(codec, scope, sent) && WellTyped(sent, run)
  {
    match run
    case Start => (EmptyAssembler, Pending)
    case Deliver(before, id, index) =>
      var frame := FragmentFrame(scope, FragmentsOf(codec, sent[id].event)[index]);
      Accept(codec, scope, AcceptRun(codec, scope, sent, before).0, frame.scope, DecodeFragment(frame.fragment))
  }

  /**
   After every legitimate interleaving exactly the incomplete events are held. The delivery that brings an event's
   last missing slice completes it, with the event that was sent; every other delivery is pending; none is discarded.
   */
  lemma {:induction false} EachEventCompletes(codec: Codec, scope: Scope, sent: Sent, run: Run)
    requires codec.Lossless() && AllSendable(codec, scope, sent) && Legitimate(sent, run)
    ensures WellTyped(sent, run)
    ensures Balanced(AcceptRun(codec, scope, sent, run).0)
    ensures AcceptRun(codec, scope, sent, run).0.states == OpenStates(sent, run)
    ensures run.Deliver? ==> AcceptRun(codec, scope, sent, run).1
                             == if Covered(sent, run, run.id) then Complete(sent[run.id].event) else Pending
  {
    hide Accept, Covered, DecodeFragment, PieceAt;
    LegitimateIsWellTyped(sent, run);
    if run.Deliver? {
      EachEventCompletes(codec, scope, sent, run.before);
      var st := AcceptRun(codec, scope, sent, run.before).0;
      DecodesToPiece(codec, scope, sent[run.id], run.index);
      AcceptKeepsBalance(codec, scope, st, scope, PieceAt(run.id, sent[run.id].slices, run.index));
      DeliverOne(codec, scope, sent, st, run);
      assert sent[run.id].event.id == run.id;
    } else {
      assert OpenStates(sent, run) == map[];
    }
  }

  /** How often a run completes the event `id`. */
  ghost function Completions(codec: Codec, scope: Scope, sent: Sent, run: Run, id: string): nat
    requires AllSendable(codec, scope, sent) && WellTyped(sent, run)
  {
    match run
    case Start => 0
    case Deliver(before, last, index) =>
      Completions(codec, scope, sent, before, id)
      + if AcceptRun(codec, scope, sent, run).1.Complete? && AcceptRun(codec, scope, sent, run).1.event.id == id then 1 else 0
  }

  lemma {:induction false} CoveredByOwnDelivery(sent: Sent, run: Run, id: string)
    requires run.Deliver? && id in sent
    ensures id != run.id ==> Covered(sent, run, id) == Covered(sent, run.before, id)
  {
    hide Range;
  }

  lemma {:induction false} CompletionStep(codec: Codec, scope: Scope, sent: Sent, run: Run, id: string)
    requires codec.Lossless() && AllSendable(codec, scope, sent) && Legitimate(sent, run)
    requires run.Deliver? && WellTyped(sent, run)
    ensures Completions(codec, scope, sent, run, id)
            == Completions(codec, scope, sent, run.before, id) + if id == run.id && Covered(sent, run, id) then 1 else 0
  {
    hide AcceptRun, OpenStates, Covered, Legitimate, Balanced;
    EachEventCompletes(codec, scope, sent, run);
    assert sent[run.id].event.id == run.id;
  }

  /** Each event completes exactly once if all its slices arrive, and otherwise never. */
  lemma {:induction false} ExactlyOnce(codec: Codec, scope: Scope, sent: Sent, run: Run, id: string)
    requires codec.Lossless() && AllSendable(codec, scope, sent) && Legitimate(sent, run) && id in sent
    ensures WellTyped(sent, run)
    ensures Completions(codec, scope, sent, run, id) == if Covered(sent, run, id) then 1 else 0
  {
    hide InBounds;
    LegitimateIsWellTyped(sent, run);
    if run.Start? {
      SendableSlices(codec, scope, sent[id]);
      assert 0 in Range(|sent[id].slices|);
    } else {
      ExactlyOnce(codec, scope, sent, run.before, id);
      CompletionStep(codec, scope, sent, run, id);
      CoveredByOwnDelivery(sent, run, id);
      assert !Covered(sent, run.before, run.id);
    }
  }
}
