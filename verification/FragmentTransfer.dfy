/**
 Events too large for one frame travel as fragments: the sender cuts their JSON bytes into slices, the browser
 keeps one fragment state per event and parses the bytes when the last gap closes.
 */
module FragmentTransfer {
  import opened Bytes
  import opened Timeline
  import opened Sums
  import Base64

  datatype Fragment = Fragment(eventId: string, index: nat, data: string, final: bool)

  // ----- Sender -----

  /** The slices of `bytes`, each at most MAX_FRAGMENT_BYTES long. */
  function Slices(bytes: seq<byte>): seq<seq<byte>> {
    if |bytes| <= MAX_FRAGMENT_BYTES then (if |bytes| == 0 then [] else [bytes])
    else [bytes[..MAX_FRAGMENT_BYTES]] + Slices(bytes[MAX_FRAGMENT_BYTES..])
  }

  function Flatten(parts: seq<seq<byte>>): seq<byte> {
    if |parts| == 0 then [] else Flatten(parts[..|parts| - 1]) + parts[|parts| - 1]
  }

  function FragmentAt(eventId: string, slices: seq<seq<byte>>, i: nat): Fragment
    requires i < |slices|
  {
    Fragment(eventId, i, Base64.Encode(slices[i]), i == |slices| - 1)
  }

  function FragmentsOf(codec: Codec, event: TimelineEvent): (fragments: seq<Fragment>)
    ensures |fragments| == |Slices(codec.serialize(event))|
  {
    var slices := Slices(codec.serialize(event));
    seq(|slices|, i requires 0 <= i < |slices| => FragmentAt(event.id, slices, i))
  }

  /** The sender's offset loop. */
  method CutIntoFragments(codec: Codec, event: TimelineEvent) returns (fragments: seq<Fragment>)
    ensures fragments == FragmentsOf(codec, event)
  {
    var bytes := codec.serialize(event);
    fragments := [];
    var offset, index := 0, 0;
    while offset < |bytes|
      invariant 0 <= offset <= |bytes|
      invariant index == |fragments|
      invariant |Slices(bytes)| == index + |Slices(bytes[offset..])|
      invariant Slices(bytes)[index..] == Slices(bytes[offset..])
      invariant forall i :: 0 <= i < index ==> fragments[i] == FragmentAt(event.id, Slices(bytes), i)
    {
      var end := if offset + MAX_FRAGMENT_BYTES <= |bytes| then offset + MAX_FRAGMENT_BYTES else |bytes|;
      var slice := bytes[offset..end];
      assert bytes[offset..][..end - offset] == slice && bytes[offset..][end - offset..] == bytes[end..];
      assert end == |bytes| ==> slice == bytes[offset..] && bytes[end..] == [];
      assert Slices(bytes[offset..]) == [slice] + Slices(bytes[end..]);
      assert Slices(bytes)[index] == Slices(bytes)[index..][0];
      fragments := fragments + [Fragment(event.id, index, Base64.Encode(slice), end >= |bytes|)];
      assert Slices(bytes)[index + 1..] == Slices(bytes)[index..][1..];
      offset := end;
      index := index + 1;
    }
  }

  lemma {:induction false} SlicesShape(bytes: seq<byte>)
    ensures forall i :: 0 <= i < |Slices(bytes)| ==> 0 < |Slices(bytes)[i]| <= MAX_FRAGMENT_BYTES
    ensures |bytes| > 0 ==> |Slices(bytes)| > 0
    ensures (|Slices(bytes)| - 1) * MAX_FRAGMENT_BYTES <= |bytes|
  {
    if |bytes| > MAX_FRAGMENT_BYTES {
      SlicesShape(bytes[MAX_FRAGMENT_BYTES..]);
    }
  }

  lemma {:induction false} FlattenCons(first: seq<byte>, rest: seq<seq<byte>>)
    ensures Flatten([first] + rest) == first + Flatten(rest)
  {
    var all := [first] + rest;
    if |rest| == 0 {
      assert all[..0] == [];
    } else {
      assert all[..|all| - 1] == [first] + rest[..|rest| - 1];
      FlattenCons(first, rest[..|rest| - 1]);
    }
  }

  lemma {:induction false} FlattenSlices(bytes: seq<byte>)
    ensures Flatten(Slices(bytes)) == bytes
  {
    if |bytes| > MAX_FRAGMENT_BYTES {
      var rest := bytes[MAX_FRAGMENT_BYTES..];
      FlattenSlices(rest);
      FlattenCons(bytes[..MAX_FRAGMENT_BYTES], Slices(rest));
      assert bytes == bytes[..MAX_FRAGMENT_BYTES] + rest;
    } else if |bytes| > 0 {
      FlattenCons(bytes, []);
    }
  }

  // ----- Receiver: one fragment state per event -----

  datatype FragmentEntry = FragmentEntry(bytes: seq<byte>, final: bool)

  datatype FragmentState = FragmentState(entries: map<nat, FragmentEntry>, finalIndex: Option<nat>, decodedBytes: nat)

  type FragmentStates = map<string, FragmentState>

  const NoFragments := FragmentState(map[], None, 0)

  /** What the frame schema demands of a fragment. */
  predicate WellFormed(f: Fragment) {
    && 1 <= |f.eventId| <= MAX_ID_CHARS
    && 4 <= |f.data| <= 68271
    && Base64.IsPadded(f.data)
  }

  /** A fragment after base64 decoding; `bytes` is `None` where decoding throws. */
  datatype Piece = Piece(eventId: string, index: nat, final: bool, bytes: Option<seq<byte>>)

  function DecodeFragment(f: Fragment): (p: Piece)
    ensures p.bytes.Some? ==> |p.bytes.value| <= MAX_FRAGMENT_BYTES
  {
    var bytes := if !WellFormed(f) then None
                 else
                   var decoded := Base64.DecodeBody(Base64.Body(f.data));
                   if |decoded| > MAX_FRAGMENT_BYTES then None else Some(decoded);
    Piece(f.eventId, f.index, f.final, bytes)
  }

  datatype AddOutcome = Threw | Discarded | Duplicate | Added

  function StateOf(states: FragmentStates, id: string): FragmentState {
    if id in states then states[id] else NoFragments
  }

  /** Why a decoded fragment cannot extend its state. */
  predicate OutOfSequence(state: FragmentState, p: Piece) {
    || |state.entries| >= MAX_ARRAY_ITEMS
    || (state.finalIndex.Some? && (p.index > state.finalIndex.value || p.final))
    || (p.final && exists i :: i in state.entries && i > p.index)
  }

  function Extend(state: FragmentState, p: Piece): FragmentState
    requires p.bytes.Some?
  {
    FragmentState(state.entries[p.index := FragmentEntry(p.bytes.value, p.final)],
                  if p.final then Some(p.index) else state.finalIndex,
                  state.decodedBytes + |p.bytes.value|)
  }

  function AddFragment(states: FragmentStates, p: Piece): (FragmentStates, AddOutcome) {
    if p.bytes.None? then (states, Threw)
    else
      var state := StateOf(states, p.eventId);
      if p.index in state.entries then
        if state.entries[p.index] == FragmentEntry(p.bytes.value, p.final) then (states, Duplicate)
        else (states - {p.eventId}, Discarded)
      else if OutOfSequence(state, p) || Extend(state, p).decodedBytes > MAX_WINDOW_BYTES then
        (states - {p.eventId}, Discarded)
      else (states[p.eventId := Extend(state, p)], Added)
  }

  /** `AddFragment` changes nothing but the state of the fragment's own event. */
  lemma {:induction false} AddTouchesOneEvent(states: FragmentStates, p: Piece)
    ensures var (added, outcome) := AddFragment(states, p);
            match outcome
            case Threw => added == states && p.bytes.None?
            case Duplicate => added == states
            case Discarded => added == states - {p.eventId}
            case Added =>
              p.bytes.Some? && added == states[p.eventId := Extend(StateOf(states, p.eventId), p)]
  {
  }

  /** The bytes of entries 0 to n-1, if all are present. */
  function Assemble(entries: map<nat, FragmentEntry>, n: nat): Option<seq<byte>> {
    if n == 0 then Some([])
    else if n - 1 !in entries then None
    else match Assemble(entries, n - 1)
         case None => None
         case Some(prefix) => Some(prefix + entries[n - 1].bytes)
  }

  datatype TransferResult =
    | Pending
    | Complete(event: TimelineEvent)
    | Discard(reason: DiscardReason)

  datatype DiscardReason =
    | ScopeMismatch | InvalidFragment | WindowTooLarge | InvalidSequence | EventInvalid | EventScopeMismatch

  /** The bytes that are ready to be parsed: the final index is known and no index below it is missing. */
  function ReadyBytes(state: FragmentState): Option<seq<byte>> {
    if state.finalIndex.None? || state.finalIndex.value + 1 != |state.entries| then None
    else Assemble(state.entries, state.finalIndex.value + 1)
  }

  function ParseAssembled(codec: Codec, id: string, scope: Scope, bytes: seq<byte>): (r: TransferResult)
    ensures !r.Pending?
    ensures r.Complete? ==> r.event.id == id && InScope(r.event, scope)
  {
    match codec.parse(bytes)
    case None => Discard(EventInvalid)
    case Some(event) =>
      if event.id != id || !InScope(event, scope) then Discard(EventScopeMismatch) else Complete(event)
  }

  function FinishFragment(codec: Codec, states: FragmentStates, id: string, scope: Scope): (FragmentStates, TransferResult) {
    match ReadyBytes(StateOf(states, id))
    case None => (states, Pending)
    case Some(bytes) => (states - {id}, ParseAssembled(codec, id, scope, bytes))
  }

  // ----- Byte accounting, for arbitrary frames -----

  ghost function EntrySize(e: FragmentEntry): nat { |e.bytes| }

  ghost function StateSize(s: FragmentState): nat { s.decodedBytes }

  ghost predicate Accounted(s: FragmentState) {
    && s.decodedBytes == SumOf(s.entries, EntrySize)
    && s.decodedBytes <= MAX_WINDOW_BYTES
    && |s.entries| <= MAX_ARRAY_ITEMS
  }

  ghost predicate AllAccounted(states: FragmentStates) {
    forall id :: id in states ==> Accounted(states[id])
  }

  lemma {:induction false} ExtendKeepsAccounts(state: FragmentState, p: Piece)
    requires Accounted(state) && p.index !in state.entries && p.bytes.Some?
    requires |state.entries| < MAX_ARRAY_ITEMS && state.decodedBytes + |p.bytes.value| <= MAX_WINDOW_BYTES
    ensures Accounted(Extend(state, p))
  {
    var entry := FragmentEntry(p.bytes.value, p.final);
    SumInsert(state.entries, EntrySize, p.index, entry);
    assert state.entries[p.index := entry].Keys == state.entries.Keys + {p.index};
  }

  lemma {:induction false} AddKeepsAccounts(states: FragmentStates, p: Piece)
    requires AllAccounted(states)
    ensures AllAccounted(AddFragment(states, p).0)
  {
    var state := StateOf(states, p.eventId);
    assert Accounted(state);
    if AddFragment(states, p).1.Added? {
      ExtendKeepsAccounts(state, p);
    }
  }

  lemma {:induction false} AssembleIgnores(entries: map<nat, FragmentEntry>, n: nat, k: nat)
    requires n <= k
    ensures Assemble(entries - {k}, n) == Assemble(entries, n)
  {
    if n > 0 {
      AssembleIgnores(entries, n - 1, k);
    }
  }

  /** The bytes of a gapless prefix fit in the buffer that `decodedBytes` sizes, and fill it when nothing is left over. */
  lemma {:induction false} AssembledFits(entries: map<nat, FragmentEntry>, n: nat)
    requires Assemble(entries, n).Some?
    ensures forall i: nat :: i < n ==> i in entries
    ensures |Assemble(entries, n).value| <= SumOf(entries, EntrySize)
    ensures (forall i :: i in entries ==> i < n) ==> |Assemble(entries, n).value| == SumOf(entries, EntrySize)
  {
    if n > 0 {
      var last: nat := n - 1;
      var rest := entries - {last};
      AssembleIgnores(entries, last, last);
      SumRemove(entries, EntrySize, last);
      AssembledFits(rest, last);
      forall i: nat | i < n
        ensures i in entries
      {
        assert i == last || i in rest;
      }
    }
  }
}
