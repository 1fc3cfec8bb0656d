/**
 The file of paired owners. Writes to one owner's slot carry a provenance token; a pairing that fails takes its own
 write back, but only while nothing else has been written to that slot.
 */
module OwnerStorage {
  import opened Bytes
  import Ed25519Keys

  /** The type of an owner key that is no text. */
  datatype Kind = NumberKey | BooleanKey | ObjectKey | MissingKey

  /**
   One entry of the file: a record with a textual owner key and further fields, which name and pairing time are among;
   a bare text; or anything else, a record with another key or no record, by the type of its key and its JSON.
   */
  datatype Entry = Peer(ownerKey: string, fields: string) | Text(raw: string) | Junk(kind: Kind, json: string)

  /** All spellings of one key share a slot; unreadable texts and keys of another type have slots of their own. */
  datatype Slot = OwnerSlot(canonical: string) | RawSlot(raw: string) | Quarantine(kind: Kind)

  function SlotOf(raw: string): Slot {
    match Ed25519Keys.CanonicalizeEd25519PublicKey(raw)
    case Key(canonical) => OwnerSlot(canonical)
    case Rejected(_) => RawSlot(raw)
  }

  function SlotOfEntry(e: Entry): Slot {
    match e
    case Peer(raw, _) => SlotOf(raw)
    case Text(raw) => SlotOf(raw)
    case Junk(kind, _) => Quarantine(kind)
  }

  /** `file` is `None` where it cannot be read or parsed. Tokens are numbered as they are made. */
  datatype Store = Store(file: Option<seq<Entry>>, tokens: map<Slot, nat>, made: nat)

  datatype Receipt = Receipt(record: Entry, token: nat, previous: Option<Entry>)

  /** A lenient read takes an unreadable file for an empty one. */
  function Peers(s: Store): seq<Entry> {
    if s.file.Some? then s.file.value else []
  }

  predicate Spells(e: Entry, raw: string) { e.Peer? && e.ownerKey == raw }

  function FirstSpelling(peers: seq<Entry>, raw: string): (i: Option<nat>)
    ensures i.Some? ==> i.value < |peers| && Spells(peers[i.value], raw)
    ensures i.Some? ==> forall k :: 0 <= k < i.value ==> !Spells(peers[k], raw)
    ensures i.None? ==> forall k :: 0 <= k < |peers| ==> !Spells(peers[k], raw)
  {
    if |peers| == 0 then None
    else
      var earlier := FirstSpelling(peers[..|peers| - 1], raw);
      if earlier.Some? then earlier
      else if Spells(peers[|peers| - 1], raw) then Some(|peers| - 1)
      else None
  }

  function FirstEqual(peers: seq<Entry>, e: Entry): (i: Option<nat>)
    ensures i.Some? ==> i.value < |peers| && peers[i.value] == e
    ensures i.Some? ==> forall k :: 0 <= k < i.value ==> peers[k] != e
    ensures i.None? ==> forall k :: 0 <= k < |peers| ==> peers[k] != e
  {
    if |peers| == 0 then None
    else
      var earlier := FirstEqual(peers[..|peers| - 1], e);
      if earlier.Some? then earlier
      else if peers[|peers| - 1] == e then Some(|peers| - 1)
      else None
  }

  function WithoutSpelling(peers: seq<Entry>, raw: string): seq<Entry> {
    if |peers| == 0 then []
    else
      var last := peers[|peers| - 1];
      WithoutSpelling(peers[..|peers| - 1], raw) + if Spells(last, raw) then [] else [last]
  }

  // ----- Mutations; each runs alone -----

  /** A mutation that gave the slot a new token. */
  function Invalidate(s: Store, slot: Slot): Store {
    s.(tokens := s.tokens[slot := s.made], made := s.made + 1)
  }

  function Written(s: Store, peers: seq<Entry>, raw: string): Store {
    Invalidate(s.(file := Some(peers)), SlotOf(raw))
  }

  function AddPeer(s: Store, record: Entry): (Store, Receipt)
    requires record.Peer?
  {
    var peers := Peers(s);
    match FirstSpelling(peers, record.ownerKey)
    case Some(i) => (Written(s, peers[i := record], record.ownerKey), Receipt(record, s.made, Some(peers[i])))
    case None => (Written(s, peers + [record], record.ownerKey), Receipt(record, s.made, None))
  }

  /** `authorized` is what the commit guard answers; without a guard it is true. */
  function RemovePeer(s: Store, raw: string, authorized: bool): (Store, bool) {
    var filtered := WithoutSpelling(Peers(s), raw);
    if |filtered| == |Peers(s)| || !authorized then (s, false) else (Written(s, filtered, raw), true)
  }

  datatype Outcome = Removed(next: nat) | Restored(next: nat) | Stale | NotFound | NoAuthority | Throws

  /** Looking a token up makes one if the slot has none. */
  function TokenForSlot(s: Store, slot: Slot): (Store, nat) {
    if slot in s.tokens then (s, s.tokens[slot]) else (Invalidate(s, slot), s.made)
  }

  function ConditionalRemovePeer(s: Store, raw: string, expected: nat, authorized: bool): (Store, Outcome) {
    var (looked, token) := TokenForSlot(s, SlotOf(raw));
    if token != expected then (looked, Stale)
    else if s.file.None? then (looked, Throws)
    else
      var filtered := WithoutSpelling(s.file.value, raw);
      if |filtered| == |s.file.value| then (looked, NotFound)
      else if !authorized then (looked, NoAuthority)
      else (Written(looked, filtered, raw), Removed(looked.made))
  }

  function ConditionalRollbackPeer(s: Store, receipt: Receipt, authorized: bool): (Store, Outcome)
    requires receipt.record.Peer?
  {
    var raw := receipt.record.ownerKey;
    var (looked, token) := TokenForSlot(s, SlotOf(raw));
    if token != receipt.token then (looked, Stale)
    else if s.file.None? then (looked, Throws)
    else
      match FirstEqual(s.file.value, receipt.record)
      case None => (looked, NotFound)
      case Some(i) =>
        if !authorized then (looked, NoAuthority)
        else if receipt.previous.Some? then
          (Written(looked, s.file.value[i := receipt.previous.value], raw), Restored(looked.made))
        else
          (Written(looked, s.file.value[..i] + s.file.value[i + 1..], raw), Removed(looked.made))
  }

  class OwnerFile {
    var file: Option<seq<Entry>>
    var tokens: map<Slot, nat>
    var made: nat

    function State(): Store
      reads this
    {
      Store(file, tokens, made)
    }

    constructor (file: Option<seq<Entry>>)
      ensures State() == Store(file, map[], 0)
    {
      this.file, tokens, made := file, map[], 0;
    }

    method Write(peers: seq<Entry>, raw: string) returns (token: nat)
      modifies this
      ensures State() == Written(old(State()), peers, raw) && token == old(made)
    {
      file := Some(peers);
      token := made;
      tokens := tokens[SlotOf(raw) := made];
      made := made + 1;
    }

    method Token(slot: Slot) returns (token: nat)
      modifies this
      ensures (State(), token) == TokenForSlot(old(State()), slot)
    {
      if slot !in tokens {
        tokens := tokens[slot := made];
        made := made + 1;
      }
      return tokens[slot];
    }

    method Add(record: Entry) returns (receipt: Receipt)
      requires record.Peer?
      modifies this
      ensures (State(), receipt) == AddPeer(old(State()), record)
    {
      var peers := if file.Some? then file.value else [];
      var i := FirstSpelling(peers, record.ownerKey);
      var previous := if i.Some? then Some(peers[i.value]) else None;
      var token := Write(if i.Some? then peers[i.value := record] else peers + [record], record.ownerKey);
      return Receipt(record, token, previous);
    }

    method Remove(raw: string, authorized: bool) returns (removed: bool)
      modifies this
      ensures (State(), removed) == RemovePeer(old(State()), raw, authorized)
    {
      var peers := if file.Some? then file.value else [];
      var filtered := WithoutSpelling(peers, raw);
      if |filtered| == |peers| || !authorized {
        return false;
      }
      var _ := Write(filtered, raw);
      return true;
    }

    method ConditionalRemove(raw: string, expected: nat, authorized: bool) returns (outcome: Outcome)
      modifies this
      ensures (State(), outcome) == ConditionalRemovePeer(old(State()), raw, expected, authorized)
    {
      var token := Token(SlotOf(raw));
      if token != expected {
        return Stale;
      }
      if file.None? {
        return Throws;
      }
      var filtered := WithoutSpelling(file.value, raw);
      if |filtered| == |file.value| {
        return NotFound;
      }
      if !authorized {
        return NoAuthority;
      }
      var next := Write(filtered, raw);
      return Removed(next);
    }

    method ConditionalRollback(receipt: Receipt, authorized: bool) returns (outcome: Outcome)
      requires receipt.record.Peer?
      modifies this
      ensures (State(), outcome) == ConditionalRollbackPeer(old(State()), receipt, authorized)
    {
      var raw := receipt.record.ownerKey;
      var token := Token(SlotOf(raw));
      if token != receipt.token {
        return Stale;
      }
      if file.None? {
        return Throws;
      }
      var peers := file.value;
      var i := FirstEqual(peers, receipt.record);
      if i.None? {
        return NotFound;
      }
      if !authorized {
        return NoAuthority;
      }
      if receipt.previous.Some? {
        var next := Write(peers[i.value := receipt.previous.value], raw);
        return Restored(next);
      }
      var next := Write(peers[..i.value] + peers[i.value + 1..], raw);
      return Removed(next);
    }
  }

  // ----- Slots -----

  /** The entries of a slot, in file order. */
  function InSlot(peers: seq<Entry>, slot: Slot): seq<Entry> {
    if |peers| == 0 then []
    else
      var last := peers[|peers| - 1];
      InSlot(peers[..|peers| - 1], slot) + if SlotOfEntry(last) == slot then [last] else []
  }

  lemma {:induction false} InSlotJoin(a: seq<Entry>, b: seq<Entry>, slot: Slot)
    ensures InSlot(a + b, slot) == InSlot(a, slot) + InSlot(b, slot)
  {
    hide SlotOfEntry;
    if |b| == 0 {
      assert a + b == a;
    } else {
      assert (a + b)[..|a + b| - 1] == a + b[..|b| - 1];
      InSlotJoin(a, b[..|b| - 1], slot);
    }
  }

  lemma {:induction false} InSlotOne(e: Entry, slot: Slot)
    ensures InSlot([e], slot) == if SlotOfEntry(e) == slot then [e] else []
  {
    hide SlotOfEntry;
    assert [e][..0] == [];
  }

  /** Around one entry. */
  lemma {:induction false} InSlotAround(peers: seq<Entry>, i: nat, slot: Slot)
    requires i < |peers|
    ensures InSlot(peers, slot)
            == InSlot(peers[..i], slot) + (if SlotOfEntry(peers[i]) == slot then [peers[i]] else []) + InSlot(peers[i + 1..], slot)
  {
    assert peers == peers[..i] + [peers[i]] + peers[i + 1..];
    InSlotJoin(peers[..i] + [peers[i]], peers[i + 1..], slot);
    InSlotJoin(peers[..i], [peers[i]], slot);
    InSlotOne(peers[i], slot);
  }

  /** Replacing an entry by one of the same slot leaves the other slots alone. */
  lemma {:induction false} ReplaceOthers(peers: seq<Entry>, i: nat, e: Entry, slot: Slot)
    requires i < |peers| && SlotOfEntry(e) == SlotOfEntry(peers[i]) != slot
    ensures InSlot(peers[i := e], slot) == InSlot(peers, slot)
  {
    hide SlotOfEntry, InSlot;
    InSlotAround(peers, i, slot);
    InSlotAround(peers[i := e], i, slot);
    assert peers[i := e][..i] == peers[..i] && peers[i := e][i + 1..] == peers[i + 1..];
  }

  lemma {:induction false} DropOthers(peers: seq<Entry>, i: nat, slot: Slot)
    requires i < |peers| && SlotOfEntry(peers[i]) != slot
    ensures InSlot(peers[..i] + peers[i + 1..], slot) == InSlot(peers, slot)
  {
    hide SlotOfEntry, InSlot;
    InSlotAround(peers, i, slot);
    InSlotJoin(peers[..i], peers[i + 1..], slot);
  }

  lemma {:induction false} FilterOthers(peers: seq<Entry>, raw: string, slot: Slot)
    requires slot != SlotOf(raw)
    ensures InSlot(WithoutSpelling(peers, raw), slot) == InSlot(peers, slot)
  {
    hide SlotOf;
    if |peers| > 0 {
      var front, last := peers[..|peers| - 1], peers[|peers| - 1];
      FilterOthers(front, raw, slot);
      if Spells(last, raw) {
        assert WithoutSpelling(peers, raw) == WithoutSpelling(front, raw);
        assert InSlot(peers, slot) == InSlot(front, slot);
      } else {
        InSlotJoin(WithoutSpelling(front, raw), [last], slot);
        InSlotOne(last, slot);
      }
    }
  }

  // ----- Mutations and the slots they touch -----

  datatype Op =
    | AddOp(record: Entry)
    | RemoveOp(ownerKey: string, authorized: bool)
    | ConditionalRemoveOp(ownerKey: string, expected: nat, authorized: bool)
    | RollbackOp(receipt: Receipt, authorized: bool)
    | LookOp(slot: Slot)

  ghost predicate WellFormed(op: Op) {
    && (op.AddOp? ==> op.record.Peer?)
    && (op.RollbackOp? ==> op.receipt.record.Peer? && (op.receipt.previous.Some? ==> Spells(op.receipt.previous.value, op.receipt.record.ownerKey)))
  }

  function Apply(s: Store, op: Op): Store
    requires WellFormed(op)
  {
    match op
    case AddOp(record) => AddPeer(s, record).0
    case RemoveOp(raw, authorized) => RemovePeer(s, raw, authorized).0
    case ConditionalRemoveOp(raw, expected, authorized) => ConditionalRemovePeer(s, raw, expected, authorized).0
    case RollbackOp(receipt, authorized) => ConditionalRollbackPeer(s, receipt, authorized).0
    case LookOp(slot) => TokenForSlot(s, slot).0
  }

  ghost predicate TokensMade(s: Store) {
    forall slot :: slot in s.tokens ==> s.tokens[slot] < s.made
  }

  /** The slot has the same entries and, if it had one, the same token. */
  ghost predicate Untouched(s: Store, n: Store, slot: Slot) {
    && InSlot(Peers(n), slot) == InSlot(Peers(s), slot)
    && (slot in s.tokens ==> slot in n.tokens && n.tokens[slot] == s.tokens[slot])
  }

  ghost predicate NewToken(s: Store, n: Store, slot: Slot) {
    slot in n.tokens && n.tokens[slot] >= s.made
  }

  lemma {:induction false} WriteTouches(s: Store, peers: seq<Entry>, raw: string, slot: Slot)
    requires slot != SlotOf(raw) ==> InSlot(peers, slot) == InSlot(Peers(s), slot)
    ensures var n := Written(s, peers, raw);
            n.made == s.made + 1 && if slot == SlotOf(raw) then NewToken(s, n, slot) else Untouched(s, n, slot)
  {
    hide SlotOf, InSlot;
  }

  lemma {:induction false} AppendOthers(peers: seq<Entry>, e: Entry, slot: Slot)
    requires SlotOfEntry(e) != slot
    ensures InSlot(peers + [e], slot) == InSlot(peers, slot)
  {
    InSlotJoin(peers, [e], slot);
    InSlotOne(e, slot);
  }

  lemma {:induction false} AddTouches(s: Store, record: Entry, slot: Slot)
    requires record.Peer?
    ensures var n := AddPeer(s, record).0;
            n.made == s.made + 1 && if slot == SlotOf(record.ownerKey) then NewToken(s, n, slot) else Untouched(s, n, slot)
  {
    hide SlotOf, InSlot, Written;
    var peers := Peers(s);
    var i := FirstSpelling(peers, record.ownerKey);
    if i.Some? {
      if slot != SlotOf(record.ownerKey) {
        ReplaceOthers(peers, i.value, record, slot);
      }
      WriteTouches(s, peers[i.value := record], record.ownerKey, slot);
    } else {
      if slot != SlotOf(record.ownerKey) {
        AppendOthers(peers, record, slot);
      }
      WriteTouches(s, peers + [record], record.ownerKey, slot);
    }
  }

  lemma {:induction false} FilterTouches(s: Store, raw: string, slot: Slot)
    ensures var n := Written(s, WithoutSpelling(Peers(s), raw), raw);
            if slot == SlotOf(raw) then NewToken(s, n, slot) else Untouched(s, n, slot)
  {
    hide SlotOf;
    if slot != SlotOf(raw) {
      FilterOthers(Peers(s), raw, slot);
    }
  }

  lemma {:induction false} RollbackTouches(s: Store, receipt: Receipt, authorized: bool, slot: Slot)
    requires WellFormed(RollbackOp(receipt, authorized))
    ensures var (n, outcome) := ConditionalRollbackPeer(s, receipt, authorized);
            && n.made >= s.made
            && if slot == SlotOf(receipt.record.ownerKey) && (outcome.Removed? || outcome.Restored?) then NewToken(s, n, slot)
               else Untouched(s, n, slot)
  {
    hide SlotOf, InSlot;
    var raw := receipt.record.ownerKey;
    var outcome := ConditionalRollbackPeer(s, receipt, authorized).1;
    if outcome.Removed? || outcome.Restored? {
      var i := FirstEqual(s.file.value, receipt.record).value;
      if slot != SlotOf(raw) {
        if receipt.previous.Some? {
          ReplaceOthers(s.file.value, i, receipt.previous.value, slot);
        } else {
          DropOthers(s.file.value, i, slot);
        }
      }
    }
  }

  lemma {:induction false} TokensStay(s: Store, op: Op)
    requires WellFormed(op) && TokensMade(s)
    ensures TokensMade(Apply(s, op)) && Apply(s, op).made >= s.made
  {
    hide SlotOf, WithoutSpelling, FirstEqual, FirstSpelling;
  }

  lemma {:induction false} FilterOpTouches(s: Store, op: Op, slot: Slot)
    requires WellFormed(op) && TokensMade(s) && (op.RemoveOp? || op.ConditionalRemoveOp?)
    ensures Untouched(s, Apply(s, op), slot) || NewToken(s, Apply(s, op), slot)
  {
    hide SlotOf, WithoutSpelling, InSlot;
    FilterTouches(s, op.ownerKey, slot);
    FilterTouches(TokenForSlot(s, SlotOf(op.ownerKey)).0, op.ownerKey, slot);
  }

  /** A mutation either leaves a slot alone or gives it a token that no slot ever had. */
  lemma {:induction false} TouchedOrNew(s: Store, op: Op, slot: Slot)
    requires WellFormed(op) && TokensMade(s)
    ensures var n := Apply(s, op);
            TokensMade(n) && n.made >= s.made && (Untouched(s, n, slot) || NewToken(s, n, slot))
  {
    hide SlotOf, InSlot, WithoutSpelling, AddPeer, RemovePeer, ConditionalRemovePeer, ConditionalRollbackPeer;
    TokensStay(s, op);
    match op
    case AddOp(record) => AddTouches(s, record, slot);
    case RollbackOp(receipt, authorized) => RollbackTouches(s, receipt, authorized, slot);
    case LookOp(_) =>
    case _ => FilterOpTouches(s, op, slot);
  }

  // ----- Runs -----

  ghost predicate AllWellFormed(ops: seq<Op>) {
    forall i :: 0 <= i < |ops| ==> WellFormed(ops[i])
  }

  ghost function Perform(s: Store, ops: seq<Op>): Store
    requires AllWellFormed(ops)
  {
    if |ops| == 0 then s else Apply(Perform(s, ops[..|ops| - 1]), ops[|ops| - 1])
  }

  /** While a slot's token stays the same, so do its entries; a token that is gone never comes back. */
  lemma {:induction false} TokenGuards(s: Store, ops: seq<Op>, slot: Slot)
    requires AllWellFormed(ops) && TokensMade(s) && slot in s.tokens
    ensures var n := Perform(s, ops);
            && TokensMade(n) && n.made >= s.made && slot in n.tokens
            && (n.tokens[slot] == s.tokens[slot] ==> InSlot(Peers(n), slot) == InSlot(Peers(s), slot))
            && (n.tokens[slot] != s.tokens[slot] ==> n.tokens[slot] >= s.made)
  {
    hide Apply, InSlot;
    if |ops| > 0 {
      TokenGuards(s, ops[..|ops| - 1], slot);
      TouchedOrNew(Perform(s, ops[..|ops| - 1]), ops[|ops| - 1], slot);
    }
  }

  lemma {:induction false} FirstSplit(a: seq<Entry>, b: seq<Entry>, c: seq<Entry>, d: seq<Entry>, x: Entry)
    requires a + [x] + b == c + [x] + d && x !in a && x !in c
    ensures a == c && b == d
  {
    var s, t := a + [x] + b, c + [x] + d;
    assert s[|a|] == x && t[|c|] == x;
    assert forall i :: 0 <= i < |a| ==> s[i] == a[i] && s[i] != x;
    assert forall i :: 0 <= i < |c| ==> t[i] == c[i] && t[i] != x;
    assert |a| == |c|;
    assert a == s[..|a|] && c == t[..|c|] && b == s[|a| + 1..] && d == t[|c| + 1..];
  }

  lemma {:induction false} InSlotWithin(peers: seq<Entry>, slot: Slot, x: Entry)
    ensures x in InSlot(peers, slot) ==> x in peers
  {
    hide SlotOfEntry;
    if |peers| > 0 {
      InSlotWithin(peers[..|peers| - 1], slot, x);
    }
  }

  /** The slot before a write, and around what was written. */
  lemma {:induction false} AddedAt(s: Store, record: Entry) returns (before: seq<Entry>, after: seq<Entry>)
    requires record.Peer?
    ensures var (n, receipt) := AddPeer(s, record);
            var slot := SlotOf(record.ownerKey);
            && InSlot(Peers(n), slot) == before + [record] + after && record !in before
            && InSlot(Peers(s), slot) == before + (if receipt.previous.Some? then [receipt.previous.value] else []) + after
  {
    hide SlotOf, InSlot;
    var peers, slot := Peers(s), SlotOf(record.ownerKey);
    match FirstSpelling(peers, record.ownerKey) {
      case Some(i) =>
        before, after := InSlot(peers[..i], slot), InSlot(peers[i + 1..], slot);
        InSlotAround(peers, i, slot);
        InSlotAround(peers[i := record], i, slot);
        assert peers[i := record][..i] == peers[..i] && peers[i := record][i + 1..] == peers[i + 1..];
        InSlotWithin(peers[..i], slot, record);
      case None =>
        before, after := InSlot(peers, slot), [];
        InSlotJoin(peers, [record], slot);
        InSlotOne(record, slot);
        InSlotWithin(peers, slot, record);
    }
  }

  lemma {:induction false} TakenBackAt(s: Store, receipt: Receipt, before: seq<Entry>, after: seq<Entry>)
    requires WellFormed(RollbackOp(receipt, true)) && s.file.Some?
    requires InSlot(s.file.value, SlotOf(receipt.record.ownerKey)) == before + [receipt.record] + after && receipt.record !in before
    requires var outcome := ConditionalRollbackPeer(s, receipt, true).1; outcome.Removed? || outcome.Restored?
    ensures InSlot(Peers(ConditionalRollbackPeer(s, receipt, true).0), SlotOf(receipt.record.ownerKey))
            == before + (if receipt.previous.Some? then [receipt.previous.value] else []) + after
  {
    hide SlotOf, InSlot;
    var peers, slot := s.file.value, SlotOf(receipt.record.ownerKey);
    var i := FirstEqual(peers, receipt.record).value;
    InSlotAround(peers, i, slot);
    InSlotWithin(peers[..i], slot, receipt.record);
    FirstSplit(before, after, InSlot(peers[..i], slot), InSlot(peers[i + 1..], slot), receipt.record);
    if receipt.previous.Some? {
      var next := peers[i := receipt.previous.value];
      InSlotAround(next, i, slot);
      assert next[..i] == peers[..i] && next[i + 1..] == peers[i + 1..];
    } else {
      InSlotJoin(peers[..i], peers[i + 1..], slot);
    }
  }

  /** A rollback takes effect exactly while the slot has the token of the write, which the entries of the slot then stem from. */
  lemma {:induction false} TakesEffectIff(s: Store, record: Entry, present: Store)
    requires record.Peer? && present.file.Some?
    requires var (added, receipt) := AddPeer(s, record);
             var slot := SlotOf(record.ownerKey);
             slot in present.tokens
             && (present.tokens[slot] == receipt.token ==> InSlot(Peers(present), slot) == InSlot(Peers(added), slot))
    ensures var receipt := AddPeer(s, record).1;
            var slot := SlotOf(record.ownerKey);
            var (n, outcome) := ConditionalRollbackPeer(present, receipt, true);
            && (outcome.Removed? || outcome.Restored? <==> present.tokens[slot] == receipt.token)
            && if outcome.Removed? || outcome.Restored? then InSlot(Peers(n), slot) == InSlot(Peers(s), slot)
               else outcome.Stale? && n == present
  {
    hide SlotOf, InSlot, Written;
    var (added, receipt) := AddPeer(s, record);
    var slot := SlotOf(record.ownerKey);
    if present.tokens[slot] == receipt.token {
      var before, after := AddedAt(s, record);
      assert record in InSlot(Peers(present), slot);
      InSlotWithin(Peers(present), slot, record);
      TakenBackAt(present, receipt, before, after);
    }
  }

  /**
   Whatever mutations follow a write: rolling it back puts the owner's slot back exactly as it was before that write,
   touches no other slot, and succeeds only if nothing has been written to the slot since. It never succeeds twice.
   */
  lemma {:induction false} RollbackRestores(s: Store, record: Entry, ops: seq<Op>, authorized: bool, later: seq<Op>, again: bool)
    requires TokensMade(s) && record.Peer? && AllWellFormed(ops) && AllWellFormed(later)
    requires var (added, receipt) := AddPeer(s, record);
             var outcome := ConditionalRollbackPeer(Perform(added, ops), receipt, authorized).1;
             outcome.Removed? || outcome.Restored?
    ensures var (added, receipt) := AddPeer(s, record);
            var present := Perform(added, ops);
            var n := ConditionalRollbackPeer(present, receipt, authorized).0;
            var slot := SlotOf(record.ownerKey);
            && InSlot(Peers(n), slot) == InSlot(Peers(s), slot)
            && InSlot(Peers(present), slot) == InSlot(Peers(added), slot)
            && (forall other :: other != slot ==> InSlot(Peers(n), other) == InSlot(Peers(present), other))
            && ConditionalRollbackPeer(Perform(n, later), receipt, again).1 == Stale
  {
    var (added, receipt) := AddPeer(s, record);
    var present := Perform(added, ops);
    var n := ConditionalRollbackPeer(present, receipt, authorized).0;
    var slot := SlotOf(record.ownerKey);
    AddTouches(s, record, slot);
    TouchedOrNew(s, AddOp(record), slot);
    var before, after := AddedAt(s, record);
    RolledBack(added, receipt, ops, authorized, before, after, later, again);
  }

  lemma {:induction false} RolledBack(added: Store, receipt: Receipt, ops: seq<Op>, authorized: bool,
                                      before: seq<Entry>, after: seq<Entry>, later: seq<Op>, again: bool)
    requires TokensMade(added) && WellFormed(RollbackOp(receipt, authorized)) && AllWellFormed(ops) && AllWellFormed(later)
    requires var slot := SlotOf(receipt.record.ownerKey);
             slot in added.tokens && added.tokens[slot] == receipt.token
             && InSlot(Peers(added), slot) == before + [receipt.record] + after && receipt.record !in before
    requires var outcome := ConditionalRollbackPeer(Perform(added, ops), receipt, authorized).1;
             outcome.Removed? || outcome.Restored?
    ensures var present := Perform(added, ops);
            var n := ConditionalRollbackPeer(present, receipt, authorized).0;
            var slot := SlotOf(receipt.record.ownerKey);
            && InSlot(Peers(n), slot) == before + (if receipt.previous.Some? then [receipt.previous.value] else []) + after
            && InSlot(Peers(present), slot) == InSlot(Peers(added), slot)
            && (forall other :: other != slot ==> InSlot(Peers(n), other) == InSlot(Peers(present), other))
            && ConditionalRollbackPeer(Perform(n, later), receipt, again).1 == Stale
  {
    hide InSlot, SlotOf, Perform;
    var present := Perform(added, ops);
    var n := ConditionalRollbackPeer(present, receipt, authorized).0;
    var slot := SlotOf(receipt.record.ownerKey);
    TokenGuards(added, ops, slot);
    assert authorized;
    TakenBackAt(present, receipt, before, after);
    forall other | other != slot
      ensures InSlot(Peers(n), other) == InSlot(Peers(present), other)
    {
      RollbackTouches(present, receipt, authorized, other);
    }
    RollbackTouches(present, receipt, authorized, slot);
    TouchedOrNew(present, RollbackOp(receipt, authorized), slot);
    TokenGuards(n, later, slot);
  }
}
