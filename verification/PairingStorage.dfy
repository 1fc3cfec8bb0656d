/**
 The pairing attempts and the file of owners together: an attempt's write and its taking back are mutations of the
 file, which interleave with those of other attempts and with owners being removed.
 */
module PairingStorage {
  import opened Bytes
  import P = PairingCoordinator
  import S = OwnerStorage

  /** An attempt's write: the store as it was before, and the record's key and further fields. */
  datatype Write = Write(before: S.Store, raw: string, fields: string)

  function RecordOf(w: Write): S.Entry { S.Peer(w.raw, w.fields) }

  function Written(w: Write): S.Store { S.AddPeer(w.before, RecordOf(w)).0 }

  function ReceiptOf(w: Write): (receipt: S.Receipt)
    ensures receipt.record == RecordOf(w)
  {
    S.AddPeer(w.before, RecordOf(w)).1
  }

  function SlotOf(w: Write): S.Slot { S.SlotOf(w.raw) }

  /** Both maps are by attempt; `undos` holds the store as each taking back found it. */
  datatype Joint = Joint(world: P.World, store: S.Store, writes: map<nat, Write>, undos: map<nat, S.Store>)

  datatype Step =
    | Pairs(step: P.Step)
    | Writes(i: nat, fields: string)
    | TakesBack(i: nat)
    | Mutates(op: S.Op)

  /**
   An attempt goes on from its write once that was made or has failed, and from its undoing once that has run. The
   other mutations remove owners and look tokens up.
   */
  predicate Enabled(j: Joint, step: Step) {
    match step
    case Pairs(AddEnds(i, ok, _)) => ok <==> i in j.writes
    case Pairs(UndoEnds(i)) => i in j.undos
    case Pairs(_) => true
    case Writes(i, _) => i < |j.world.processes| && j.world.processes[i].phase.Adding? && i !in j.writes
    case TakesBack(i) => i < |j.world.processes| && j.world.processes[i].phase.Undoing? && i in j.writes && i !in j.undos
    case Mutates(op) => op.RemoveOp? || op.ConditionalRemoveOp? || op.LookOp?
  }

  function UndoOf(w: Write): (op: S.Op)
    ensures S.WellFormed(op)
  {
    S.RollbackOp(ReceiptOf(w), true)
  }

  function Take(j: Joint, step: Step): Joint {
    if !Enabled(j, step) then j
    else
      match step
      case Pairs(s) => j.(world := P.Next(j.world, s))
      case Writes(i, fields) =>
        var w := Write(j.store, j.world.processes[i].attempt.ownerId, fields);
        j.(store := Written(w), writes := j.writes[i := w])
      case TakesBack(i) => j.(store := S.Apply(j.store, UndoOf(j.writes[i])), undos := j.undos[i := j.store])
      case Mutates(op) => j.(store := S.Apply(j.store, op))
  }

  // ----- What every interleaving keeps -----

  /** The file has been read or written, and while the slot has the write's token, it has what the write left there. */
  ghost predicate Holds(s: S.Store, w: Write) {
    var slot := SlotOf(w);
    && s.file.Some? && slot in s.tokens && ReceiptOf(w).token < s.made
    && (s.tokens[slot] == ReceiptOf(w).token ==> S.InSlot(S.Peers(s), slot) == S.InSlot(S.Peers(Written(w)), slot))
  }

  lemma {:induction false} FileStays(s: S.Store, op: S.Op)
    requires S.WellFormed(op) && s.file.Some?
    ensures S.Apply(s, op).file.Some?
  {
    hide S.SlotOf, S.WithoutSpelling, S.FirstEqual, S.FirstSpelling;
  }

  lemma {:induction false} HoldsStays(s: S.Store, op: S.Op, w: Write)
    requires S.WellFormed(op) && S.TokensMade(s) && Holds(s, w)
    ensures Holds(S.Apply(s, op), w)
  {
    hide S.Apply, S.SlotOf, S.InSlot, S.WellFormed, S.AddPeer;
    FileStays(s, op);
    S.TouchedOrNew(s, op, SlotOf(w));
  }

  lemma {:induction false} HoldsWritten(w: Write)
    ensures Holds(Written(w), w)
  {
    hide S.SlotOf, S.InSlot;
  }

  ghost predicate FileKept(j: Joint) {
    && S.TokensMade(j.store)
    && (forall i :: i in j.writes ==> Holds(j.store, j.writes[i]))
    && forall i :: i in j.undos ==> i in j.writes && Holds(j.undos[i], j.writes[i])
  }

  lemma {:induction false} FileStep(j: Joint, op: S.Op)
    requires FileKept(j) && S.WellFormed(op)
    ensures FileKept(j.(store := S.Apply(j.store, op)))
  {
    hide Holds, S.Apply, S.WellFormed, S.TokensMade;
    S.TokensStay(j.store, op);
    forall i | i in j.writes
      ensures Holds(S.Apply(j.store, op), j.writes[i])
    {
      HoldsStays(j.store, op, j.writes[i]);
    }
  }

  lemma {:induction false} FileAlwaysKept(j: Joint, step: Step)
    requires FileKept(j)
    ensures FileKept(Take(j, step))
  {
    hide Holds, S.Apply, S.TokensMade, P.Next, S.AddPeer;
    if Enabled(j, step) {
      match step
      case Pairs(_) =>
      case Writes(i, fields) =>
        var w := Write(j.store, j.world.processes[i].attempt.ownerId, fields);
        WrittenIs(w);
        FileStep(j, S.AddOp(RecordOf(w)));
        HoldsWritten(w);
      case TakesBack(i) => FileStep(j, UndoOf(j.writes[i]));
      case Mutates(op) => FileStep(j, op);
    }
  }

  lemma {:induction false} WrittenIs(w: Write)
    ensures S.Apply(w.before, S.AddOp(RecordOf(w))) == Written(w)
  {
  }

  /** How far an attempt is says whether it has written and whether its write has been taken back. */
  ghost predicate Follows(p: P.Process, i: nat, writes: map<nat, Write>, undos: map<nat, S.Store>) {
    && (i in writes ==> writes[i].raw == p.attempt.ownerId)
    && (!p.phase.Adding? ==> (i in writes <==> p.wrote))
    && (i in undos ==> i in writes && p.undone == 1)
    && (p.phase.Finished? && p.undone == 1 ==> i in undos)
  }

  ghost predicate AllFollow(j: Joint) {
    && (forall i :: i in j.writes || i in j.undos ==> i < |j.world.processes|)
    && forall i :: 0 <= i < |j.world.processes| ==> Follows(j.world.processes[i], i, j.writes, j.undos)
  }

  ghost predicate Ended(p: P.Process) { !p.phase.Adding? && (p.phase.Finished? ==> p.undone == 0) }

  /** What a step of the coordinator does to one attempt. */
  lemma {:induction false} ProcessMoves(w: P.World, step: P.Step, i: nat)
    requires i < |w.processes| && P.Sound(w)
    ensures var n := P.Next(w, step);
            && i < |n.processes|
            && var p, q := w.processes[i], n.processes[i];
               && q.attempt == p.attempt
               && (q == p
                   || (step.AddEnds? && step.i == i && p.undone == 0 && Ended(q) && q.wrote == step.ok)
                   || (step.AnnounceEnds? && step.i == i && !p.phase.Adding? && p.undone == 0 && Ended(q) && q.wrote == p.wrote)
                   || (step.UndoEnds? && step.i == i && !p.phase.Adding? && q == p.(phase := P.Finished)))
  {
    assert P.InOrder(w.processes[i]);
  }

  lemma {:induction false} NewProcesses(w: P.World, step: P.Step, i: nat)
    requires |w.processes| <= i < |P.Next(w, step).processes|
    ensures P.Next(w, step).processes[i].phase.Adding? && P.Next(w, step).processes[i].undone == 0
  {
    hide P.Handle, P.Abandon;
  }

  lemma {:induction false} PairsFollow(j: Joint, step: P.Step)
    requires AllFollow(j) && P.Sound(j.world) && Enabled(j, Pairs(step))
    ensures AllFollow(Take(j, Pairs(step)))
  {
    hide P.Sound, P.Next;
    var n := P.Next(j.world, step);
    if |j.world.processes| > 0 {
      ProcessMoves(j.world, step, |j.world.processes| - 1);
    }
    forall i | 0 <= i < |j.world.processes|
      ensures i < |n.processes| && Follows(n.processes[i], i, j.writes, j.undos)
    {
      ProcessMoves(j.world, step, i);
    }
    forall i | |j.world.processes| <= i < |n.processes|
      ensures Follows(n.processes[i], i, j.writes, j.undos)
    {
      NewProcesses(j.world, step, i);
    }
  }

  lemma {:induction false} UndoFollows(j: Joint, i: nat)
    requires AllFollow(j) && P.Sound(j.world) && Enabled(j, TakesBack(i))
    ensures AllFollow(Take(j, TakesBack(i)))
  {
    hide S.Apply, S.AddPeer;
    assert P.InOrder(j.world.processes[i]);
    assert Follows(j.world.processes[i], i, j.writes, j.undos);
  }

  lemma {:induction false} AlwaysFollow(j: Joint, step: Step)
    requires AllFollow(j) && P.Sound(j.world)
    ensures AllFollow(Take(j, step)) && P.Sound(Take(j, step).world)
  {
    hide AllFollow, P.Sound, P.Next, S.Apply, S.AddPeer;
    if Enabled(j, step) {
      match step
      case Pairs(s) =>
        P.NextSound(j.world, s);
        PairsFollow(j, s);
      case Writes(i, fields) => WriteFollows(j, i, fields);
      case TakesBack(i) => UndoFollows(j, i);
      case Mutates(op) => MutationFollows(j, op);
    }
  }

  lemma {:induction false} WriteFollows(j: Joint, i: nat, fields: string)
    requires AllFollow(j) && Enabled(j, Writes(i, fields))
    ensures AllFollow(Take(j, Writes(i, fields)))
  {
  }

  lemma {:induction false} MutationFollows(j: Joint, op: S.Op)
    requires AllFollow(j) && Enabled(j, Mutates(op))
    ensures AllFollow(Take(j, Mutates(op)))
  {
  }

  // ----- Every interleaving -----

  datatype Run = Begin(file: Option<seq<S.Entry>>) | Then(before: Run, step: Step)

  ghost function After(run: Run): Joint {
    match run
    case Begin(file) => Joint(P.Start, S.Store(file, map[], 0), map[], map[])
    case Then(before, step) => Take(After(before), step)
  }

  lemma {:induction false} AlwaysKept(run: Run)
    ensures FileKept(After(run)) && AllFollow(After(run)) && P.Sound(After(run).world)
  {
    hide FileKept, AllFollow, P.Sound, Take;
    match run
    case Begin(file) => StartKept(file);
    case Then(before, step) =>
      AlwaysKept(before);
      FileAlwaysKept(After(before), step);
      AlwaysFollow(After(before), step);
  }

  lemma {:induction false} StartKept(file: Option<seq<S.Entry>>)
    ensures FileKept(After(Begin(file))) && AllFollow(After(Begin(file))) && P.Sound(After(Begin(file)).world)
  {
  }

  /** Taking a write back finds the slot as the write left it and restores it, or finds another token and does nothing. */
  ghost predicate TakenBack(w: Write, found: S.Store) {
    var n := S.Apply(found, UndoOf(w));
    if SlotOf(w) in found.tokens && found.tokens[SlotOf(w)] == ReceiptOf(w).token then
      forall slot :: S.InSlot(S.Peers(n), slot) == S.InSlot(S.Peers(if slot == SlotOf(w) then w.before else found), slot)
    else n == found
  }

  lemma {:induction false} HeldIsTakenBack(w: Write, found: S.Store)
    requires Holds(found, w)
    ensures TakenBack(w, found)
  {
    hide S.SlotOf, S.InSlot, S.AddPeer, S.ConditionalRollbackPeer;
    S.TakesEffectIff(w.before, RecordOf(w), found);
    assert S.WellFormed(UndoOf(w));
    forall slot | slot != SlotOf(w)
      ensures S.InSlot(S.Peers(S.Apply(found, UndoOf(w))), slot) == S.InSlot(S.Peers(found), slot)
    {
      S.RollbackTouches(found, ReceiptOf(w), true, slot);
    }
  }

  /**
   What the file of owners holds when an attempt has ended, however attempts, removals and lookups interleave: without
   a write of its own the attempt never touched the file. A committed write was never taken back, and as long as
   nothing else was written to the owner's slot the slot is as the write left it, with the record in it. A write that
   was not committed was taken back once: that restored the slot as it was before the write and touched no other, or,
   if the slot had been written to since, left the file alone.
   */
  lemma {:induction false} FileFollowsAttempt(run: Run, i: nat)
    requires i < |After(run).world.processes| && After(run).world.processes[i].phase.Finished?
    ensures var j := After(run);
            var p := j.world.processes[i];
            && (i in j.writes <==> p.wrote)
            && (i in j.undos <==> p.wrote && !p.committed)
            && (p.wrote ==>
                  var w := j.writes[i];
                  && w.raw == p.attempt.ownerId
                  && (SlotOf(w) in j.store.tokens && j.store.tokens[SlotOf(w)] == ReceiptOf(w).token ==>
                        && S.InSlot(S.Peers(j.store), SlotOf(w)) == S.InSlot(S.Peers(Written(w)), SlotOf(w))
                        && RecordOf(w) in S.Peers(j.store))
                  && (i in j.undos ==> TakenBack(w, j.undos[i])))
  {
    hide After, S.SlotOf, S.InSlot, S.AddPeer, TakenBack;
    AlwaysKept(run);
    var j := After(run);
    var p := j.world.processes[i];
    assert P.InOrder(p) && Follows(p, i, j.writes, j.undos);
    if p.wrote {
      var w := j.writes[i];
      var before, after := S.AddedAt(w.before, RecordOf(w));
      if j.store.tokens[SlotOf(w)] == ReceiptOf(w).token {
        assert RecordOf(w) in S.InSlot(S.Peers(j.store), SlotOf(w));
        S.InSlotWithin(S.Peers(j.store), SlotOf(w), RecordOf(w));
      }
      if i in j.undos {
        HeldIsTakenBack(w, j.undos[i]);
      }
    }
  }
}
