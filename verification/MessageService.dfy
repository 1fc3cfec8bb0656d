/**
 How the service uses the idempotency table: a user message is handed over when its request is new, and only then;
 repetitions are answered from the table.
 */
module MessageService {
  import opened Bytes
  import opened SessionState

  datatype Frame = Frame(id: string, channelId: string, generation: string, clientRequestId: string, fingerprint: string, steer: bool)

  /** What handing the message over comes to; `Threw` is an exception in the callback. */
  datatype Outcome = RejectedMessage | Undelivered | QueuedMessage | Delivered | Threw

  datatype Reply =
    | ResetReply
    | InvalidChannel
    | PayloadConflict
    | TooLarge
    | StatusReply(channelId: string, status: Status, messageId: Option<string>, groupId: Option<string>)
    | NoReply
    | InvalidIds

  /** Clock readings of the table operations that one message can cause. */
  datatype Times = Times(begin: int, begun: int, find: int, update: int, updated: int)

  datatype Service = Service(senderRef: string, table: State, ready: set<string>, channels: map<string, string>)

  function KeyOf(sv: Service, clientRequestId: string): string {
    RecordKey(sv.table.generation, sv.senderRef, clientRequestId)
  }

  /** The table operations of telling a sender that the fate of a message is not known. */
  function TellUnknown(cfg: Config, sv: Service, clientRequestId: string, t: Times): (Service, Reply) {
    var (found, record) := GetRecord(cfg, sv.table, KeyOf(sv, clientRequestId), t.find);
    var looked := sv.(table := found);
    if record.None? || clientRequestId !in sv.channels then (looked, NoReply)
    else
      var (table, updated) := Update(cfg, found, record.value.key, UnknownDelivery, None, None, t.update, t.updated);
      if updated.None? then (sv.(table := table), NoReply)
      else (sv.(table := table), StatusReply(sv.channels[clientRequestId], UnknownDelivery, None, None))
  }

  function AnswerReplay(cfg: Config, sv: Service, f: Frame, record: Record, t: Times): (Service, Reply) {
    match record.status
    case UnknownDelivery => TellUnknown(cfg, sv, f.clientRequestId, t)
    case Received => (sv, StatusReply(f.channelId, Received, None, None))
    case Queued => (sv, StatusReply(f.channelId, Accepted, None, None))
    case _ => (sv, StatusReply(f.channelId, record.status, record.messageId, record.groupId))
  }

  function AnswerNew(cfg: Config, sv: Service, f: Frame, outcome: Outcome, t: Times): (Service, Reply) {
    var key := KeyOf(sv, f.clientRequestId);
    match outcome
    case RejectedMessage => (sv.(table := Forget(sv.table, key), channels := sv.channels - {f.clientRequestId}), TooLarge)
    case QueuedMessage =>
      (sv.(table := Update(cfg, sv.table, key, Queued, None, None, t.update, t.updated).0), StatusReply(f.channelId, Accepted, None, None))
    case Delivered =>
      if f.steer then TellUnknown(cfg, sv, f.clientRequestId, t) else (sv, StatusReply(f.channelId, Received, None, None))
    case _ => TellUnknown(cfg, sv, f.clientRequestId, t)
  }

  /** The service after a user message, its reply, and whether the message was handed over. */
  function Handle(cfg: Config, sv: Service, f: Frame, outcome: Outcome, t: Times): (Service, Reply, bool) {
    if f.channelId !in sv.ready then (sv, InvalidChannel, false)
    else if f.generation != sv.table.generation then (sv, ResetReply, false)
    else
      var (table, begun) := Begin(cfg, sv.table, sv.senderRef, f.clientRequestId, f.fingerprint, t.begin, t.begun);
      var next := sv.(table := table);
      match begun
      case Invalid => (next, InvalidIds, false)
      case Conflict(_) => (next, PayloadConflict, false)
      case Replay(record) =>
        var (after, reply) := AnswerReplay(cfg, next, f, record, t);
        (after, reply, false)
      case New(_) =>
        var (after, reply) := AnswerNew(cfg, next.(channels := sv.channels[f.clientRequestId := f.channelId]), f, outcome, t);
        (after, reply, true)
  }

  /** A browser reports that it has seen the event of its message: the request may be forgotten. */
  function Observe(cfg: Config, sv: Service, clientRequestId: string, now: int): (Service, bool) {
    var (table, record) := GetRecord(cfg, sv.table, KeyOf(sv, clientRequestId), now);
    if record.None? || record.value.senderRef != sv.senderRef then (sv.(table := table), false)
    else (sv.(table := Forget(table, record.value.key), channels := sv.channels - {clientRequestId}), true)
  }

  lemma {:induction false} BegunKey(cfg: Config, table: State, senderRef: string, f: Frame, t: Times)
    ensures var begun := Begin(cfg, table, senderRef, f.clientRequestId, f.fingerprint, t.begin, t.begun).1;
            begun.New? ==> begun.record.key == RecordKey(table.generation, senderRef, f.clientRequestId)
  {
  }

  /** Another generation empties the table and forgets which channels await answers. */
  function Refresh(sv: Service, generation: string): Service {
    if generation == "" || generation == sv.table.generation then sv
    else sv.(table := SetGeneration(sv.table, generation).value, channels := map[])
  }

  class TimelineV2Service {
    const senderRef: string
    const state: V2SessionState
    var ready: set<string>
    var requestChannels: map<string, string>

    function Snapshot(): Service
      reads this, state
    {
      Service(senderRef, state.Snapshot(), ready, requestChannels)
    }

    constructor (senderRef: string, state: V2SessionState)
      ensures this.senderRef == senderRef && this.state == state && ready == {} && requestChannels == map[]
    {
      this.senderRef, this.state, ready, requestChannels := senderRef, state, {}, map[];
    }

    method UnknownDeliveryOf(clientRequestId: string, t: Times) returns (reply: Reply)
      modifies state`records
      ensures (Snapshot(), reply) == TellUnknown(state.Cfg(), old(Snapshot()), clientRequestId, t)
    {
      var key := RecordKey(state.generation, senderRef, clientRequestId);
      var record := state.LookUp(key, t.find);
      if record.None? || clientRequestId !in requestChannels {
        return NoReply;
      }
      var updated := state.UpdateRecord(record.value.key, UnknownDelivery, None, None, t.update, t.updated);
      if updated.None? {
        return NoReply;
      }
      return StatusReply(requestChannels[clientRequestId], UnknownDelivery, None, None);
    }

    /** `outcome` is what the message callback answers if it is called; `handedOver` says whether it is. */
    method HandleUserMessage(f: Frame, outcome: Outcome, t: Times) returns (reply: Reply, handedOver: bool)
      modifies `requestChannels, state`records
      ensures (Snapshot(), reply, handedOver) == Handle(state.Cfg(), old(Snapshot()), f, outcome, t)
    {
      hide Begin, AnswerNew, AnswerReplay;
      if f.channelId !in ready {
        return InvalidChannel, false;
      }
      if f.generation != state.generation {
        return ResetReply, false;
      }
      BegunKey(state.Cfg(), state.Snapshot(), senderRef, f, t);
      var begun := state.BeginRequest(senderRef, f.clientRequestId, f.fingerprint, t.begin, t.begun);
      match begun
      case Invalid => return InvalidIds, false;
      case Conflict(_) => return PayloadConflict, false;
      case Replay(record) =>
        reply := ReplyAgain(f, record, t);
        handedOver := false;
      case New(record) =>
        requestChannels := requestChannels[f.clientRequestId := f.channelId];
        reply := ReplyNew(f, record.key, outcome, t);
        handedOver := true;
    }

    method RefreshGeneration(next: string) returns (changed: bool)
      modifies `requestChannels, state
      ensures Snapshot() == Refresh(old(Snapshot()), next) && changed == (next != "" && next != old(state.generation))
    {
      if next == "" || next == state.generation {
        return false;
      }
      var _ := state.SwitchGeneration(next);
      requestChannels := map[];
      return true;
    }

    method HandleObserved(clientRequestId: string, now: int) returns (known: bool)
      modifies `requestChannels, state`records
      ensures (Snapshot(), known) == Observe(state.Cfg(), old(Snapshot()), clientRequestId, now)
    {
      var record := state.LookUp(RecordKey(state.generation, senderRef, clientRequestId), now);
      if record.None? || record.value.senderRef != senderRef {
        return false;
      }
      state.ForgetKey(record.value.key);
      requestChannels := requestChannels - {clientRequestId};
      return true;
    }

    method ReplyAgain(f: Frame, record: Record, t: Times) returns (reply: Reply)
      modifies state`records
      ensures (Snapshot(), reply) == AnswerReplay(state.Cfg(), old(Snapshot()), f, record, t)
    {
      match record.status
      case UnknownDelivery => reply := UnknownDeliveryOf(f.clientRequestId, t);
      case Received => reply := StatusReply(f.channelId, Received, None, None);
      case Queued => reply := StatusReply(f.channelId, Accepted, None, None);
      case _ => reply := StatusReply(f.channelId, record.status, record.messageId, record.groupId);
    }

    method ReplyNew(f: Frame, key: string, outcome: Outcome, t: Times) returns (reply: Reply)
      requires key == RecordKey(state.generation, senderRef, f.clientRequestId)
      modifies `requestChannels, state`records
      ensures (Snapshot(), reply) == AnswerNew(state.Cfg(), old(Snapshot()), f, outcome, t)
    {
      match outcome
      case RejectedMessage =>
        state.ForgetKey(key);
        requestChannels := requestChannels - {f.clientRequestId};
        reply := TooLarge;
      case QueuedMessage =>
        var _ := state.UpdateRecord(key, Queued, None, None, t.update, t.updated);
        reply := StatusReply(f.channelId, Accepted, None, None);
      case Delivered =>
        if f.steer {
          reply := UnknownDeliveryOf(f.clientRequestId, t);
        } else {
          reply := StatusReply(f.channelId, Received, None, None);
        }
      case _ => reply := UnknownDeliveryOf(f.clientRequestId, t);
    }
  }

  // ----- Handing over is beginning anew -----

  ghost function Perform(cfg: Config, st: State, ops: seq<Op>): State {
    if |ops| == 0 then st else Apply(cfg, Perform(cfg, st, ops[..|ops| - 1]), ops[|ops| - 1])
  }

  ghost function UnknownOps(cfg: Config, sv: Service, clientRequestId: string, t: Times): seq<Op> {
    var key := KeyOf(sv, clientRequestId);
    var record := GetRecord(cfg, sv.table, key, t.find).1;
    if record.None? || clientRequestId !in sv.channels then [GetOp(key, t.find)]
    else [GetOp(key, t.find), UpdateOp(key, UnknownDelivery, None, None, t.update, t.updated)]
  }

  ghost function ReplayOps(cfg: Config, sv: Service, f: Frame, record: Record, t: Times): seq<Op> {
    if record.status.UnknownDelivery? then UnknownOps(cfg, sv, f.clientRequestId, t) else []
  }

  ghost function NewOps(cfg: Config, sv: Service, f: Frame, outcome: Outcome, t: Times): seq<Op> {
    var key := KeyOf(sv, f.clientRequestId);
    match outcome
    case RejectedMessage => [ForgetOp(key)]
    case QueuedMessage => [UpdateOp(key, Queued, None, None, t.update, t.updated)]
    case Delivered => if f.steer then UnknownOps(cfg, sv, f.clientRequestId, t) else []
    case _ => UnknownOps(cfg, sv, f.clientRequestId, t)
  }

  /** The operations a message performs on the table after its request has begun. */
  ghost function LaterOps(cfg: Config, sv: Service, f: Frame, outcome: Outcome, t: Times): seq<Op> {
    var (table, begun) := Begin(cfg, sv.table, sv.senderRef, f.clientRequestId, f.fingerprint, t.begin, t.begun);
    var next := sv.(table := table);
    match begun
    case Replay(record) => ReplayOps(cfg, next, f, record, t)
    case New(_) => NewOps(cfg, next.(channels := sv.channels[f.clientRequestId := f.channelId]), f, outcome, t)
    case _ => []
  }

  ghost function OpsOf(cfg: Config, sv: Service, f: Frame, outcome: Outcome, t: Times): seq<Op> {
    if f.channelId !in sv.ready || f.generation != sv.table.generation then []
    else [BeginOp(sv.senderRef, f.clientRequestId, f.fingerprint, t.begin, t.begun)] + LaterOps(cfg, sv, f, outcome, t)
  }

  lemma {:induction false} PerformOne(cfg: Config, st: State, a: Op)
    ensures Perform(cfg, st, [a]) == Apply(cfg, st, a)
  {
    assert [a][..0] == [];
  }

  lemma {:induction false} PerformJoin(cfg: Config, st: State, a: seq<Op>, b: seq<Op>)
    ensures Perform(cfg, st, a + b) == Perform(cfg, Perform(cfg, st, a), b)
  {
    if |b| == 0 {
      assert a + b == a;
    } else {
      assert (a + b)[..|a + b| - 1] == a + b[..|b| - 1];
      PerformJoin(cfg, st, a, b[..|b| - 1]);
    }
  }

  lemma {:induction false} UnknownPerforms(cfg: Config, sv: Service, clientRequestId: string, t: Times)
    ensures TellUnknown(cfg, sv, clientRequestId, t).0.table == Perform(cfg, sv.table, UnknownOps(cfg, sv, clientRequestId, t))
  {
    hide Perform, Prune, PutLast, Update;
    var key := KeyOf(sv, clientRequestId);
    PerformOne(cfg, sv.table, GetOp(key, t.find));
    var st := Apply(cfg, sv.table, GetOp(key, t.find));
    var update := UpdateOp(key, UnknownDelivery, None, None, t.update, t.updated);
    PerformOne(cfg, st, update);
    PerformJoin(cfg, sv.table, [GetOp(key, t.find)], [update]);
    assert [GetOp(key, t.find)] + [update] == [GetOp(key, t.find), update];
  }

  /** Handling a message performs just these operations, and hands it over exactly when its request begins as new. */
  lemma {:induction false} HandlePerforms(cfg: Config, sv: Service, f: Frame, outcome: Outcome, t: Times)
    ensures Handle(cfg, sv, f, outcome, t).0.table == Perform(cfg, sv.table, OpsOf(cfg, sv, f, outcome, t))
    ensures Handle(cfg, sv, f, outcome, t).2
            <==> |OpsOf(cfg, sv, f, outcome, t)| > 0
                 && Delivers(cfg, sv.table, OpsOf(cfg, sv, f, outcome, t)[0], KeyOf(sv, f.clientRequestId))
    ensures forall i :: 0 < i < |OpsOf(cfg, sv, f, outcome, t)| ==> !OpsOf(cfg, sv, f, outcome, t)[i].BeginOp?
  {
    hide Begin, LaterOps, TellUnknown, AnswerNew, AnswerReplay;
    if f.channelId in sv.ready && f.generation == sv.table.generation {
      var begin := BeginOp(sv.senderRef, f.clientRequestId, f.fingerprint, t.begin, t.begun);
      var (table, begun) := Begin(cfg, sv.table, sv.senderRef, f.clientRequestId, f.fingerprint, t.begin, t.begun);
      var next := sv.(table := table);
      BeginKey(cfg, sv.table, begin);
      PerformOne(cfg, sv.table, begin);
      PerformJoin(cfg, sv.table, [begin], LaterOps(cfg, sv, f, outcome, t));
      LaterPerforms(cfg, sv, f, outcome, t);
    }
  }

  lemma {:induction false} BeginKey(cfg: Config, st: State, op: Op)
    requires op.BeginOp?
    ensures var begun := Begin(cfg, st, op.senderRef, op.clientRequestId, op.fingerprint, op.now, op.later);
            && begun.0.generation == st.generation
            && (begun.1.New? ==> begun.1.record.key == RecordKey(st.generation, op.senderRef, op.clientRequestId))
  {
    hide Prune, Find, PutLast, Newest;
  }

  ghost predicate NoBegin(ops: seq<Op>) {
    forall i :: 0 <= i < |ops| ==> !ops[i].BeginOp?
  }

  lemma {:induction false} ReplayPerforms(cfg: Config, sv: Service, f: Frame, record: Record, t: Times)
    ensures AnswerReplay(cfg, sv, f, record, t).0.table == Perform(cfg, sv.table, ReplayOps(cfg, sv, f, record, t))
    ensures NoBegin(ReplayOps(cfg, sv, f, record, t))
  {
    hide Apply, TellUnknown;
    UnknownPerforms(cfg, sv, f.clientRequestId, t);
  }

  lemma {:induction false} NewPerforms(cfg: Config, sv: Service, f: Frame, outcome: Outcome, t: Times)
    ensures AnswerNew(cfg, sv, f, outcome, t).0.table == Perform(cfg, sv.table, NewOps(cfg, sv, f, outcome, t))
    ensures NoBegin(NewOps(cfg, sv, f, outcome, t))
  {
    hide TellUnknown, Update, Forget;
    UnknownPerforms(cfg, sv, f.clientRequestId, t);
    PerformOne(cfg, sv.table, ForgetOp(KeyOf(sv, f.clientRequestId)));
    PerformOne(cfg, sv.table, UpdateOp(KeyOf(sv, f.clientRequestId), Queued, None, None, t.update, t.updated));
  }

  lemma {:induction false} LaterPerforms(cfg: Config, sv: Service, f: Frame, outcome: Outcome, t: Times)
    requires f.channelId in sv.ready && f.generation == sv.table.generation
    ensures var ops := LaterOps(cfg, sv, f, outcome, t);
            && Handle(cfg, sv, f, outcome, t).0.table
               == Perform(cfg, Begin(cfg, sv.table, sv.senderRef, f.clientRequestId, f.fingerprint, t.begin, t.begun).0, ops)
            && NoBegin(ops)
  {
    hide Begin, AnswerReplay, AnswerNew, ReplayOps, NewOps, Apply;
    var (table, begun) := Begin(cfg, sv.table, sv.senderRef, f.clientRequestId, f.fingerprint, t.begin, t.begun);
    var next := sv.(table := table);
    match begun
    case Replay(record) => ReplayPerforms(cfg, next, f, record, t);
    case New(_) => NewPerforms(cfg, next.(channels := sv.channels[f.clientRequestId := f.channelId]), f, outcome, t);
    case _ =>
  }

  // ----- Handed over at most once -----

  /** What a session does with its table: user messages, changes of generation, and everything else. */
  datatype Act = Message(frame: Frame, outcome: Outcome, times: Times) | Refreshes(generation: string) | Other(op: Op)

  datatype Course = Opened(service: Service, time: int) | Acted(before: Course, act: Act)

  ghost function ServiceAfter(cfg: Config, c: Course): Service {
    match c
    case Opened(service, _) => service
    case Acted(before, Message(f, outcome, t)) => Handle(cfg, ServiceAfter(cfg, before), f, outcome, t).0
    case Acted(before, Refreshes(generation)) => Refresh(ServiceAfter(cfg, before), generation)
    case Acted(before, Other(op)) =>
      var sv := ServiceAfter(cfg, before);
      sv.(table := Apply(cfg, sv.table, op))
  }

  ghost function ActOps(cfg: Config, sv: Service, act: Act): seq<Op> {
    match act
    case Message(f, outcome, t) => OpsOf(cfg, sv, f, outcome, t)
    case Refreshes(generation) => [SetGenerationOp(generation)]
    case Other(op) => [op]
  }

  ghost function Extend(run: Run, ops: seq<Op>): Run {
    if |ops| == 0 then run else Did(Extend(run, ops[..|ops| - 1]), ops[|ops| - 1])
  }

  /** The operations on the table, one by one. */
  ghost function RunOf(cfg: Config, c: Course): Run {
    match c
    case Opened(service, time) => From(service.table, time)
    case Acted(before, act) => Extend(RunOf(cfg, before), ActOps(cfg, ServiceAfter(cfg, before), act))
  }

  /** How often messages under `key` have been handed over. */
  ghost function HandedOver(cfg: Config, c: Course, key: string): nat {
    match c
    case Opened(_, _) => 0
    case Acted(before, Message(f, outcome, t)) =>
      var sv := ServiceAfter(cfg, before);
      HandedOver(cfg, before, key) + if Handle(cfg, sv, f, outcome, t).2 && KeyOf(sv, f.clientRequestId) == key then 1 else 0
    case Acted(before, _) => HandedOver(cfg, before, key)
  }

  /** Requests begin, and the generation changes, through the service alone. */
  ghost predicate ThroughService(c: Course) {
    c.Acted? ==> ThroughService(c.before) && (c.act.Other? ==> !c.act.op.BeginOp? && !c.act.op.SetGenerationOp?)
  }

  lemma {:induction false} ExtendState(cfg: Config, run: Run, ops: seq<Op>)
    ensures StateOf(cfg, Extend(run, ops)) == Perform(cfg, StateOf(cfg, run), ops)
  {
    hide Apply;
    if |ops| > 0 {
      ExtendState(cfg, run, ops[..|ops| - 1]);
    }
  }

  lemma {:induction false} ExtendDeliveries(cfg: Config, run: Run, ops: seq<Op>, key: string)
    requires forall i :: 0 < i < |ops| ==> !ops[i].BeginOp?
    ensures Deliveries(cfg, Extend(run, ops), key)
            == Deliveries(cfg, run, key) + if |ops| > 0 && Delivers(cfg, StateOf(cfg, run), ops[0], key) then 1 else 0
  {
    hide Apply;
    if |ops| > 0 {
      ExtendDeliveries(cfg, run, ops[..|ops| - 1], key);
      ExtendState(cfg, run, ops[..|ops| - 1]);
    }
  }

  lemma {:induction false} TablesAgree(cfg: Config, c: Course)
    ensures StateOf(cfg, RunOf(cfg, c)) == ServiceAfter(cfg, c).table
  {
    hide Handle, OpsOf, Perform, Extend;
    if c.Acted? {
      var sv := ServiceAfter(cfg, c.before);
      TablesAgree(cfg, c.before);
      ExtendState(cfg, RunOf(cfg, c.before), ActOps(cfg, sv, c.act));
      match c.act
      case Message(f, outcome, t) => HandlePerforms(cfg, sv, f, outcome, t);
      case Refreshes(generation) => PerformOne(cfg, sv.table, SetGenerationOp(generation));
      case Other(op) => PerformOne(cfg, sv.table, op);
    }
  }

  lemma {:induction false} DeliversItsKey(cfg: Config, sv: Service, f: Frame, outcome: Outcome, t: Times, key: string)
    requires |OpsOf(cfg, sv, f, outcome, t)| > 0
    ensures Delivers(cfg, sv.table, OpsOf(cfg, sv, f, outcome, t)[0], key)
            <==> Handle(cfg, sv, f, outcome, t).2 && KeyOf(sv, f.clientRequestId) == key
  {
    hide Begin, Handle, LaterOps;
    HandlePerforms(cfg, sv, f, outcome, t);
    BeginKey(cfg, sv.table, OpsOf(cfg, sv, f, outcome, t)[0]);
  }

  lemma {:induction false} HandedOverIsDelivered(cfg: Config, c: Course, key: string)
    requires ThroughService(c)
    ensures HandedOver(cfg, c, key) == Deliveries(cfg, RunOf(cfg, c), key)
  {
    hide Handle, OpsOf;
    if c.Acted? {
      var sv := ServiceAfter(cfg, c.before);
      HandedOverIsDelivered(cfg, c.before, key);
      TablesAgree(cfg, c.before);
      match c.act
      case Message(f, outcome, t) =>
        HandlePerforms(cfg, sv, f, outcome, t);
        if |OpsOf(cfg, sv, f, outcome, t)| > 0 {
          DeliversItsKey(cfg, sv, f, outcome, t, key);
        }
        ExtendDeliveries(cfg, RunOf(cfg, c.before), OpsOf(cfg, sv, f, outcome, t), key);
      case _ => ExtendDeliveries(cfg, RunOf(cfg, c.before), ActOps(cfg, sv, c.act), key);
    }
  }

  /** While the table has no reason to forget a request, the session hands its message over at most once. */
  lemma {:induction false} HandedOverAtMostOnce(cfg: Config, c: Course, key: string)
    requires cfg.Valid() && ThroughService(c) && Clocked(cfg, RunOf(cfg, c)) && Undisturbed(cfg, RunOf(cfg, c), key)
    ensures HandedOver(cfg, c, key) <= 1
  {
    HandedOverIsDelivered(cfg, c, key);
    DeliveredAtMostOnce(cfg, RunOf(cfg, c), key);
  }
}
