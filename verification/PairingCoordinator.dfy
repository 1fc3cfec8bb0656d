/**
 One pairing attempt per owner and request: a durable write, an announcement to the relay, then the commit of the QR
 token, or the write is taken back. Relays, bindings and tokens may change between any two of these steps.
 */
module PairingCoordinator {
  import opened Bytes
  import opened QrSession

  type AttemptKey = (string, string)

  /** `id` is the identity of the attempt object; `pairOk` is the frame that would confirm it. */
  datatype Attempt = Attempt(id: nat, ownerId: string, requestId: string, relay: nat, binding: nat, reservation: Reservation, pairOk: string)

  function KeyOf(a: Attempt): AttemptKey { (a.ownerId, a.requestId) }

  /** The coordinator's own state, and the QR session that it works on. */
  datatype Coordinator = Coordinator(attempts: map<AttemptKey, Attempt>, qr: Qr)

  // ----- The stretches between two awaits -----

  datatype Handled =
    | NotCurrent
    | Waits                       // for the attempt that is under way
    | Rejected
    | Replays(completion: string)
    | NoBinding
    | Begun(attempt: Attempt)

  /** `attached` is the binding of the owner to the relay, if it can be made. */
  function Handle(c: Coordinator, id: nat, relay: nat, relayCurrent: bool, ownerId: string, requestId: string, token: Token, now: int,
                  attached: Option<nat>, pairOk: string): (Coordinator, Handled)
  {
    if !relayCurrent then (c, NotCurrent)
    else if (ownerId, requestId) in c.attempts then (c, Waits)
    else
      var (qr, result) := Reserve(c.qr, token, ownerId, requestId, now);
      match result
      case Replayed(completion) => (c.(qr := qr), Replays(completion))
      case Granted(r) =>
        if attached.None? then (c.(qr := Release(qr, r).0), NoBinding)
        else
          var a := Attempt(id, ownerId, requestId, relay, attached.value, r, pairOk);
          (Coordinator(c.attempts[KeyOf(a) := a], qr), Begun(a))
      case _ => (c.(qr := qr), Rejected)
  }

  predicate CanCommit(c: Coordinator, a: Attempt, live: bool, now: int) {
    live && IsReservationCurrent(c.qr, a.reservation, now)
  }

  function Finish(c: Coordinator, a: Attempt, completed: bool): Coordinator {
    Coordinator(if KeyOf(a) in c.attempts && c.attempts[KeyOf(a)] == a then c.attempts - {KeyOf(a)} else c.attempts,
                if completed then c.qr else Release(c.qr, a.reservation).0)
  }

  datatype Verdict = Failed | MustUndo | MustAnnounce | Confirmed

  /** The write has been made, or has failed; `live` says whether relay and binding are still the attempt's. */
  function AfterAdd(c: Coordinator, a: Attempt, ok: bool, live: bool, now: int): (Coordinator, Verdict) {
    if !ok then (Finish(c, a, false), Failed)
    else if !CanCommit(c, a, live, now) then (c, MustUndo)
    else (c, MustAnnounce)
  }

  datatype Announcement = Accepted | Refused | Threw

  function AfterAnnounce(c: Coordinator, a: Attempt, outcome: Announcement, live: bool, now: int): (Coordinator, Verdict) {
    if !outcome.Accepted? || !CanCommit(c, a, live, now) then (c, MustUndo)
    else
      var (qr, ok) := Commit(c.qr, a.reservation, a.pairOk, now);
      if !ok then (c, MustUndo) else (Finish(c.(qr := qr), a, true), Confirmed)
  }

  function AfterUndo(c: Coordinator, a: Attempt): Coordinator { Finish(c, a, false) }

  /** Attempts whose relay or binding is gone are dropped and their reservations released; `live` are the others. */
  function Abandon(c: Coordinator, live: set<nat>): Coordinator {
    var kept := map k | k in c.attempts && c.attempts[k].id in live :: c.attempts[k];
    var held := if c.qr.active.Some? then c.qr.active.value.held else None;
    if held.Some? && held.value.status.Reserved? && (exists k :: k in c.attempts && c.attempts[k].id !in live && c.attempts[k].reservation == held.value.reservation)
    then Coordinator(kept, WithStatus(c.qr, Released))
    else Coordinator(kept, c.qr)
  }

  class PairingAttempts {
    const qrSession: QRSession
    var attempts: map<AttemptKey, Attempt>

    function State(): Coordinator
      reads this, qrSession
    {
      Coordinator(attempts, qrSession.State())
    }

    constructor (qrSession: QRSession)
      ensures this.qrSession == qrSession && attempts == map[]
    {
      this.qrSession, attempts := qrSession, map[];
    }

    method HandleRequest(id: nat, relay: nat, relayCurrent: bool, ownerId: string, requestId: string, token: Token, now: int,
                         attached: Option<nat>, pairOk: string) returns (handled: Handled)
      modifies `attempts, qrSession
      ensures (State(), handled) == Handle(old(State()), id, relay, relayCurrent, ownerId, requestId, token, now, attached, pairOk)
    {
      if !relayCurrent {
        return NotCurrent;
      }
      if (ownerId, requestId) in attempts {
        return Waits;
      }
      var result := qrSession.ReserveToken(token, ownerId, requestId, now);
      match result
      case Replayed(completion) => return Replays(completion);
      case Granted(r) =>
        if attached.None? {
          var _ := qrSession.ReleaseToken(r);
          return NoBinding;
        }
        var a := Attempt(id, ownerId, requestId, relay, attached.value, r, pairOk);
        attempts := attempts[KeyOf(a) := a];
        return Begun(a);
      case _ => return Rejected;
    }

    method FinishAttempt(a: Attempt, completed: bool)
      modifies `attempts, qrSession
      ensures State() == Finish(old(State()), a, completed)
    {
      if !completed {
        var _ := qrSession.ReleaseToken(a.reservation);
      }
      if KeyOf(a) in attempts && attempts[KeyOf(a)] == a {
        attempts := attempts - {KeyOf(a)};
      }
    }

    method ResumeAfterAdd(a: Attempt, ok: bool, live: bool, now: int) returns (verdict: Verdict)
      modifies `attempts, qrSession
      ensures (State(), verdict) == AfterAdd(old(State()), a, ok, live, now)
    {
      if !ok {
        FinishAttempt(a, false);
        return Failed;
      }
      return if CanCommit(State(), a, live, now) then MustAnnounce else MustUndo;
    }

    method ResumeAfterAnnounce(a: Attempt, outcome: Announcement, live: bool, now: int) returns (verdict: Verdict)
      modifies `attempts, qrSession
      ensures (State(), verdict) == AfterAnnounce(old(State()), a, outcome, live, now)
    {
      if !outcome.Accepted? || !CanCommit(State(), a, live, now) {
        return MustUndo;
      }
      var ok := qrSession.CommitToken(a.reservation, a.pairOk, now);
      if !ok {
        return MustUndo;
      }
      FinishAttempt(a, true);
      return Confirmed;
    }

    method AbandonInactive(live: set<nat>)
      modifies `attempts, qrSession
      ensures State() == Abandon(old(State()), live)
    {
      ghost var before := State();
      var left := set k | k in attempts && attempts[k].id !in live;
      ghost var all := left;
      while left != {}
        invariant left <= all && (forall k :: k in left ==> k in attempts && attempts[k] == before.attempts[k])
        invariant attempts == before.attempts - (all - left)
        invariant qrSession.State() == ReleasedAny(before.qr, set k | k in all - left :: before.attempts[k].reservation)
        decreases |left|
      {
        var k :| k in left;
        var a := attempts[k];
        ghost var done := set x | x in all - left :: before.attempts[x].reservation;
        left := left - {k};
        attempts := attempts - {k};
        ReleaseOneMore(before.qr, done, a.reservation);
        var _ := qrSession.ReleaseToken(a.reservation);
        assert (set x | x in all - left :: before.attempts[x].reservation) == done + {a.reservation};
      }
      AbandonIs(before, live, all);
    }
  }

  /** The session after releasing the reservation that is held, if it is one of these. */
  function ReleasedAny(q: Qr, reservations: set<Reservation>): Qr {
    if q.active.Some? && q.active.value.held.Some? && q.active.value.held.value.status.Reserved?
       && q.active.value.held.value.reservation in reservations then WithStatus(q, Released)
    else q
  }

  lemma {:induction false} ReleaseOneMore(q: Qr, done: set<Reservation>, r: Reservation)
    ensures Release(ReleasedAny(q, done), r).0 == ReleasedAny(q, done + {r})
  {
  }

  lemma {:induction false} AbandonIs(c: Coordinator, live: set<nat>, dropped: set<AttemptKey>)
    requires dropped == set k | k in c.attempts && c.attempts[k].id !in live
    ensures Abandon(c, live) == Coordinator(c.attempts - dropped, ReleasedAny(c.qr, set k | k in dropped :: c.attempts[k].reservation))
  {
    assert (map k | k in c.attempts && c.attempts[k].id in live :: c.attempts[k]) == c.attempts - dropped;
  }

  // ----- The world: attempts in progress, relays, bindings -----

  datatype Phase = Adding | Announcing | Undoing | Finished

  /** An attempt's progress, and what it has done. */
  datatype Process = Process(attempt: Attempt, phase: Phase, wrote: bool, announced: bool, committed: bool, undone: nat)

  datatype World = World(coordinator: Coordinator, processes: seq<Process>, relays: set<nat>, bindings: map<string, nat>)

  const Start := World(Coordinator(map[], NoToken), [], {}, map[])

  /** The attempt's relay is current and its binding is the owner's active one. */
  predicate Live(w: World, a: Attempt) {
    a.relay in w.relays && a.ownerId in w.bindings && w.bindings[a.ownerId] == a.binding
  }

  datatype Step =
    | Requests(relay: nat, ownerId: string, requestId: string, token: Token, now: int, attached: Option<nat>, pairOk: string)
    | AddEnds(i: nat, ok: bool, now: int)
    | AnnounceEnds(i: nat, outcome: Announcement, now: int)
    | UndoEnds(i: nat)
    | Abandons
    | RelaysChange(relays: set<nat>)
    | BindingChanges(ownerId: string, binding: Option<nat>)
    | TokenIssued(now: int, ttl: int)
    | TokenCleared
    | TokenUsedUp(token: Token, now: int)

  function WithQr(w: World, qr: Qr): World { w.(coordinator := w.coordinator.(qr := qr)) }

  function Advance(w: World, i: nat, c: Coordinator, p: Process): World
    requires i < |w.processes|
  {
    w.(coordinator := c, processes := w.processes[i := p])
  }

  function Request(w: World, step: Step): World
    requires step.Requests?
  {
    var (c, handled) := Handle(w.coordinator, |w.processes|, step.relay, step.relay in w.relays, step.ownerId, step.requestId, step.token,
                               step.now, step.attached, step.pairOk);
    var next := w.(coordinator := c);
    match handled
    case Begun(a) =>
      next.(processes := w.processes + [Process(a, Adding, false, false, false, 0)], bindings := w.bindings[step.ownerId := a.binding])
    case _ => next
  }

  function EndAdd(w: World, i: nat, ok: bool, now: int): World
    requires i < |w.processes| && w.processes[i].phase.Adding?
  {
    var p := w.processes[i];
    var (c, verdict) := AfterAdd(w.coordinator, p.attempt, ok, Live(w, p.attempt), now);
    match verdict
    case Failed => Advance(w, i, c, p.(phase := Finished))
    case MustAnnounce => Advance(w, i, c, p.(phase := Announcing, wrote := true))
    case _ => Advance(w, i, c, p.(phase := Undoing, wrote := true, undone := 1))
  }

  function EndAnnounce(w: World, i: nat, outcome: Announcement, now: int): World
    requires i < |w.processes| && w.processes[i].phase.Announcing?
  {
    var p := w.processes[i];
    var (c, verdict) := AfterAnnounce(w.coordinator, p.attempt, outcome, Live(w, p.attempt), now);
    match verdict
    case Confirmed => Advance(w, i, c, p.(phase := Finished, announced := true, committed := true))
    case _ => Advance(w, i, c, p.(phase := Undoing, announced := outcome.Accepted?, undone := p.undone + 1))
  }

  function Next(w: World, step: Step): World {
    match step
    case Requests(_, _, _, _, _, _, _) => Request(w, step)
    case AddEnds(i, ok, now) =>
      if i < |w.processes| && w.processes[i].phase.Adding? then EndAdd(w, i, ok, now) else w
    case AnnounceEnds(i, outcome, now) =>
      if i < |w.processes| && w.processes[i].phase.Announcing? then EndAnnounce(w, i, outcome, now) else w
    case UndoEnds(i) =>
      if i < |w.processes| && w.processes[i].phase.Undoing?
      then Advance(w, i, AfterUndo(w.coordinator, w.processes[i].attempt), w.processes[i].(phase := Finished))
      else w
    case Abandons =>
      w.(coordinator := Abandon(w.coordinator, set k | k in w.coordinator.attempts && Live(w, w.coordinator.attempts[k]) :: w.coordinator.attempts[k].id))
    case RelaysChange(relays) => w.(relays := relays)
    case BindingChanges(ownerId, binding) =>
      w.(bindings := if binding.Some? then w.bindings[ownerId := binding.value] else w.bindings - {ownerId})
    case TokenIssued(now, ttl) => WithQr(w, Issue(w.coordinator.qr, now, ttl))
    case TokenCleared => WithQr(w, Clear(w.coordinator.qr))
    case TokenUsedUp(token, now) => WithQr(w, Consume(w.coordinator.qr, token, now).0)
  }

  // ----- What every interleaving keeps -----

  /** A process does its steps in order, and ends by at most one of commit and undoing. */
  ghost predicate InOrder(p: Process) {
    match p.phase
    case Adding => !p.wrote && !p.announced && !p.committed && p.undone == 0
    case Announcing => p.wrote && !p.announced && !p.committed && p.undone == 0
    case Undoing => p.wrote && !p.committed && p.undone == 1
    case Finished => if p.committed then p.wrote && p.announced && p.undone == 0 else p.undone == if p.wrote then 1 else 0
  }

  /** Attempts on record are unfinished processes. */
  ghost predicate OnRecord(w: World) {
    forall k :: k in w.coordinator.attempts ==>
      var a := w.coordinator.attempts[k];
      k == KeyOf(a) && a.id < |w.processes| && w.processes[a.id].attempt == a && !w.processes[a.id].phase.Finished?
  }

  ghost predicate OwnReservations(w: World) {
    && (forall i :: 0 <= i < |w.processes| ==>
          var a := w.processes[i].attempt;
          && a.id == i && a.reservation.id < w.coordinator.qr.reservations && a.reservation.token < w.coordinator.qr.tokens
          && a.reservation.ownerId == a.ownerId && a.reservation.requestId == a.requestId)
    && forall i, j :: 0 <= i < |w.processes| && 0 <= j < |w.processes| ==>
         (w.processes[i].attempt.reservation.id == w.processes[j].attempt.reservation.id ==> i == j)
  }

  /** The session's held reservation is that of an attempt on record while reserved, and of a committed process after. */
  ghost predicate HeldByAttempt(w: World) {
    w.coordinator.qr.active.Some? ==>
      var active := w.coordinator.qr.active.value;
      && active.token < w.coordinator.qr.tokens
      && (active.held.Some? ==>
            var r := active.held.value.reservation;
            && r.token == active.token && r.id < w.coordinator.qr.reservations
            && match active.held.value.status
               case Reserved => (r.ownerId, r.requestId) in w.coordinator.attempts && w.coordinator.attempts[(r.ownerId, r.requestId)].reservation == r
               case Committed(completion) => CommittedBy(w, r, completion)
               case Released => true)
  }

  ghost predicate CommittedBy(w: World, r: Reservation, completion: string) {
    exists i :: 0 <= i < |w.processes| && w.processes[i].committed && w.processes[i].attempt.reservation == r && w.processes[i].attempt.pairOk == completion
  }

  /** Processes that used the active token are those of the owner and request it is held for. */
  ghost predicate TokenTaken(w: World) {
    forall i :: 0 <= i < |w.processes| ==>
      var p := w.processes[i];
      w.coordinator.qr.active.Some? && w.coordinator.qr.active.value.token == p.attempt.reservation.token ==>
        var held := w.coordinator.qr.active.value.held;
        && held.Some? && held.value.reservation.ownerId == p.attempt.ownerId && held.value.reservation.requestId == p.attempt.requestId
        && (p.committed ==> held == Some(Held(p.attempt.reservation, Committed(p.attempt.pairOk))))
  }

  ghost predicate OneEach(w: World) {
    forall i, j :: 0 <= i < |w.processes| && 0 <= j < |w.processes|
                   && w.processes[i].attempt.reservation.token == w.processes[j].attempt.reservation.token ==>
      && w.processes[i].attempt.ownerId == w.processes[j].attempt.ownerId
      && w.processes[i].attempt.requestId == w.processes[j].attempt.requestId
      && (w.processes[i].committed && w.processes[j].committed ==> i == j)
  }

  ghost predicate Sound(w: World) {
    && (forall i :: 0 <= i < |w.processes| ==> InOrder(w.processes[i]))
    && OnRecord(w) && OwnReservations(w) && HeldByAttempt(w) && TokenTaken(w) && OneEach(w)
  }

  lemma {:induction false} QrStepSound(w: World, step: Step)
    requires Sound(w) && (step.TokenIssued? || step.TokenCleared? || step.TokenUsedUp?)
    ensures Sound(Next(w, step))
  {
    hide InOrder;
  }

  lemma {:induction false} OutsideStepSound(w: World, step: Step)
    requires Sound(w) && (step.RelaysChange? || step.BindingChanges?)
    ensures Sound(Next(w, step))
  {
    hide InOrder;
  }

  lemma {:induction false} AbandonKeeps(w: World, live: set<nat>)
    requires OnRecord(w) && OwnReservations(w) && TokenTaken(w) && OneEach(w)
    ensures var n := w.(coordinator := Abandon(w.coordinator, live));
            OnRecord(n) && OwnReservations(n) && TokenTaken(n) && OneEach(n)
  {
    hide HeldByAttempt, InOrder;
  }

  lemma {:induction false} AbandonHeld(w: World, live: set<nat>)
    requires HeldByAttempt(w)
    ensures HeldByAttempt(w.(coordinator := Abandon(w.coordinator, live)))
  {
    hide CommittedBy;
    var n := w.(coordinator := Abandon(w.coordinator, live));
    forall r, completion | CommittedBy(w, r, completion)
      ensures CommittedBy(n, r, completion)
    {
      SameCommitted(w, n, r, completion);
    }
  }

  lemma {:induction false} SameCommitted(w: World, n: World, r: Reservation, completion: string)
    requires n.processes == w.processes
    ensures CommittedBy(n, r, completion) <==> CommittedBy(w, r, completion)
  {
  }

  lemma {:induction false} AbandonSound(w: World)
    requires Sound(w)
    ensures Sound(Next(w, Abandons))
  {
    hide InOrder, OnRecord, OwnReservations, HeldByAttempt, TokenTaken, OneEach, Abandon;
    var live := set k | k in w.coordinator.attempts && Live(w, w.coordinator.attempts[k]) :: w.coordinator.attempts[k].id;
    AbandonKeeps(w, live);
    AbandonHeld(w, live);
  }

  /** What a granted reservation is: new, or the one already held for this owner and request. */
  lemma {:induction false} GrantedIs(q: Qr, token: Token, ownerId: string, requestId: string, now: int)
    requires Reserve(q, token, ownerId, requestId, now).1.Granted?
    ensures var (after, result) := Reserve(q, token, ownerId, requestId, now);
            var r := result.reservation;
            && q.active.Some? && q.active.value.token == token
            && after == q.(active := Some(q.active.value.(held := Some(Held(r, Reserved)))), reservations := after.reservations)
            && (if q.active.value.held == Some(Held(r, Reserved)) then after == q
                else r == Reservation(q.reservations, token, ownerId, requestId) && after.reservations == q.reservations + 1)
            && (q.active.value.held.Some? ==>
                  var h := q.active.value.held.value;
                  h.reservation.ownerId == ownerId && h.reservation.requestId == requestId && !h.status.Committed?)
  {
  }

  /** A reservation that finds no binding is released at once. */
  lemma {:induction false} GrantReleased(w: World, token: Token, ownerId: string, requestId: string, now: int)
    requires Sound(w) && Reserve(w.coordinator.qr, token, ownerId, requestId, now).1.Granted? && (ownerId, requestId) !in w.coordinator.attempts
    ensures var (qr, result) := Reserve(w.coordinator.qr, token, ownerId, requestId, now);
            Sound(WithQr(w, Release(qr, result.reservation).0))
  {
    hide Reserve, InOrder;
    GrantedIs(w.coordinator.qr, token, ownerId, requestId, now);
  }

  ghost function BegunWorld(w: World, a: Attempt, qr: Qr): World {
    World(Coordinator(w.coordinator.attempts[KeyOf(a) := a], qr), w.processes + [Process(a, Adding, false, false, false, 0)],
          w.relays, w.bindings[a.ownerId := a.binding])
  }

  /** A new attempt has a reservation of its own: one that is still held would be on record. */
  lemma {:induction false} GrantIsNew(w: World, a: Attempt, token: Token, now: int)
    requires Sound(w) && KeyOf(a) !in w.coordinator.attempts
    requires Reserve(w.coordinator.qr, token, a.ownerId, a.requestId, now).1 == Granted(a.reservation)
    ensures a.reservation == Reservation(w.coordinator.qr.reservations, token, a.ownerId, a.requestId)
  {
    hide Reserve, InOrder;
    GrantedIs(w.coordinator.qr, token, a.ownerId, a.requestId, now);
  }

  lemma {:induction false} BegunOnRecord(w: World, a: Attempt, qr: Qr, token: Token, now: int)
    requires Sound(w) && KeyOf(a) !in w.coordinator.attempts && a.id == |w.processes|
    requires Reserve(w.coordinator.qr, token, a.ownerId, a.requestId, now) == (qr, Granted(a.reservation))
    ensures OnRecord(BegunWorld(w, a, qr)) && OwnReservations(BegunWorld(w, a, qr))
  {
    hide Reserve, InOrder, TokenTaken, OneEach;
    GrantedIs(w.coordinator.qr, token, a.ownerId, a.requestId, now);
    GrantIsNew(w, a, token, now);
  }

  lemma {:induction false} BegunHeld(w: World, a: Attempt, qr: Qr, token: Token, now: int)
    requires Sound(w) && KeyOf(a) !in w.coordinator.attempts && a.id == |w.processes|
    requires Reserve(w.coordinator.qr, token, a.ownerId, a.requestId, now) == (qr, Granted(a.reservation))
    ensures var n := BegunWorld(w, a, qr); HeldByAttempt(n) && TokenTaken(n) && OneEach(n)
  {
    hide Reserve, InOrder, OnRecord, OwnReservations;
    GrantedIs(w.coordinator.qr, token, a.ownerId, a.requestId, now);
    GrantIsNew(w, a, token, now);
  }

  lemma {:induction false} GrantBegins(w: World, a: Attempt, qr: Qr, token: Token, now: int)
    requires Sound(w) && KeyOf(a) !in w.coordinator.attempts && a.id == |w.processes|
    requires Reserve(w.coordinator.qr, token, a.ownerId, a.requestId, now) == (qr, Granted(a.reservation))
    ensures Sound(BegunWorld(w, a, qr))
  {
    hide Reserve, OnRecord, OwnReservations, HeldByAttempt, TokenTaken, OneEach;
    BegunOnRecord(w, a, qr, token, now);
    BegunHeld(w, a, qr, token, now);
  }

  lemma {:induction false} RequestSound(w: World, step: Step)
    requires Sound(w) && step.Requests?
    ensures Sound(Next(w, step))
  {
    hide Sound, Reserve, Release;
    if step.relay in w.relays && (step.ownerId, step.requestId) !in w.coordinator.attempts {
      var (qr, result) := Reserve(w.coordinator.qr, step.token, step.ownerId, step.requestId, step.now);
      if result.Granted? {
        if step.attached.None? {
          GrantReleased(w, step.token, step.ownerId, step.requestId, step.now);
        } else {
          var a := Attempt(|w.processes|, step.ownerId, step.requestId, step.relay, step.attached.value, result.reservation, step.pairOk);
          GrantBegins(w, a, qr, step.token, step.now);
        }
      } else {
        NotGranted(w.coordinator.qr, step.token, step.ownerId, step.requestId, step.now);
      }
    }
  }

  lemma {:induction false} NotGranted(q: Qr, token: Token, ownerId: string, requestId: string, now: int)
    ensures !Reserve(q, token, ownerId, requestId, now).1.Granted? ==> Reserve(q, token, ownerId, requestId, now).0 == q
  {
  }

  // ----- A process goes on -----

  /** A process that changes neither its attempt nor whether it has committed. */
  lemma {:induction false} MoveSound(w: World, i: nat, p: Process)
    requires Sound(w) && i < |w.processes| && InOrder(p) && p.attempt == w.processes[i].attempt
    requires p.committed == w.processes[i].committed && !p.phase.Finished?
    ensures Sound(w.(processes := w.processes[i := p]))
  {
    hide InOrder, CommittedBy;
    CommittedStays(w, w.(processes := w.processes[i := p]), i, p);
  }

  lemma {:induction false} CommittedStays(w: World, n: World, i: nat, p: Process)
    requires i < |w.processes| && n.processes == w.processes[i := p] && p.attempt == w.processes[i].attempt
    requires w.processes[i].committed ==> p.committed
    ensures forall r, completion :: CommittedBy(w, r, completion) ==> CommittedBy(n, r, completion)
  {
    forall r, completion | CommittedBy(w, r, completion)
      ensures CommittedBy(n, r, completion)
    {
      var j :| 0 <= j < |w.processes| && w.processes[j].committed && w.processes[j].attempt.reservation == r && w.processes[j].attempt.pairOk == completion;
      assert n.processes[j].committed && n.processes[j].attempt == w.processes[j].attempt;
    }
  }

  /** Taking a finished attempt off the record. */
  lemma {:induction false} OffRecord(w: World, i: nat, p: Process, qr: Qr)
    requires OnRecord(w) && OwnReservations(w) && i < |w.processes| && p.attempt == w.processes[i].attempt
    requires qr.reservations == w.coordinator.qr.reservations && qr.tokens == w.coordinator.qr.tokens
    ensures var n := Advance(w, i, Coordinator(Finish(w.coordinator, p.attempt, true).attempts, qr), p);
            OnRecord(n) && OwnReservations(n)
  {
  }

  lemma {:induction false} ReleasedHeld(w: World, i: nat, p: Process)
    requires Sound(w) && i < |w.processes| && p.attempt == w.processes[i].attempt && !p.committed && !w.processes[i].committed
    ensures HeldByAttempt(Advance(w, i, Finish(w.coordinator, p.attempt, false), p))
  {
    hide InOrder, CommittedBy, TokenTaken, OneEach;
    CommittedStays(w, Advance(w, i, Finish(w.coordinator, p.attempt, false), p), i, p);
  }

  lemma {:induction false} ReleasedTaken(w: World, i: nat, p: Process)
    requires Sound(w) && i < |w.processes| && p.attempt == w.processes[i].attempt && !p.committed && !w.processes[i].committed
    ensures var n := Advance(w, i, Finish(w.coordinator, p.attempt, false), p); TokenTaken(n) && OneEach(n)
  {
    hide InOrder, CommittedBy, OnRecord;
  }

  lemma {:induction false} FinishSound(w: World, i: nat, p: Process)
    requires Sound(w) && i < |w.processes| && InOrder(p) && p.attempt == w.processes[i].attempt
    requires !p.committed && !w.processes[i].committed
    ensures Sound(Advance(w, i, Finish(w.coordinator, p.attempt, false), p))
  {
    hide InOrder, CommittedBy, OnRecord, OwnReservations, HeldByAttempt, TokenTaken, OneEach;
    OffRecord(w, i, p, Release(w.coordinator.qr, p.attempt.reservation).0);
    ReleasedHeld(w, i, p);
    ReleasedTaken(w, i, p);
  }

  ghost function ConfirmedWorld(w: World, i: nat, p: Process, now: int): World
    requires i < |w.processes|
  {
    var qr := Commit(w.coordinator.qr, p.attempt.reservation, p.attempt.pairOk, now).0;
    Advance(w, i, Finish(w.coordinator.(qr := qr), p.attempt, true), p)
  }

  lemma {:induction false} ConfirmedHeld(w: World, i: nat, p: Process, now: int)
    requires Sound(w) && i < |w.processes| && p.attempt == w.processes[i].attempt && p.committed && !w.processes[i].committed
    requires Commit(w.coordinator.qr, p.attempt.reservation, p.attempt.pairOk, now).1
    ensures HeldByAttempt(ConfirmedWorld(w, i, p, now))
  {
    hide InOrder, TokenTaken, OneEach, OnRecord;
    var n := ConfirmedWorld(w, i, p, now);
    assert n.processes[i].committed;
    assert CommittedBy(n, p.attempt.reservation, p.attempt.pairOk);
  }

  lemma {:induction false} ConfirmedTaken(w: World, i: nat, p: Process, now: int)
    requires Sound(w) && i < |w.processes| && p.attempt == w.processes[i].attempt && p.committed && !w.processes[i].committed
    requires Commit(w.coordinator.qr, p.attempt.reservation, p.attempt.pairOk, now).1
    ensures TokenTaken(ConfirmedWorld(w, i, p, now)) && OneEach(ConfirmedWorld(w, i, p, now))
  {
    hide InOrder, CommittedBy, OnRecord;
  }

  lemma {:induction false} ConfirmSound(w: World, i: nat, p: Process, now: int)
    requires Sound(w) && i < |w.processes| && InOrder(p) && p.attempt == w.processes[i].attempt && p.phase.Finished?
    requires p.committed && !w.processes[i].committed && Commit(w.coordinator.qr, p.attempt.reservation, p.attempt.pairOk, now).1
    ensures Sound(ConfirmedWorld(w, i, p, now))
  {
    hide InOrder, CommittedBy, OnRecord, OwnReservations, HeldByAttempt, TokenTaken, OneEach;
    OffRecord(w, i, p, Commit(w.coordinator.qr, p.attempt.reservation, p.attempt.pairOk, now).0);
    ConfirmedHeld(w, i, p, now);
    ConfirmedTaken(w, i, p, now);
  }

  lemma {:induction false} AddSound(w: World, i: nat, ok: bool, now: int)
    requires Sound(w) && i < |w.processes| && w.processes[i].phase.Adding?
    ensures Sound(EndAdd(w, i, ok, now))
  {
    hide Finish, CanCommit;
    var p := w.processes[i];
    assert InOrder(p);
    if !ok {
      FinishSound(w, i, p.(phase := Finished));
    } else if CanCommit(w.coordinator, p.attempt, Live(w, p.attempt), now) {
      MoveSound(w, i, p.(phase := Announcing, wrote := true));
    } else {
      MoveSound(w, i, p.(phase := Undoing, wrote := true, undone := 1));
    }
  }

  lemma {:induction false} AnnouncedConfirmed(w: World, i: nat, outcome: Announcement, now: int)
    requires i < |w.processes| && w.processes[i].phase.Announcing?
    requires AfterAnnounce(w.coordinator, w.processes[i].attempt, outcome, Live(w, w.processes[i].attempt), now).1.Confirmed?
    ensures var p := w.processes[i];
            && Commit(w.coordinator.qr, p.attempt.reservation, p.attempt.pairOk, now).1
            && EndAnnounce(w, i, outcome, now) == ConfirmedWorld(w, i, p.(phase := Finished, announced := true, committed := true), now)
  {
    hide Finish, CanCommit, Commit, Live;
  }

  lemma {:induction false} AnnouncedUndoing(w: World, i: nat, outcome: Announcement, now: int)
    requires i < |w.processes| && w.processes[i].phase.Announcing?
    requires !AfterAnnounce(w.coordinator, w.processes[i].attempt, outcome, Live(w, w.processes[i].attempt), now).1.Confirmed?
    ensures EndAnnounce(w, i, outcome, now)
            == w.(processes := w.processes[i := w.processes[i].(phase := Undoing, announced := outcome.Accepted?, undone := w.processes[i].undone + 1)])
  {
    hide Finish, CanCommit, Commit, Live;
  }

  lemma {:induction false} AnnounceSound(w: World, i: nat, outcome: Announcement, now: int)
    requires Sound(w) && i < |w.processes| && w.processes[i].phase.Announcing?
    ensures Sound(EndAnnounce(w, i, outcome, now))
  {
    hide Finish, CanCommit, Commit, Live, Advance, ConfirmedWorld;
    var p := w.processes[i];
    assert InOrder(p);
    if AfterAnnounce(w.coordinator, p.attempt, outcome, Live(w, p.attempt), now).1.Confirmed? {
      AnnouncedConfirmed(w, i, outcome, now);
      ConfirmSound(w, i, p.(phase := Finished, announced := true, committed := true), now);
    } else {
      AnnouncedUndoing(w, i, outcome, now);
      MoveSound(w, i, p.(phase := Undoing, announced := outcome.Accepted?, undone := p.undone + 1));
    }
  }

  lemma {:induction false} NextSound(w: World, step: Step)
    requires Sound(w)
    ensures Sound(Next(w, step))
  {
    match step
    case Requests(_, _, _, _, _, _, _) => RequestSound(w, step);
    case AddEnds(i, ok, now) =>
      if i < |w.processes| && w.processes[i].phase.Adding? {
        AddSound(w, i, ok, now);
      }
    case AnnounceEnds(i, outcome, now) =>
      if i < |w.processes| && w.processes[i].phase.Announcing? {
        AnnounceSound(w, i, outcome, now);
      }
    case UndoEnds(i) =>
      if i < |w.processes| && w.processes[i].phase.Undoing? {
        assert InOrder(w.processes[i]);
        FinishSound(w, i, w.processes[i].(phase := Finished));
      }
    case Abandons => AbandonSound(w);
    case RelaysChange(_) => OutsideStepSound(w, step);
    case BindingChanges(_, _) => OutsideStepSound(w, step);
    case TokenIssued(_, _) => QrStepSound(w, step);
    case TokenCleared => QrStepSound(w, step);
    case TokenUsedUp(_, _) => QrStepSound(w, step);
  }

  // ----- Every interleaving -----

  datatype Course = Begin | Then(before: Course, step: Step)

  ghost function After(course: Course): World {
    match course
    case Begin => Start
    case Then(before, step) => Next(After(before), step)
  }

  lemma {:induction false} AlwaysSound(course: Course)
    ensures Sound(After(course))
  {
    hide Next;
    if course.Then? {
      AlwaysSound(course.before);
      NextSound(After(course.before), course.step);
    }
  }

  /**
   In every interleaving of attempts, relay loss, rebinding, token replacement and retries: attempts that got the same
   token are for one owner and request, and at most one of them commits; an attempt commits only after its own write
   and an accepted announcement; a finished attempt that wrote has done exactly one of commit and taking the write back.
   */
  lemma {:induction false} EveryInterleaving(course: Course, i: nat, j: nat)
    requires i < |After(course).processes| && j < |After(course).processes|
    ensures var p, q := After(course).processes[i], After(course).processes[j];
            && (p.attempt.reservation.token == q.attempt.reservation.token ==>
                  p.attempt.ownerId == q.attempt.ownerId && p.attempt.requestId == q.attempt.requestId && (p.committed && q.committed ==> i == j))
            && (p.committed ==> p.phase.Finished? && p.wrote && p.announced && p.undone == 0)
            && p.undone <= 1
            && (p.phase.Finished? && p.wrote ==> (p.committed <==> p.undone == 0))
  {
    hide After;
    AlwaysSound(course);
    var w := After(course);
    assert InOrder(w.processes[i]);
  }

  /** The step that commits an attempt finds its relay, its binding and its reservation all current. */
  lemma {:induction false} CommitsWhenCurrent(w: World, step: Step, i: nat)
    requires Sound(w) && i < |w.processes| && !w.processes[i].committed && Next(w, step).processes[i].committed
    ensures var a := w.processes[i].attempt;
            && step.AnnounceEnds? && step.i == i && step.outcome.Accepted? && w.processes[i].wrote
            && Live(w, a) && IsReservationCurrent(w.coordinator.qr, a.reservation, step.now)
  {
    hide Finish;
    assert InOrder(w.processes[i]);
  }

  /** A replay answers with the frame that the committed attempt of this very owner and request was confirmed with. */
  lemma {:induction false} ReplaysCompletion(course: Course, token: Token, ownerId: string, requestId: string, now: int)
    requires Reserve(After(course).coordinator.qr, token, ownerId, requestId, now).1.Replayed?
    ensures var completion := Reserve(After(course).coordinator.qr, token, ownerId, requestId, now).1.completion;
            exists i :: 0 <= i < |After(course).processes|
                        && var p := After(course).processes[i];
                           && p.committed && p.attempt.pairOk == completion && p.attempt.reservation.token == token
                           && p.attempt.ownerId == ownerId && p.attempt.requestId == requestId
  {
    hide After;
    AlwaysSound(course);
    var w := After(course);
    var held := w.coordinator.qr.active.value.held.value;
    var i :| 0 <= i < |w.processes| && w.processes[i].committed && w.processes[i].attempt.reservation == held.reservation
             && w.processes[i].attempt.pairOk == held.status.completion;
  }
}

