/**
 One-use pairing tokens: the active token can be reserved by one owner and request, committed once, and replayed. A
 reservation is an object; two reservations of the same request are different objects.
 */
module QrSession {
  import opened Bytes

  const TOKEN_TTL_MS := 60_000
  const PAIR_TTL_MIN_MS := 10_000
  const PAIR_TTL_MAX_MS := 600_000

  /** `None` stands for a value that is not a finite number. */
  function ClampPairTtlMs(ttl: Option<real>): (ms: int)
    ensures PAIR_TTL_MIN_MS <= ms <= PAIR_TTL_MAX_MS
    ensures ttl.Some? && PAIR_TTL_MIN_MS <= ttl.value.Floor <= PAIR_TTL_MAX_MS ==> ms == ttl.value.Floor
  {
    match ttl
    case None => TOKEN_TTL_MS
    case Some(r) =>
      if r.Floor < PAIR_TTL_MIN_MS then PAIR_TTL_MIN_MS else if r.Floor > PAIR_TTL_MAX_MS then PAIR_TTL_MAX_MS else r.Floor
  }

  type Token = nat

  /** `id` is the identity of the reservation object. */
  datatype Reservation = Reservation(id: nat, token: Token, ownerId: string, requestId: string)

  datatype Status = Reserved | Released | Committed(completion: string)

  datatype Held = Held(reservation: Reservation, status: Status)

  datatype Active = Active(token: Token, expiresAt: int, consumed: bool, held: Option<Held>)

  datatype ReserveResult =
    | Granted(reservation: Reservation)
    | Replayed(completion: string)
    | Expired
    | Consumed
    | Unknown

  /** The session, and how many tokens and reservation objects have been made. */
  datatype Qr = Qr(active: Option<Active>, tokens: nat, reservations: nat)

  const NoToken := Qr(None, 0, 0)

  // ----- Operations -----

  function Issue(q: Qr, now: int, ttl: int): Qr {
    Qr(Some(Active(q.tokens, now + ttl, false, None)), q.tokens + 1, q.reservations)
  }

  function Clear(q: Qr): Qr { q.(active := None) }

  function Grant(q: Qr, a: Active, ownerId: string, requestId: string): (Qr, ReserveResult) {
    var r := Reservation(q.reservations, a.token, ownerId, requestId);
    (q.(active := Some(a.(held := Some(Held(r, Reserved)))), reservations := q.reservations + 1), Granted(r))
  }

  function Reserve(q: Qr, token: Token, ownerId: string, requestId: string, now: int): (Qr, ReserveResult) {
    if q.active.None? || q.active.value.token != token then (q, Unknown)
    else
      var a := q.active.value;
      match a.held
      case None =>
        if now > a.expiresAt then (q, Expired) else if a.consumed then (q, Consumed) else Grant(q, a, ownerId, requestId)
      case Some(h) =>
        if h.reservation.ownerId != ownerId || h.reservation.requestId != requestId then (q, Consumed)
        else if h.status.Committed? then (q, Replayed(h.status.completion))
        else if now > a.expiresAt then (q, Expired)
        else if a.consumed then (q, Consumed)
        else if h.status.Reserved? then (q, Granted(h.reservation))
        else Grant(q, a, ownerId, requestId)
  }

  /** The reservation object is the one held, and still only reserved. */
  predicate HeldBy(q: Qr, r: Reservation) {
    q.active.Some? && q.active.value.held == Some(Held(r, Reserved))
  }

  predicate IsReservationCurrent(q: Qr, r: Reservation, now: int) {
    HeldBy(q, r) && q.active.value.token == r.token && now <= q.active.value.expiresAt
  }

  function WithStatus(q: Qr, status: Status): Qr
    requires q.active.Some? && q.active.value.held.Some?
  {
    q.(active := Some(q.active.value.(held := Some(q.active.value.held.value.(status := status)))))
  }

  function Commit(q: Qr, r: Reservation, completion: string, now: int): (Qr, bool) {
    if !HeldBy(q, r) || q.active.value.token != r.token || now > q.active.value.expiresAt then (q, false)
    else (WithStatus(q, Committed(completion)), true)
  }

  function Release(q: Qr, r: Reservation): (Qr, bool) {
    if !HeldBy(q, r) then (q, false) else (WithStatus(q, Released), true)
  }

  datatype ConsumeResult = ConsumedNow | TooLate | UsedBefore | NotThis

  function Consume(q: Qr, token: Token, now: int): (Qr, ConsumeResult) {
    if q.active.None? || q.active.value.token != token then (q, NotThis)
    else if q.active.value.consumed || q.active.value.held.Some? then (q, UsedBefore)
    else if now > q.active.value.expiresAt then (q, TooLate)
    else (q.(active := Some(q.active.value.(consumed := true))), ConsumedNow)
  }

  class QRSession {
    var active: Option<Active>
    var tokens: nat
    var reservations: nat

    function State(): Qr
      reads this
    {
      Qr(active, tokens, reservations)
    }

    constructor ()
      ensures State() == NoToken
    {
      active, tokens, reservations := None, 0, 0;
    }

    method IssueToken(now: int, ttl: int) returns (token: Token, expiresAt: int)
      modifies this
      ensures State() == Issue(old(State()), now, ttl) && token == old(tokens) && expiresAt == now + ttl
    {
      token := tokens;
      expiresAt := now + ttl;
      tokens := tokens + 1;
      active := Some(Active(token, expiresAt, false, None));
    }

    method ReserveToken(token: Token, ownerId: string, requestId: string, now: int) returns (result: ReserveResult)
      modifies this
      ensures (State(), result) == Reserve(old(State()), token, ownerId, requestId, now)
    {
      if active.None? || active.value.token != token {
        return Unknown;
      }
      var a := active.value;
      if a.held.Some? {
        var existing := a.held.value;
        if existing.reservation.ownerId != ownerId || existing.reservation.requestId != requestId {
          return Consumed;
        }
        if existing.status.Committed? {
          return Replayed(existing.status.completion);
        }
      }
      if now > a.expiresAt {
        return Expired;
      }
      if a.consumed {
        return Consumed;
      }
      if a.held.Some? && a.held.value.status.Reserved? {
        return Granted(a.held.value.reservation);
      }
      var r := Reservation(reservations, token, ownerId, requestId);
      reservations := reservations + 1;
      active := Some(a.(held := Some(Held(r, Reserved))));
      return Granted(r);
    }

    method CommitToken(r: Reservation, completion: string, now: int) returns (ok: bool)
      modifies this
      ensures (State(), ok) == Commit(old(State()), r, completion, now)
    {
      if active.None? || active.value.held.None? || active.value.held.value.reservation != r || active.value.held.value.status != Reserved {
        return false;
      }
      if active.value.token != r.token || now > active.value.expiresAt {
        return false;
      }
      active := Some(active.value.(held := Some(Held(r, Committed(completion)))));
      return true;
    }

    method ReleaseToken(r: Reservation) returns (ok: bool)
      modifies this
      ensures (State(), ok) == Release(old(State()), r)
    {
      if active.None? || active.value.held.None? || active.value.held.value.reservation != r || active.value.held.value.status != Reserved {
        return false;
      }
      active := Some(active.value.(held := Some(Held(r, Released))));
      return true;
    }

    method ConsumeToken(token: Token, now: int) returns (result: ConsumeResult)
      modifies this
      ensures (State(), result) == Consume(old(State()), token, now)
    {
      if active.None? || active.value.token != token {
        return NotThis;
      }
      if active.value.consumed || active.value.held.Some? {
        return UsedBefore;
      }
      if now > active.value.expiresAt {
        return TooLate;
      }
      active := Some(active.value.(consumed := true));
      return ConsumedNow;
    }

    method ClearToken()
      modifies this
      ensures State() == Clear(old(State()))
    {
      active := None;
    }
  }

  // ----- Runs and what they answer -----

  datatype Op =
    | IssueOp(now: int, ttl: int)
    | ReserveOp(token: Token, ownerId: string, requestId: string, now: int)
    | CommitOp(reservation: Reservation, completion: string, now: int)
    | ReleaseOp(reservation: Reservation)
    | ConsumeOp(token: Token, now: int)
    | ClearOp

  function Apply(q: Qr, op: Op): Qr {
    match op
    case IssueOp(now, ttl) => Issue(q, now, ttl)
    case ReserveOp(token, ownerId, requestId, now) => Reserve(q, token, ownerId, requestId, now).0
    case CommitOp(r, completion, now) => Commit(q, r, completion, now).0
    case ReleaseOp(r) => Release(q, r).0
    case ConsumeOp(token, now) => Consume(q, token, now).0
    case ClearOp => Clear(q)
  }

  datatype Run = Opened | Did(before: Run, op: Op)

  function After(run: Run): Qr {
    match run
    case Opened => NoToken
    case Did(before, op) => Apply(After(before), op)
  }

  /** `run` has given `token` to this owner and request: as a reservation, a replay or a commit. */
  predicate Gave(run: Run, token: Token, ownerId: string, requestId: string) {
    match run
    case Opened => false
    case Did(before, op) =>
      || Gave(before, token, ownerId, requestId)
      || match op
         case ReserveOp(t, o, r, now) =>
           var result := Reserve(After(before), t, o, r, now).1;
           (result.Granted? || result.Replayed?) && t == token && o == ownerId && r == requestId
         case CommitOp(r, completion, now) =>
           Commit(After(before), r, completion, now).1 && r.token == token && r.ownerId == ownerId && r.requestId == requestId
         case _ => false
  }

  /** The completions with which `run` has committed `token`, in order. */
  function Commits(run: Run, token: Token): seq<string> {
    match run
    case Opened => []
    case Did(before, op) =>
      match op
      case CommitOp(r, completion, now) =>
        if Commit(After(before), r, completion, now).1 && r.token == token then Commits(before, token) + [completion]
        else Commits(before, token)
      case _ => Commits(before, token)
  }

  /** The session remembers of the active token what the run did with it. */
  ghost predicate Remembers(run: Run) {
    var q := After(run);
    && (forall t: Token, o, r :: Gave(run, t, o, r) ==> t < q.tokens)
    && (forall t: Token :: t >= q.tokens ==> Commits(run, t) == [])
    && (q.active.Some? ==>
          var a := q.active.value;
          && a.token < q.tokens
          && (a.held.Some? ==> a.held.value.reservation.token == a.token && a.held.value.reservation.id < q.reservations)
          && (forall o, r :: Gave(run, a.token, o, r) <==>
                a.held.Some? && o == a.held.value.reservation.ownerId && r == a.held.value.reservation.requestId)
          && Commits(run, a.token) == if a.held.Some? && a.held.value.status.Committed? then [a.held.value.status.completion] else [])
  }

  ghost predicate OneTaker(run: Run, token: Token) {
    && (forall o, r, p, s :: Gave(run, token, o, r) && Gave(run, token, p, s) ==> o == p && r == s)
    && |Commits(run, token)| <= 1
  }

  lemma {:induction false} CommitsNext(run: Run, op: Op, token: Token)
    requires Remembers(run)
    ensures Commits(Did(run, op), token)
            == if op.CommitOp? && Commit(After(run), op.reservation, op.completion, op.now).1 && token == After(run).active.value.token
               then [op.completion] else Commits(run, token)
  {
    hide Gave;
    if op.CommitOp? && Commit(After(run), op.reservation, op.completion, op.now).1 {
      var a := After(run).active.value;
      assert a.held == Some(Held(op.reservation, Reserved));
      assert Commits(run, a.token) == [];
    }
  }

  lemma {:induction false} RemembersNext(run: Run, op: Op)
    requires Remembers(run)
    ensures Remembers(Did(run, op))
  {
    forall token: Token {
      CommitsNext(run, op, token);
    }
  }

  lemma {:induction false} OneTakerNext(run: Run, op: Op, token: Token)
    requires Remembers(run) && OneTaker(run, token)
    ensures OneTaker(Did(run, op), token)
  {
    CommitsNext(run, op, token);
  }

  /** One token serves one owner and request, and is committed at most once, whatever else happens. */
  lemma {:induction false} TokenServesOne(run: Run, token: Token)
    ensures Remembers(run) && OneTaker(run, token)
  {
    if run.Did? {
      TokenServesOne(run.before, token);
      RemembersNext(run.before, run.op);
      OneTakerNext(run.before, run.op, token);
    }
  }

  /** A replay returns the completion of the one commit, to the owner and request that made it. */
  lemma {:induction false} ReplayReturnsCommit(run: Run, token: Token, ownerId: string, requestId: string, now: int)
    requires Reserve(After(run), token, ownerId, requestId, now).1.Replayed?
    ensures Commits(run, token) == [Reserve(After(run), token, ownerId, requestId, now).1.completion]
    ensures forall o, r :: Gave(run, token, o, r) <==> o == ownerId && r == requestId
  {
    TokenServesOne(run, token);
  }

  // ----- Released and superseded reservations -----

  /** The reservation exists, but is not the one held any more. */
  ghost predicate Spent(q: Qr, r: Reservation) {
    r.id < q.reservations && !HeldBy(q, r)
  }

  ghost function Continue(run: Run, ops: seq<Op>): Run {
    if |ops| == 0 then run else Did(Continue(run, ops[..|ops| - 1]), ops[|ops| - 1])
  }

  /** Once released, committed or superseded by another token, a reservation never commits. */
  lemma {:induction false} SpentNeverCommits(run: Run, ops: seq<Op>, r: Reservation, completion: string, now: int)
    requires Spent(After(run), r)
    ensures Spent(After(Continue(run, ops)), r) && !Commit(After(Continue(run, ops)), r, completion, now).1
  {
    if |ops| > 0 {
      SpentNeverCommits(run, ops[..|ops| - 1], r, completion, now);
    }
  }

  lemma {:induction false} HowReservationsEnd(q: Qr, r: Reservation, completion: string, now: int, ttl: int)
    requires HeldBy(q, r) && r.id < q.reservations
    ensures Release(q, r).1 && Spent(Release(q, r).0, r)
    ensures Spent(Issue(q, now, ttl), r) && Spent(Clear(q), r)
    ensures Commit(q, r, completion, now).1 ==> Spent(Commit(q, r, completion, now).0, r)
  {
  }
}
