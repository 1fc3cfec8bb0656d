/**
 The connection of a session to its relay: starting, stopping, reconnecting with a growing delay. Every stretch of code
 between two awaits is one step; a generation counter tells late continuations that they are no longer wanted.
 */
module RelayLifecycle {
  import opened Bytes

  type Client = nat

  datatype Timer = Timer(generation: nat, url: string)

  /** A continuation waiting for its promise, with what it remembers. */
  datatype Waiting =
    | ForIdentity(generation: nat)
    | ForInitialOptions(generation: nat, url: string)
    | ForInitialConnect(generation: nat, url: string, client: Client)
    | ForOptions(generation: nat, url: string, identity: nat)
    | ForConnect(generation: nat, url: string, client: Client)

  datatype Relay = Relay(
    active: Option<Client>,
    pending: Option<Client>,
    url: Option<string>,
    identity: Option<nat>,
    attempt: Option<nat>,
    timer: Option<Timer>,
    backoff: nat,
    generation: nat,
    disposed: bool,
    started: bool,
    closed: set<Client>,
    closes: seq<Client>)        // the calls of `close`, in order

  const Idle := Relay(None, None, None, None, None, None, 0, 0, false, false, {}, [])

  // ----- Pieces -----

  predicate OperationCurrent(r: Relay, generation: nat) { !r.disposed && r.generation == generation }

  predicate ReconnectCurrent(r: Relay, generation: nat) { r.started && OperationCurrent(r, generation) }

  function CloseOnce(r: Relay, c: Client): Relay {
    if c in r.closed then r else r.(closed := r.closed + {c}, closes := r.closes + [c])
  }

  function ScheduleReconnect(r: Relay, url: string): Relay {
    if r.identity.None? || r.disposed || !r.started then r
    else r.(generation := r.generation + 1, backoff := r.backoff + 1, timer := Some(Timer(r.generation + 1, url)))
  }

  function ClearCandidate(r: Relay, c: Client): Relay {
    if r.pending != Some(c) then r else CloseOnce(r.(pending := None), c)
  }

  function ConnectionFailed(r: Relay, generation: nat, url: string): Relay {
    if ReconnectCurrent(r, generation) then ScheduleReconnect(r, url) else r
  }

  function Install(r: Relay, c: Client): Relay {
    r.(pending := None, active := Some(c), backoff := 0)
  }

  // ----- Steps: the new state, and the continuation that is left waiting -----

  function Start(r: Relay, attempt: nat): (Relay, Option<Waiting>) {
    if r.attempt.Some? || r.started then (r, None)
    else (r.(generation := r.generation + 1, attempt := Some(attempt)), Some(ForIdentity(r.generation + 1)))
  }

  function AttemptSettled(r: Relay, attempt: nat): Relay {
    if r.attempt == Some(attempt) then r.(attempt := None) else r
  }

  function Detached(r: Relay): Relay {
    r.(generation := r.generation + 1, timer := None, backoff := 0, active := None, pending := None, url := None,
       attempt := None, started := false)
  }

  function Stop(r: Relay): Relay {
    var first := if r.active.Some? then CloseOnce(Detached(r), r.active.value) else Detached(r);
    if r.pending.Some? && r.pending != r.active then CloseOnce(first, r.pending.value) else first
  }

  /** `identity` is `None` where loading fails. */
  function IdentityLoaded(r: Relay, w: Waiting, identity: Option<nat>, url: string): (Relay, Option<Waiting>)
    requires w.ForIdentity?
  {
    if identity.None? || !OperationCurrent(r, w.generation) then (r, None)
    else (r.(identity := identity, url := Some(url), started := true), Some(ForInitialOptions(w.generation, url)))
  }

  function InitialOptionsBuilt(r: Relay, w: Waiting, ok: bool, c: Client): (Relay, Option<Waiting>)
    requires w.ForInitialOptions?
  {
    if !ok then (ConnectionFailed(r, w.generation, w.url), None)
    else if !ReconnectCurrent(r, w.generation) then (r, None)
    else (r.(pending := Some(c)), Some(ForInitialConnect(w.generation, w.url, c)))
  }

  /** Both the first connection and a reconnection end like this. */
  function Connected(r: Relay, w: Waiting, ok: bool): Relay
    requires w.ForInitialConnect? || w.ForConnect?
  {
    if !ok then ConnectionFailed(ClearCandidate(r, w.client), w.generation, w.url)
    else if !ReconnectCurrent(r, w.generation) || r.pending != Some(w.client) then CloseOnce(r, w.client)
    else Install(r, w.client)
  }

  function TimerFired(r: Relay): (Relay, Option<Waiting>) {
    match r.timer
    case None => (r, None)
    case Some(t) =>
      var fired := r.(timer := None);
      if !ReconnectCurrent(fired, t.generation) || r.identity.None? then (fired, None)
      else (fired, Some(ForOptions(t.generation, t.url, r.identity.value)))
  }

  function OptionsBuilt(r: Relay, w: Waiting, ok: bool, c: Client): (Relay, Option<Waiting>)
    requires w.ForOptions?
  {
    if !ok then (ConnectionFailed(r, w.generation, w.url), None)
    else if !ReconnectCurrent(r, w.generation) || r.identity != Some(w.identity) then (r, None)
    else (r.(pending := Some(c)), Some(ForConnect(w.generation, w.url, c)))
  }

  function RelayClosed(r: Relay, c: Client): Relay {
    if r.active != Some(c) || !r.started then r
    else
      var lost := r.(active := None);
      if lost.url.Some? && lost.url.value != "" then ScheduleReconnect(lost, lost.url.value) else lost
  }

  // ----- The class -----

  class Lifecycle {
    var activeRelay: Option<Client>
    var pendingCandidate: Option<Client>
    var currentRelayUrl: Option<string>
    var identity: Option<nat>
    var initialAttempt: Option<nat>
    var reconnectTimer: Option<Timer>
    var reconnectAttempt: nat
    var generation: nat
    var isDisposed: bool
    var started: bool
    var closedCandidates: set<Client>
    var closes: seq<Client>

    function State(): Relay
      reads this
    {
      Relay(activeRelay, pendingCandidate, currentRelayUrl, identity, initialAttempt, reconnectTimer, reconnectAttempt, generation,
            isDisposed, started, closedCandidates, closes)
    }

    constructor ()
      ensures State() == Idle
    {
      activeRelay, pendingCandidate, currentRelayUrl, identity, initialAttempt := None, None, None, None, None;
      reconnectTimer, reconnectAttempt, generation, isDisposed, started := None, 0, 0, false, false;
      closedCandidates, closes := {}, [];
    }

    method SetDisposed(value: bool)
      modifies this
      ensures State() == old(State()).(disposed := value)
    {
      isDisposed := value;
    }

    method Begin(attempt: nat) returns (waiting: Option<Waiting>)
      modifies this
      ensures (State(), waiting) == Start(old(State()), attempt)
    {
      if initialAttempt.Some? || started {
        return None;
      }
      generation := generation + 1;
      initialAttempt := Some(attempt);
      return Some(ForIdentity(generation));
    }

    method End()
      modifies this
      ensures State() == Stop(old(State()))
    {
      hide CloseOnce;
      var active, pending := activeRelay, pendingCandidate;
      Detach();
      if active.Some? {
        CloseCandidateOnce(active.value);
      }
      if pending.Some? && pending != active {
        CloseCandidateOnce(pending.value);
      }
    }

    method Detach()
      modifies this
      ensures State() == Detached(old(State()))
    {
      generation := generation + 1;
      reconnectTimer := None;
      reconnectAttempt := 0;
      DropClients();
    }

    method DropClients()
      modifies `activeRelay, `pendingCandidate, `currentRelayUrl, `initialAttempt, `started
      ensures activeRelay == None && pendingCandidate == None && currentRelayUrl == None && initialAttempt == None && !started
    {
      activeRelay, pendingCandidate, currentRelayUrl, initialAttempt, started := None, None, None, None, false;
    }

    method OnIdentity(w: Waiting, loaded: Option<nat>, url: string) returns (waiting: Option<Waiting>)
      requires w.ForIdentity?
      modifies this
      ensures (State(), waiting) == IdentityLoaded(old(State()), w, loaded, url)
    {
      if loaded.None? || !OperationCurrent(State(), w.generation) {
        return None;
      }
      identity := loaded;
      currentRelayUrl := Some(url);
      started := true;
      return Some(ForInitialOptions(w.generation, url));
    }

    method OnInitialOptions(w: Waiting, ok: bool, c: Client) returns (waiting: Option<Waiting>)
      requires w.ForInitialOptions?
      modifies this
      ensures (State(), waiting) == InitialOptionsBuilt(old(State()), w, ok, c)
    {
      if !ok {
        HandleConnectionFailure(w.generation, w.url);
        return None;
      }
      if !ReconnectCurrent(State(), w.generation) {
        return None;
      }
      pendingCandidate := Some(c);
      return Some(ForInitialConnect(w.generation, w.url, c));
    }

    method OnConnected(w: Waiting, ok: bool)
      requires w.ForInitialConnect? || w.ForConnect?
      modifies this
      ensures State() == Connected(old(State()), w, ok)
    {
      if !ok {
        if pendingCandidate == Some(w.client) {
          pendingCandidate := None;
          CloseCandidateOnce(w.client);
        }
        HandleConnectionFailure(w.generation, w.url);
        return;
      }
      if !ReconnectCurrent(State(), w.generation) || pendingCandidate != Some(w.client) {
        CloseCandidateOnce(w.client);
        return;
      }
      pendingCandidate := None;
      activeRelay := Some(w.client);
      reconnectAttempt := 0;
    }

    method OnTimer() returns (waiting: Option<Waiting>)
      modifies this
      ensures (State(), waiting) == TimerFired(old(State()))
    {
      if reconnectTimer.None? {
        return None;
      }
      var t := reconnectTimer.value;
      reconnectTimer := None;
      if !ReconnectCurrent(State(), t.generation) || identity.None? {
        return None;
      }
      return Some(ForOptions(t.generation, t.url, identity.value));
    }

    method OnOptions(w: Waiting, ok: bool, c: Client) returns (waiting: Option<Waiting>)
      requires w.ForOptions?
      modifies this
      ensures (State(), waiting) == OptionsBuilt(old(State()), w, ok, c)
    {
      if !ok {
        HandleConnectionFailure(w.generation, w.url);
        return None;
      }
      if !ReconnectCurrent(State(), w.generation) || identity != Some(w.identity) {
        return None;
      }
      pendingCandidate := Some(c);
      return Some(ForConnect(w.generation, w.url, c));
    }

    method OnRelayClose(c: Client)
      modifies this
      ensures State() == RelayClosed(old(State()), c)
    {
      if activeRelay != Some(c) || !started {
        return;
      }
      activeRelay := None;
      if currentRelayUrl.Some? && currentRelayUrl.value != "" {
        Reschedule(currentRelayUrl.value);
      }
    }

    method OnAttemptSettled(attempt: nat)
      modifies this
      ensures State() == AttemptSettled(old(State()), attempt)
    {
      if initialAttempt == Some(attempt) {
        initialAttempt := None;
      }
    }

    method Reschedule(url: string)
      modifies this
      ensures State() == ScheduleReconnect(old(State()), url)
    {
      if identity.None? || isDisposed || !started {
        return;
      }
      generation := generation + 1;
      reconnectAttempt := reconnectAttempt + 1;
      reconnectTimer := Some(Timer(generation, url));
    }

    method HandleConnectionFailure(expected: nat, url: string)
      modifies this
      ensures State() == ConnectionFailed(old(State()), expected, url)
    {
      if ReconnectCurrent(State(), expected) {
        Reschedule(url);
      }
    }

    method CloseCandidateOnce(c: Client)
      modifies this
      ensures State() == CloseOnce(old(State()), c)
    {
      if c !in closedCandidates {
        closedCandidates := closedCandidates + {c};
        closes := closes + [c];
      }
    }
  }

  // ----- The system: the object, its waiting continuations and its clients -----

  datatype System = System(relay: Relay, waiting: map<nat, Waiting>, tickets: nat, created: nat, lost: set<Client>)

  const Initial := System(Idle, map[], 0, 0, {})

  datatype Step =
    | Starts(attempt: nat)
    | Stops
    | Disposes(value: bool)
    | Settles(attempt: nat)
    | Resumes(ticket: nat, ok: bool, identity: nat, url: string)
    | Fires
    | Closes(client: Client)

  ghost function Wait(s: System, relay: Relay, w: Option<Waiting>): System {
    if w.None? then s.(relay := relay) else s.(relay := relay, waiting := s.waiting[s.tickets := w.value], tickets := s.tickets + 1)
  }

  /** A continuation resumes; `ok` says whether its promise was fulfilled. New clients get new numbers. */
  ghost function Resume(s: System, w: Waiting, ok: bool, identity: nat, url: string): System {
    match w
    case ForIdentity(_) =>
      var (r, next) := IdentityLoaded(s.relay, w, if ok then Some(identity) else None, url);
      Wait(s, r, next)
    case ForInitialOptions(_, _) =>
      var (r, next) := InitialOptionsBuilt(s.relay, w, ok, s.created);
      if next.Some? then Wait(s.(created := s.created + 1), r, next) else s.(relay := r)
    case ForOptions(_, _, _) =>
      var (r, next) := OptionsBuilt(s.relay, w, ok, s.created);
      if next.Some? then Wait(s.(created := s.created + 1), r, next) else s.(relay := r)
    case _ => s.(relay := Connected(s.relay, w, ok))
  }

  ghost function Next(s: System, step: Step): System {
    match step
    case Starts(attempt) =>
      var (r, w) := Start(s.relay, attempt);
      Wait(s, r, w)
    case Stops => s.(relay := Stop(s.relay))
    case Disposes(value) => s.(relay := s.relay.(disposed := value))
    case Settles(attempt) => s.(relay := AttemptSettled(s.relay, attempt))
    case Resumes(ticket, ok, identity, url) =>
      if ticket !in s.waiting then s else Resume(s.(waiting := s.waiting - {ticket}), s.waiting[ticket], ok, identity, url)
    case Fires =>
      var (r, w) := TimerFired(s.relay);
      Wait(s, r, w)
    case Closes(client) =>
      var lost := if s.relay.active == Some(client) then s.lost + {client} else s.lost;
      s.(relay := RelayClosed(s.relay, client), lost := lost)
  }

  // ----- What every interleaving keeps -----

  /** A continuation that would still act. */
  ghost predicate Wanted(s: System, ticket: nat) {
    ticket in s.waiting && s.waiting[ticket].generation == s.relay.generation
  }

  ghost predicate NoneWanted(s: System) { forall t :: !Wanted(s, t) }

  ghost predicate Connecting(w: Waiting) { w.ForInitialConnect? || w.ForConnect? }

  ghost predicate Accounted(s: System, c: Client) {
    s.relay.active == Some(c) || s.relay.pending == Some(c) || c in s.relay.closed || c in s.lost
  }

  /** Each client created is active or pending, or closed by us, or lost; the active one is neither closed nor lost. */
  ghost predicate ClientsKept(s: System) {
    && (forall c: Client :: c < s.created ==> Accounted(s, c))
    && (forall c :: c in s.relay.closed ==> c < s.created) && (forall c :: c in s.lost ==> c < s.created)
    && (s.relay.active.Some? ==> s.relay.active.value < s.created && s.relay.active.value !in s.relay.closed + s.lost)
    && (s.relay.pending.Some? ==> s.relay.pending.value < s.created && s.relay.pending.value !in s.lost)
    && s.lost !! s.relay.closed
  }

  /** `close` is called once for each client in `closed`. */
  ghost predicate ClosedOnce(r: Relay) {
    && (forall i, j :: 0 <= i < j < |r.closes| ==> r.closes[i] != r.closes[j])
    && (forall c :: c in r.closes <==> c in r.closed)
  }

  ghost predicate OneAtATime(r: Relay) {
    && !(r.active.Some? && r.pending.Some?)
    && (!r.started ==> r.active.None? && r.pending.None? && r.timer.None?)
    && (r.started ==> r.identity.Some?)
    && (r.timer.Some? ==> r.timer.value.generation == r.generation && r.active.None? && r.pending.None?)
  }

  /** At most one continuation is wanted, and none while a relay is active or a timer runs. */
  ghost predicate OneWanted(s: System) {
    && (forall t :: t in s.waiting ==> t < s.tickets && s.waiting[t].generation <= s.relay.generation)
    && (forall t, u :: Wanted(s, t) && Wanted(s, u) ==> t == u)
    && (s.relay.active.Some? || s.relay.timer.Some? ==> NoneWanted(s))
  }

  ghost predicate SameClient(w: Waiting, v: Waiting) {
    Connecting(w) && Connecting(v) && w.client == v.client
  }

  /** Clients that are being connected are pending or closed, and each by one continuation. */
  ghost predicate ConnectingKept(s: System) {
    && (forall t :: t in s.waiting && Connecting(s.waiting[t]) ==>
          var c := s.waiting[t].client;
          c < s.created && c !in s.lost && s.relay.active != Some(c) && (s.relay.pending == Some(c) || c in s.relay.closed))
    && forall t, u :: t in s.waiting && u in s.waiting && SameClient(s.waiting[t], s.waiting[u]) ==> t == u
  }

  /** A pending client that has not been closed is what the wanted continuation is connecting. */
  ghost predicate PendingKept(s: System) {
    s.relay.pending.Some? ==>
      if s.relay.pending.value in s.relay.closed then NoneWanted(s)
      else exists t :: Wanted(s, t) && Connecting(s.waiting[t]) && s.waiting[t].client == s.relay.pending.value
  }

  /** A wanted continuation fits the state it will resume in. */
  ghost predicate WantedFits(s: System) {
    forall t :: Wanted(s, t) ==>
      && (s.waiting[t].ForIdentity? <==> !s.relay.started)
      && (s.waiting[t].ForOptions? ==> s.relay.identity == Some(s.waiting[t].identity))
      && (Connecting(s.waiting[t]) ==> s.relay.pending == Some(s.waiting[t].client) && s.waiting[t].client !in s.relay.closed)
  }

  ghost predicate Sound(s: System) {
    ClientsKept(s) && ClosedOnce(s.relay) && OneAtATime(s.relay) && OneWanted(s) && ConnectingKept(s) && PendingKept(s) && WantedFits(s)
  }

  // ----- Moves -----

  ghost function Taken(s: System, ticket: nat): System { s.(waiting := s.waiting - {ticket}) }

  lemma {:induction false} OthersWanted(s: System, ticket: nat)
    requires OneWanted(s) && ticket in s.waiting
    ensures forall t :: Wanted(Taken(s, ticket), t) <==> t != ticket && Wanted(s, t)
    ensures Wanted(s, ticket) ==> NoneWanted(Taken(s, ticket))
  {
  }

  lemma {:induction false} SameAccounts(s: System, n: System)
    requires ClientsKept(s) && n.created == s.created && n.lost == s.lost
    requires n.relay.active == s.relay.active && n.relay.pending == s.relay.pending && n.relay.closed == s.relay.closed
    ensures ClientsKept(n)
  {
    forall c: Client | c < n.created
      ensures Accounted(n, c)
    {
      assert Accounted(s, c);
    }
  }

  /** A continuation that is not connecting the pending client may go. */
  lemma {:induction false} DropSound(s: System, ticket: nat)
    requires Sound(s) && ticket in s.waiting
    requires Wanted(s, ticket) ==> !Connecting(s.waiting[ticket])
    ensures Sound(Taken(s, ticket))
    ensures Wanted(s, ticket) ==> Taken(s, ticket).relay.active.None? && s.relay.timer.None? && s.relay.pending.None?
  {
    hide ClientsKept, ClosedOnce;
    OthersWanted(s, ticket);
    SameAccounts(s, Taken(s, ticket));
  }

  lemma {:induction false} ScheduleSound(s: System, url: string)
    requires Sound(s) && NoneWanted(s) && s.relay.active.None? && s.relay.pending.None?
    ensures Sound(s.(relay := ScheduleReconnect(s.relay, url)))
  {
    hide ClientsKept;
    var n := s.(relay := ScheduleReconnect(s.relay, url));
    SameAccounts(s, n);
    assert NoneWanted(n);
  }

  lemma {:induction false} FailSound(s: System, generation: nat, url: string)
    requires Sound(s) && NoneWanted(s)
    requires ReconnectCurrent(s.relay, generation) ==> s.relay.active.None? && s.relay.pending.None?
    ensures Sound(s.(relay := ConnectionFailed(s.relay, generation, url)))
  {
    hide Sound;
    if ReconnectCurrent(s.relay, generation) {
      ScheduleSound(s, url);
    }
  }

  lemma {:induction false} ParkSound(s: System, w: Waiting)
    requires Sound(s) && NoneWanted(s) && s.relay.active.None? && s.relay.timer.None? && s.relay.pending.None?
    requires w.generation == s.relay.generation && !Connecting(w) && (w.ForIdentity? <==> !s.relay.started)
    requires w.ForOptions? ==> s.relay.identity == Some(w.identity)
    ensures Sound(Wait(s, s.relay, Some(w)))
  {
    var n := Wait(s, s.relay, Some(w));
    SameAccounts(s, n);
    forall t | Wanted(n, t)
      ensures t == s.tickets
    {
      assert !Wanted(s, t);
    }
  }

  ghost function WithCandidate(s: System): System {
    s.(created := s.created + 1, relay := s.relay.(pending := Some(s.created)))
  }

  lemma {:induction false} ParkConnectSound(s: System, w: Waiting)
    requires Sound(s) && NoneWanted(s) && s.relay.active.None? && s.relay.timer.None? && s.relay.pending.None? && s.relay.started
    requires w.generation == s.relay.generation && Connecting(w) && w.client == s.created
    ensures Sound(Wait(WithCandidate(s), WithCandidate(s).relay, Some(w)))
  {
    var n := Wait(WithCandidate(s), WithCandidate(s).relay, Some(w));
    forall c: Client | c < n.created
      ensures Accounted(n, c)
    {
      assert Accounted(s, c) || c == s.created;
    }
    assert Wanted(n, s.tickets);
    forall t | Wanted(n, t)
      ensures t == s.tickets
    {
      assert !Wanted(s, t);
    }
  }

  lemma {:induction false} CloseKeeps(r: Relay, c: Client)
    requires ClosedOnce(r)
    ensures ClosedOnce(CloseOnce(r, c))
  {
  }

  lemma {:induction false} AbandonedClients(s: System, ticket: nat)
    requires ClientsKept(s) && OneAtATime(s.relay) && ticket in s.waiting && Connecting(s.waiting[ticket])
    requires s.waiting[ticket].client < s.created
    ensures ClientsKept(Taken(s, ticket).(relay := ClearCandidate(s.relay, s.waiting[ticket].client)))
  {
    var n := Taken(s, ticket).(relay := ClearCandidate(s.relay, s.waiting[ticket].client));
    forall x: Client | x < n.created
      ensures Accounted(n, x)
    {
      assert Accounted(s, x);
    }
  }

  /** A failed connection: its client is closed, unless that has been done. */
  lemma {:induction false} AbandonSound(s: System, ticket: nat)
    requires Sound(s) && ticket in s.waiting && Connecting(s.waiting[ticket])
    ensures var n := Taken(s, ticket).(relay := ClearCandidate(s.relay, s.waiting[ticket].client));
            && Sound(n) && (Wanted(s, ticket) ==> NoneWanted(n) && n.relay.active.None? && (n.relay.pending.None? || n.relay.pending.value in s.relay.closed))
  {
    hide ClientsKept;
    var c := s.waiting[ticket].client;
    var n := Taken(s, ticket).(relay := ClearCandidate(s.relay, c));
    OthersWanted(s, ticket);
    AbandonedClients(s, ticket);
    CloseKeeps(s.relay.(pending := None), c);
    forall t
      ensures Wanted(n, t) <==> t != ticket && Wanted(s, t)
    {
      assert Wanted(Taken(s, ticket), t) <==> t != ticket && Wanted(s, t);
    }
  }

  /** A connection that nobody waits for any more is closed. */
  lemma {:induction false} RefuseSound(s: System, ticket: nat)
    requires Sound(s) && ticket in s.waiting && Connecting(s.waiting[ticket])
    ensures Sound(Taken(s, ticket).(relay := CloseOnce(s.relay, s.waiting[ticket].client)))
  {
    var c := s.waiting[ticket].client;
    var n := Taken(s, ticket).(relay := CloseOnce(s.relay, c));
    OthersWanted(s, ticket);
    CloseKeeps(s.relay, c);
    forall t
      ensures Wanted(n, t) <==> t != ticket && Wanted(s, t)
    {
      assert Wanted(Taken(s, ticket), t) <==> t != ticket && Wanted(s, t);
    }
    forall x: Client | x < n.created
      ensures Accounted(n, x)
    {
      assert Accounted(s, x);
    }
  }

  lemma {:induction false} InstallSound(s: System, ticket: nat)
    requires Sound(s) && ticket in s.waiting && Connecting(s.waiting[ticket]) && Wanted(s, ticket)
    requires s.relay.pending == Some(s.waiting[ticket].client)
    ensures Sound(Taken(s, ticket).(relay := Install(s.relay, s.waiting[ticket].client)))
  {
    var c := s.waiting[ticket].client;
    var n := Taken(s, ticket).(relay := Install(s.relay, c));
    OthersWanted(s, ticket);
    forall t
      ensures !Wanted(n, t)
    {
      assert !Wanted(Taken(s, ticket), t);
    }
    forall x: Client | x < n.created
      ensures Accounted(n, x)
    {
      assert Accounted(s, x);
    }
  }

  // ----- Steps -----

  lemma {:induction false} StartSound(s: System, attempt: nat)
    requires Sound(s)
    ensures Sound(Next(s, Starts(attempt)))
  {
    hide ClientsKept;
    if s.relay.attempt.None? && !s.relay.started {
      var older := s.(relay := s.relay.(generation := s.relay.generation + 1, attempt := Some(attempt)));
      SameAccounts(s, older);
      assert NoneWanted(older);
      assert Sound(older);
      ParkSound(older, ForIdentity(older.relay.generation));
    }
  }

  lemma {:induction false} StopSound(s: System)
    requires Sound(s)
    ensures Sound(Next(s, Stops))
  {
    var n := Next(s, Stops);
    forall c: Client | c < n.created
      ensures Accounted(n, c)
    {
      assert Accounted(s, c);
    }
    forall t
      ensures !Wanted(n, t)
    {
    }
  }

  lemma {:induction false} SetSound(s: System, n: System)
    requires Sound(s)
    requires n == s.(relay := s.relay.(disposed := n.relay.disposed, attempt := n.relay.attempt))
    ensures Sound(n)
  {
    hide ClientsKept;
    SameAccounts(s, n);
    forall t
      ensures Wanted(n, t) <==> Wanted(s, t)
    {
    }
  }

  lemma {:induction false} FireSound(s: System)
    requires Sound(s)
    ensures Sound(Next(s, Fires))
  {
    hide ClientsKept;
    if s.relay.timer.Some? {
      var t := s.relay.timer.value;
      var n := s.(relay := s.relay.(timer := None));
      SameAccounts(s, n);
      assert NoneWanted(s);
      forall t
        ensures !Wanted(n, t)
      {
        assert !Wanted(s, t);
      }
      assert Sound(n);
      if ReconnectCurrent(n.relay, t.generation) && n.relay.identity.Some? {
        ParkSound(n, ForOptions(t.generation, t.url, n.relay.identity.value));
      }
    }
  }

  lemma {:induction false} CloseSound(s: System, c: Client)
    requires Sound(s)
    ensures Sound(Next(s, Closes(c)))
  {
    if s.relay.active == Some(c) && s.relay.started {
      var n := s.(relay := s.relay.(active := None), lost := s.lost + {c});
      assert NoneWanted(s);
      forall t
        ensures !Wanted(n, t)
      {
        assert !Wanted(s, t);
      }
      forall x: Client | x < n.created
        ensures Accounted(n, x)
      {
        assert Accounted(s, x);
      }
      assert Sound(n);
      if n.relay.url.Some? {
        ScheduleSound(n, n.relay.url.value);
      }
    }
  }

  ghost function Started(s: System, identity: nat, url: string): System {
    s.(relay := s.relay.(identity := Some(identity), url := Some(url), started := true))
  }

  lemma {:induction false} StartedSound(s: System, identity: nat, url: string)
    requires Sound(s) && NoneWanted(s)
    ensures Sound(Started(s, identity, url)) && NoneWanted(Started(s, identity, url))
  {
    hide ClientsKept;
    var n := Started(s, identity, url);
    SameAccounts(s, n);
    forall t
      ensures !Wanted(n, t)
    {
      assert !Wanted(s, t);
    }
  }

  lemma {:induction false} IdentitySound(s: System, ticket: nat, ok: bool, identity: nat, url: string)
    requires Sound(s) && ticket in s.waiting && s.waiting[ticket].ForIdentity?
    ensures Sound(Next(s, Resumes(ticket, ok, identity, url)))
  {
    hide Sound, Wanted, NoneWanted;
    var w := s.waiting[ticket];
    var d := Taken(s, ticket);
    DropSound(s, ticket);
    TakenWanted(s, ticket);
    if ok && OperationCurrent(s.relay, w.generation) {
      StartedSound(d, identity, url);
      ParkSound(Started(d, identity, url), ForInitialOptions(w.generation, url));
    }
  }

  lemma {:induction false} TakenWanted(s: System, ticket: nat)
    requires Sound(s) && ticket in s.waiting
    ensures var d := Taken(s, ticket);
            && d.relay == s.relay && d.created == s.created
            && (OperationCurrent(s.relay, s.waiting[ticket].generation) ==> Wanted(s, ticket) && NoneWanted(d))
            && (OperationCurrent(s.relay, s.waiting[ticket].generation) && s.waiting[ticket].ForIdentity? ==>
                  s.relay.active.None? && s.relay.timer.None? && s.relay.pending.None?)
  {
    OthersWanted(s, ticket);
  }

  lemma {:induction false} OptionsSound(s: System, ticket: nat, ok: bool, identity: nat, url: string)
    requires Sound(s) && ticket in s.waiting && (s.waiting[ticket].ForInitialOptions? || s.waiting[ticket].ForOptions?)
    ensures Sound(Next(s, Resumes(ticket, ok, identity, url)))
  {
    hide Sound, Wanted, NoneWanted;
    var w := s.waiting[ticket];
    var d := Taken(s, ticket);
    DropSound(s, ticket);
    TakenWanted(s, ticket);
    if !ok {
      if ReconnectCurrent(d.relay, w.generation) {
        assert Wanted(s, ticket);
        FailSound(d, w.generation, w.url);
      }
    } else if ReconnectCurrent(d.relay, w.generation) && (w.ForOptions? ==> d.relay.identity == Some(w.identity)) {
      assert Wanted(s, ticket);
      ParkConnectSound(d, if w.ForOptions? then ForConnect(w.generation, w.url, d.created) else ForInitialConnect(w.generation, w.url, d.created));
    }
  }

  lemma {:induction false} ConnectSound(s: System, ticket: nat, ok: bool, identity: nat, url: string)
    requires Sound(s) && ticket in s.waiting && Connecting(s.waiting[ticket])
    ensures Sound(Next(s, Resumes(ticket, ok, identity, url)))
  {
    hide Sound;
    var w := s.waiting[ticket];
    if !ok {
      AbandonSound(s, ticket);
      var n := Taken(s, ticket).(relay := ClearCandidate(s.relay, w.client));
      if ReconnectCurrent(n.relay, w.generation) {
        assert Wanted(s, ticket);
        NothingPending(s, ticket);
        FailSound(n, w.generation, w.url);
      }
    } else if !ReconnectCurrent(s.relay, w.generation) || s.relay.pending != Some(w.client) {
      RefuseSound(s, ticket);
    } else {
      assert Wanted(s, ticket);
      InstallSound(s, ticket);
    }
  }

  lemma {:induction false} NothingPending(s: System, ticket: nat)
    requires Sound(s) && Wanted(s, ticket) && Connecting(s.waiting[ticket])
    ensures ClearCandidate(s.relay, s.waiting[ticket].client).pending.None? && s.relay.active.None?
  {
    if s.relay.pending.Some? && s.relay.pending.value !in s.relay.closed {
      var t :| Wanted(s, t) && Connecting(s.waiting[t]) && s.waiting[t].client == s.relay.pending.value;
      assert t == ticket;
    }
  }

  /** Whatever happens next, the system stays sound. */
  lemma {:induction false} NextSound(s: System, step: Step)
    requires Sound(s)
    ensures Sound(Next(s, step))
  {
    match step
    case Starts(attempt) => StartSound(s, attempt);
    case Stops => StopSound(s);
    case Disposes(value) => SetSound(s, Next(s, step));
    case Settles(attempt) => SetSound(s, Next(s, step));
    case Fires => FireSound(s);
    case Closes(client) => CloseSound(s, client);
    case Resumes(ticket, ok, identity, url) =>
      if ticket in s.waiting {
        match s.waiting[ticket]
        case ForIdentity(_) => IdentitySound(s, ticket, ok, identity, url);
        case ForInitialOptions(_, _) => OptionsSound(s, ticket, ok, identity, url);
        case ForOptions(_, _, _) => OptionsSound(s, ticket, ok, identity, url);
        case _ => ConnectSound(s, ticket, ok, identity, url);
      }
  }

  /** Steps in the order in which they happen. */
  datatype Run = Nothing | Then(before: Run, step: Step)

  ghost function After(run: Run): System {
    match run
    case Nothing => Initial
    case Then(before, step) => Next(After(before), step)
  }

  lemma {:induction false} AlwaysSound(run: Run)
    ensures Sound(After(run))
  {
    hide Next;
    if run.Then? {
      AlwaysSound(run.before);
      NextSound(After(run.before), run.step);
    }
  }

  /**
   In every interleaving: each client created is active, pending, closed by exactly one call, or was closed remotely; an
   active and a pending client never coexist; an idle lifecycle has neither, and no timer; of an active client, a timer
   and wanted continuations there is at most one.
   */
  lemma {:induction false} EveryInterleaving(run: Run)
    ensures var s := After(run);
            && (forall c: Client :: c < s.created ==> Accounted(s, c))
            && (forall i, j :: 0 <= i < j < |s.relay.closes| ==> s.relay.closes[i] != s.relay.closes[j])
            && (forall c :: c in s.relay.closes <==> c in s.relay.closed)
            && (s.relay.active.Some? ==> s.relay.pending.None? && s.relay.active.value !in s.relay.closed)
            && (!s.relay.started ==> s.relay.active.None? && s.relay.pending.None? && s.relay.timer.None?)
            && (s.relay.active.Some? || s.relay.timer.Some? ==> NoneWanted(s))
            && (s.relay.active.Some? ==> s.relay.timer.None?)
            && forall t, u :: Wanted(s, t) && Wanted(s, u) ==> t == u
  {
    hide After;
    AlwaysSound(run);
  }

  /** A late continuation, or one that resumes while disposed, changes nothing but its own client's fate. */
  lemma {:induction false} LateInstallsNothing(s: System, step: Step)
    requires Sound(s) && step.Resumes? && step.ticket in s.waiting
    requires s.waiting[step.ticket].generation != s.relay.generation || s.relay.disposed
    ensures var n := Next(s, step);
            && n.relay == s.relay.(pending := n.relay.pending, closed := n.relay.closed, closes := n.relay.closes)
            && (n.relay.pending == s.relay.pending || n.relay.pending.None?)
            && n.created == s.created && n.waiting == s.waiting - {step.ticket}
            && forall c :: c in n.relay.closed ==> c in s.relay.closed || (Connecting(s.waiting[step.ticket]) && c == s.waiting[step.ticket].client)
  {
    hide Sound, Connected;
    var d, w := Taken(s, step.ticket), s.waiting[step.ticket];
    if Connecting(w) {
      LateConnected(s.relay, w, step.ok);
    } else {
      LateWaiting(d, w, step.ok, step.identity, step.url);
    }
  }

  lemma {:induction false} LateConnected(r: Relay, w: Waiting, ok: bool)
    requires Connecting(w) && (w.generation != r.generation || r.disposed)
    ensures var n := Connected(r, w, ok);
            && n == r.(pending := n.pending, closed := n.closed, closes := n.closes)
            && (n.pending == r.pending || n.pending.None?)
            && forall c :: c in n.closed ==> c in r.closed || c == w.client
  {
  }

  lemma {:induction false} LateWaiting(s: System, w: Waiting, ok: bool, identity: nat, url: string)
    requires !Connecting(w) && (w.generation != s.relay.generation || s.relay.disposed)
    ensures Resume(s, w, ok, identity, url) == s
  {
  }

  // ----- Something always drives a started session on -----

  ghost predicate Driven(s: System) {
    s.relay.active.Some? || s.relay.timer.Some? || exists t :: Wanted(s, t)
  }

  /** A session that is started and not disposed is connected, connecting or waiting to reconnect. */
  ghost predicate Alive(s: System) {
    s.relay.started && !s.relay.disposed ==> Driven(s)
  }

  ghost predicate UrlsKnown(s: System) {
    && (s.relay.started ==> s.relay.url.Some? && s.relay.url.value != "")
  }

  /** Resolving the relay address never gives an empty one. */
  ghost predicate Resolves(step: Step) { step.Resumes? ==> step.url != "" }

  lemma {:induction false} UrlsKept(s: System, step: Step)
    requires Sound(s) && UrlsKnown(s) && Resolves(step)
    ensures UrlsKnown(Next(s, step))
  {
    hide Sound;
  }

  lemma {:induction false} ParkedDrives(s: System, w: Waiting)
    requires w.generation == s.relay.generation
    ensures Driven(Wait(s, s.relay, Some(w)))
  {
    assert Wanted(Wait(s, s.relay, Some(w)), s.tickets);
  }

  lemma {:induction false} OtherStaysWanted(s: System, ticket: nat)
    requires Sound(s) && ticket in s.waiting && !Wanted(s, ticket) && Driven(s)
    ensures Driven(Taken(s, ticket))
  {
    if t :| Wanted(s, t) {
      assert Wanted(Taken(s, ticket), t);
    }
  }

  lemma {:induction false} FireAlive(s: System)
    requires Sound(s) && Alive(s)
    ensures Alive(Next(s, Fires))
  {
    hide Driven;
    if s.relay.timer.Some? && s.relay.started && !s.relay.disposed {
      var t := s.relay.timer.value;
      ParkedDrives(s.(relay := s.relay.(timer := None)), ForOptions(t.generation, t.url, s.relay.identity.value));
    }
  }

  lemma {:induction false} CloseAlive(s: System, c: Client)
    requires Sound(s) && Alive(s) && UrlsKnown(s)
    ensures Alive(Next(s, Closes(c)))
  {
  }

  lemma {:induction false} IdentityAlive(s: System, ticket: nat, ok: bool, identity: nat, url: string)
    requires Sound(s) && Alive(s) && ticket in s.waiting && s.waiting[ticket].ForIdentity?
    ensures Alive(Next(s, Resumes(ticket, ok, identity, url)))
  {
    hide Driven;
    var w, d := s.waiting[ticket], Taken(s, ticket);
    if ok && OperationCurrent(s.relay, w.generation) {
      ParkedDrives(d.(relay := d.relay.(identity := Some(identity), url := Some(url), started := true)), ForInitialOptions(w.generation, url));
    } else if s.relay.started && !s.relay.disposed {
      OtherStaysWanted(s, ticket);
    }
  }

  lemma {:induction false} OptionsAlive(s: System, ticket: nat, ok: bool, identity: nat, url: string)
    requires Sound(s) && Alive(s) && ticket in s.waiting && (s.waiting[ticket].ForInitialOptions? || s.waiting[ticket].ForOptions?)
    ensures Alive(Next(s, Resumes(ticket, ok, identity, url)))
  {
    var w, d := s.waiting[ticket], Taken(s, ticket);
    if s.relay.started && !s.relay.disposed {
      if !Wanted(s, ticket) {
        OtherStaysWanted(s, ticket);
      } else if ok {
        ParkedDrives(WithCandidate(d), if w.ForOptions? then ForConnect(w.generation, w.url, d.created)
                                       else ForInitialConnect(w.generation, w.url, d.created));
      }
    }
  }

  lemma {:induction false} ConnectAlive(s: System, ticket: nat, ok: bool, identity: nat, url: string)
    requires Sound(s) && Alive(s) && ticket in s.waiting && Connecting(s.waiting[ticket])
    ensures Alive(Next(s, Resumes(ticket, ok, identity, url)))
  {
    var n := Next(s, Resumes(ticket, ok, identity, url));
    if s.relay.started && !s.relay.disposed && !Wanted(s, ticket) {
      OtherStaysWanted(s, ticket);
      if t :| Wanted(Taken(s, ticket), t) {
        assert Wanted(n, t);
      }
    }
  }

  lemma {:induction false} StepAlive(s: System, step: Step)
    requires Sound(s) && UrlsKnown(s) && Alive(s) && !step.Disposes?
    ensures Alive(Next(s, step))
  {
    hide Sound;
    match step
    case Starts(attempt) =>
    case Stops =>
    case Settles(attempt) => assert forall t :: Wanted(Next(s, step), t) <==> Wanted(s, t);
    case Fires => FireAlive(s);
    case Closes(client) => CloseAlive(s, client);
    case Resumes(ticket, ok, identity, url) =>
      if ticket in s.waiting {
        match s.waiting[ticket]
        case ForIdentity(_) => IdentityAlive(s, ticket, ok, identity, url);
        case ForInitialOptions(_, _) => OptionsAlive(s, ticket, ok, identity, url);
        case ForOptions(_, _, _) => OptionsAlive(s, ticket, ok, identity, url);
        case _ => ConnectAlive(s, ticket, ok, identity, url);
      }
  }

  // ----- What can leave a started session with nothing to drive it on -----

  /** While disposed, what drives the session comes to its end: its continuation resumes, its timer fires, or its active
      client is closed. */
  ghost predicate Drops(s: System, step: Step) {
    && s.relay.disposed
    && match step
       case Resumes(ticket, _, _, _) => Wanted(s, ticket)
       case Fires => s.relay.timer.Some?
       case Closes(client) => s.relay.active == Some(client)
       case _ => false
  }

  lemma {:induction false} DisposeKeepsDriven(s: System, value: bool)
    ensures Driven(Next(s, Disposes(value))) <==> Driven(s)
  {
    assert forall t :: Wanted(Next(s, Disposes(value)), t) <==> Wanted(s, t);
  }

  /** A continuation that resumes while disposed, or late, takes no other continuation with it. */
  lemma {:induction false} ResumedDriven(s: System, step: Step)
    requires Sound(s) && step.Resumes? && step.ticket in s.waiting
    requires s.waiting[step.ticket].generation != s.relay.generation || s.relay.disposed
    ensures Driven(Next(s, step)) <==> Driven(s) && !Wanted(s, step.ticket)
  {
    hide Next;
    LateInstallsNothing(s, step);
    var n := Next(s, step);
    assert forall t :: Wanted(n, t) <==> Wanted(s, t) && t != step.ticket;
  }

  lemma {:induction false} DisposedDriven(s: System, step: Step)
    requires Sound(s) && s.relay.started && s.relay.disposed && Driven(s) && Next(s, step).relay.started && !step.Disposes?
    ensures Driven(Next(s, step)) <==> !Drops(s, step)
  {
    match step
    case Resumes(ticket, _, _, _) =>
      if ticket in s.waiting {
        ResumedDriven(s, step);
      }
    case Starts(_) => assert forall t :: Wanted(Next(s, step), t) <==> Wanted(s, t);
    case Settles(_) => assert forall t :: Wanted(Next(s, step), t) <==> Wanted(s, t);
    case Fires => assert forall t :: Wanted(Next(s, step), t) <==> Wanted(s, t);
    case Closes(_) => assert forall t :: Wanted(Next(s, step), t) <==> Wanted(s, t);
    case Stops =>
    case Disposes(_) =>
  }

  /** A started session loses what drives it by just these steps. */
  lemma {:induction false} DrivenUnlessDropped(s: System, step: Step)
    requires Sound(s) && UrlsKnown(s) && s.relay.started && Driven(s) && Next(s, step).relay.started
    ensures !Driven(Next(s, step)) <==> Drops(s, step)
  {
    hide Sound, Next, Driven;
    if step.Disposes? {
      DisposeKeepsDriven(s, step.value);
    } else if s.relay.disposed {
      DisposedDriven(s, step);
    } else {
      StepAlive(s, step);
      StaysUndisposed(s, step);
    }
  }

  lemma {:induction false} StaysUndisposed(s: System, step: Step)
    requires !step.Disposes?
    ensures Next(s, step).relay.disposed == s.relay.disposed
  {
  }

  /** Nothing but stopping ends a session that nothing drives on, and nothing drives it on again. */
  lemma {:induction false} UndrivenUntilStopped(s: System, step: Step)
    requires Sound(s) && s.relay.started && !Driven(s)
    ensures if step.Stops? then !Next(s, step).relay.started else Next(s, step).relay.started && !Driven(Next(s, step))
  {
    match step
    case Disposes(value) => DisposeKeepsDriven(s, value);
    case Resumes(ticket, _, _, _) =>
      if ticket in s.waiting {
        assert !Wanted(s, ticket);
        LateInstallsNothing(s, step);
        ResumedDriven(s, step);
      }
    case _ => assert forall t :: Wanted(Next(s, step), t) ==> Wanted(s, t);
  }

  /** A session starts driven. */
  lemma {:induction false} StartsDriven(s: System, step: Step)
    requires Sound(s) && !s.relay.started && Next(s, step).relay.started
    ensures Driven(Next(s, step))
  {
    hide Driven;
    var w, d := s.waiting[step.ticket], Taken(s, step.ticket);
    ParkedDrives(d.(relay := d.relay.(identity := Some(step.identity), url := Some(step.url), started := true)),
                 ForInitialOptions(w.generation, step.url));
  }

  ghost predicate AllResolve(run: Run) {
    run.Then? ==> AllResolve(run.before) && Resolves(run.step)
  }

  lemma {:induction false} UrlsAlwaysKnown(run: Run)
    requires AllResolve(run)
    ensures UrlsKnown(After(run))
  {
    hide Next, Sound;
    if run.Then? {
      UrlsAlwaysKnown(run.before);
      AlwaysSound(run.before);
      UrlsKept(After(run.before), run.step);
    }
  }

  /** The session is started, and one of those steps has happened since it started. */
  ghost predicate DroppedSinceStart(run: Run) {
    && run.Then? && After(run).relay.started
    && (DroppedSinceStart(run.before) || (After(run.before).relay.started && Drops(After(run.before), run.step)))
  }

  /** In every run, a started session has nothing to drive it on exactly if it was dropped since it started. */
  lemma {:induction false} UndrivenIffDropped(run: Run)
    requires AllResolve(run)
    ensures After(run).relay.started && !Driven(After(run)) <==> DroppedSinceStart(run)
  {
    hide Sound, UrlsKnown, Driven, Drops, Next;
    if run.Then? {
      var s := After(run.before);
      UndrivenIffDropped(run.before);
      AlwaysSound(run.before);
      UrlsAlwaysKnown(run.before);
      if After(run).relay.started {
        if !s.relay.started {
          StartsDriven(s, run.step);
        } else if Driven(s) {
          DrivenUnlessDropped(s, run.step);
        } else {
          UndrivenUntilStopped(s, run.step);
        }
      }
    }
  }

  /**
   So a started session that is not disposed is connected, connecting or waiting to reconnect, unless it was dropped
   while it was disposed for a time.
   */
  lemma {:induction false} AliveIff(run: Run)
    requires AllResolve(run)
    ensures Alive(After(run)) <==> After(run).relay.disposed || !DroppedSinceStart(run)
  {
    hide After, Driven;
    UndrivenIffDropped(run);
  }

  ghost predicate NeverUndisposes(run: Run) {
    run.Then? ==> NeverUndisposes(run.before) && run.step != Disposes(false)
  }

  /** Disposal is for good, as in the running extension: then a started, undisposed session is always alive. */
  lemma {:induction false} AlwaysAlive(run: Run)
    requires AllResolve(run) && NeverUndisposes(run)
    ensures Alive(After(run))
  {
    hide After, Alive, DroppedSinceStart;
    AliveIff(run);
    DroppedIsDisposed(run);
  }

  lemma {:induction false} DroppedIsDisposed(run: Run)
    requires NeverUndisposes(run)
    ensures DroppedSinceStart(run) ==> After(run).relay.disposed
  {
    if DroppedSinceStart(run) {
      var s := After(run.before);
      DroppedIsDisposed(run.before);
      if !run.step.Disposes? {
        StaysUndisposed(s, run.step);
      }
    }
  }

  /** The exception is real: dispose while options are built, undo it, and a started session has nothing left to do. */
  lemma {:induction false} RevivalStrands()
    ensures exists run :: var s := After(run); s.relay.started && !s.relay.disposed && !Driven(s)
  {
    var started := Then(Then(Nothing, Starts(0)), Resumes(0, true, 7, "wss://relay"));
    assert After(Nothing) == Initial;
    var a := After(Then(Nothing, Starts(0)));
    assert a.waiting == map[0 := ForIdentity(1)] && a.tickets == 1;
    var b := After(started);
    assert b.waiting == map[1 := ForInitialOptions(1, "wss://relay")] && b.tickets == 2 && b.relay.generation == 1;
    var disposed := Then(started, Disposes(true));
    var dropped := Then(disposed, Resumes(1, true, 0, ""));
    assert After(disposed).waiting == b.waiting;
    assert After(dropped).waiting == map[];
    var revived := Then(dropped, Disposes(false));
    assert After(revived).waiting == map[] && After(revived).relay.started && !After(revived).relay.disposed;
    assert !Driven(After(revived));
  }
}
