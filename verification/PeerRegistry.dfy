/**
 The relay's registry of hosts and owners. An owner that subscribes to a device gets a snapshot of the endpoints that
 authorise it and then only changes; folding what it receives always gives the view it is entitled to.
 */
module PeerRegistry {
  import opened Bytes

  /** Device and endpoint. */
  type Key = (string, string)

  datatype Info = Info(runtime: string, metadata: string)

  datatype Host = Host(connId: nat, info: Info, owners: set<string>)

  datatype Purpose = ForSession | ForPairing

  datatype Route = Route(key: Key, runtime: string, purpose: Purpose, source: Option<string>, target: Option<string>, payload: string)

  datatype Message =
    | Snapshot(device: string, endpoints: map<string, Info>)
    | Announced(key: Key, info: Info)
    | Updated(key: Key, info: Info)
    | Ended(key: Key, info: Info)
    | Routed(route: Route)

  /** Connections of one owner, each with the devices it subscribes to. */
  type Connections = map<nat, set<string>>

  datatype Registry = Registry(
    endpoints: map<Key, Host>,
    owners: map<string, Connections>,
    next: nat,
    inboxes: map<nat, seq<Message>>)   // everything sent to a connection, in order

  const Empty := Registry(map[], map[], 0, map[])

  // ----- Deltas -----

  predicate Authorises(host: Option<Host>, owner: string) { host.Some? && owner in host.value.owners }

  /** What an owner's subscribed connections are told when the host at `key` changes. */
  function LineFor(key: Key, previous: Option<Host>, current: Option<Host>, owner: string): Option<Message> {
    if !Authorises(previous, owner) && Authorises(current, owner) then Some(Announced(key, current.value.info))
    else if Authorises(previous, owner) && Authorises(current, owner) then Some(Updated(key, current.value.info))
    else if Authorises(previous, owner) then Some(Ended(key, previous.value.info))
    else None
  }

  ghost predicate Connection(owners: map<string, Connections>, owner: string, c: nat) {
    owner in owners && c in owners[owner]
  }

  /** The owner behind a connection. */
  ghost function OwnerOf(owners: map<string, Connections>, c: nat): Option<string> {
    if exists o :: Connection(owners, o, c) then
      var o :| Connection(owners, o, c);
      Some(o)
    else None
  }

  ghost function NoticeFor(owners: map<string, Connections>, key: Key, previous: Option<Host>, current: Option<Host>, c: nat): seq<Message> {
    match OwnerOf(owners, c)
    case None => []
    case Some(o) =>
      if !Connection(owners, o, c) || key.0 !in owners[o][c] then []
      else match LineFor(key, previous, current, o)
           case None => []
           case Some(line) => [line]
  }

  ghost function Notify(r: Registry, key: Key, previous: Option<Host>, current: Option<Host>): Registry {
    r.(inboxes := map c | c in r.inboxes :: r.inboxes[c] + NoticeFor(r.owners, key, previous, current, c))
  }

  function HostAt(r: Registry, key: Key): Option<Host> {
    if key in r.endpoints then Some(r.endpoints[key]) else None
  }

  predicate IsActiveHost(r: Registry, key: Key, c: nat) {
    key in r.endpoints && r.endpoints[key].connId == c
  }

  // ----- Operations -----

  ghost function RegisterHost(r: Registry, key: Key, info: Info, owners: set<string>): Registry {
    var host := Host(r.next, info, owners);
    var previous := HostAt(r, key);
    Notify(r.(endpoints := r.endpoints[key := host], next := r.next + 1, inboxes := r.inboxes[r.next := []]), key, previous, Some(host))
  }

  function RegisterOwner(r: Registry, owner: string): Registry {
    var others := if owner in r.owners then r.owners[owner] else map[];
    r.(owners := r.owners[owner := others[r.next := {}]], next := r.next + 1, inboxes := r.inboxes[r.next := []])
  }

  ghost function UnregisterHost(r: Registry, key: Key, c: nat): Registry {
    if !IsActiveHost(r, key, c) then r
    else Notify(r.(endpoints := r.endpoints - {key}), key, Some(r.endpoints[key]), None)
  }

  function UnregisterOwner(r: Registry, owner: string, c: nat): Registry {
    if owner !in r.owners then r
    else
      var left := r.owners[owner] - {c};
      r.(owners := if left == map[] then r.owners - {owner} else r.owners[owner := left])
  }

  /** What an owner may see of a device. */
  function Visible(r: Registry, owner: string, device: string): map<string, Info> {
    map k | k in r.endpoints && k.0 == device && owner in r.endpoints[k].owners :: k.1 := r.endpoints[k].info
  }

  function Snapshots(r: Registry, owner: string, order: seq<string>): seq<Message> {
    if |order| == 0 then []
    else
      var last := order[|order| - 1];
      Snapshots(r, owner, order[..|order| - 1]) + [Snapshot(last, Visible(r, owner, last))]
  }

  function DevicesIn(order: seq<string>): set<string> { set d | d in order }

  /** `order` is the order in which the set of requested devices happens to be enumerated. */
  function Subscribe(r: Registry, owner: string, c: nat, order: seq<string>): (Registry, bool) {
    if owner !in r.owners || c !in r.owners[owner] then (r, false)
    else
      var inbox := if c in r.inboxes then r.inboxes[c] else [];
      var connections: Connections := r.owners[owner][c := DevicesIn(order)];
      (r.(owners := r.owners[owner := connections],
          inboxes := r.inboxes[c := inbox + Snapshots(r, owner, order)]), true)
  }

  ghost function UpdateHost(r: Registry, key: Key, c: nat, metadata: Option<string>, owners: Option<set<string>>): (Registry, bool) {
    if !IsActiveHost(r, key, c) then (r, false)
    else
      var previous := r.endpoints[key];
      var info := if metadata.Some? then previous.info.(metadata := metadata.value) else previous.info;
      var host := previous.(info := info, owners := if owners.Some? then owners.value else previous.owners);
      (Notify(r.(endpoints := r.endpoints[key := host]), key, Some(previous), Some(host)), true)
  }

  datatype RouteOutcome = Delivered | Unauthorized | Stale | Unavailable

  function Send(r: Registry, c: nat, message: Message): Registry {
    if c in r.inboxes then r.(inboxes := r.inboxes[c := r.inboxes[c] + [message]]) else r
  }

  /** `open` are the connections whose receiving end still exists. */
  function RouteFromOwner(r: Registry, owner: string, c: nat, route: Route, open: set<nat>): (Registry, RouteOutcome) {
    if route.target.Some? || route.source.Some? then (r, Unauthorized)
    else if owner !in r.owners || c !in r.owners[owner] then (r, Stale)
    else if route.key !in r.endpoints then (r, Unavailable)
    else
      var host := r.endpoints[route.key];
      if host.info.runtime != route.runtime then (r, Stale)
      else if route.purpose.ForSession? && owner !in host.owners then (r, Unauthorized)
      else if host.connId !in open then (r, Unavailable)
      else (Send(r, host.connId, Routed(route.(source := Some(owner)))), Delivered)
  }

  function Broadcast(r: Registry, receivers: set<nat>, message: Message): Registry {
    r.(inboxes := map c | c in r.inboxes :: if c in receivers then r.inboxes[c] + [message] else r.inboxes[c])
  }

  function RouteFromHost(r: Registry, key: Key, c: nat, route: Route, open: set<nat>): (Registry, RouteOutcome) {
    if route.target.None? then (r, Unauthorized)
    else if key !in r.endpoints then (r, Stale)
    else
      var host := r.endpoints[key];
      if host.connId != c || route.key != key || route.runtime != host.info.runtime || route.source.Some? then (r, Stale)
      else if route.purpose.ForSession? && route.target.value !in host.owners then (r, Unauthorized)
      else if route.target.value !in r.owners then (r, Unavailable)
      else
        var receivers := r.owners[route.target.value].Keys * open;
        (Broadcast(r, receivers, Routed(route)), if receivers != {} then Delivered else Unavailable)
  }

  // ----- What every registry keeps -----

  /** Connection ids are issued once: owner connections and hosts never share one, and none is ahead of the counter. */
  ghost predicate IdsUnique(r: Registry) {
    && (forall o, c: nat :: Connection(r.owners, o, c) ==> c < r.next)
    && (forall o, p, c: nat :: Connection(r.owners, o, c) && Connection(r.owners, p, c) ==> o == p)
    && (forall k :: k in r.endpoints ==> r.endpoints[k].connId < r.next)
    && (forall k, l :: k in r.endpoints && l in r.endpoints && r.endpoints[k].connId == r.endpoints[l].connId ==> k == l)
    && (forall k, o :: k in r.endpoints ==> !Connection(r.owners, o, r.endpoints[k].connId))
    && (forall c: nat :: c in r.inboxes <==> c < r.next)
  }

  ghost predicate NoEmptyOwner(r: Registry) {
    forall o :: o in r.owners ==> r.owners[o] != map[]
  }

  /** What a connection knows after the messages of its inbox. */
  type View = map<Key, Info>

  function Fold(view: View, message: Message): View {
    match message
    case Snapshot(device, endpoints) =>
      map k | k in view.Keys + (set e | e in endpoints :: (device, e)) && (k.0 == device ==> k.1 in endpoints) ::
        if k.0 == device then endpoints[k.1] else view[k]
    case Announced(key, info) => view[key := info]
    case Updated(key, info) => view[key := info]
    case Ended(key, info) => if key in view && view[key].runtime == info.runtime then view - {key} else view
    case Routed(_) => view
  }

  function FoldAll(inbox: seq<Message>): View {
    if |inbox| == 0 then map[] else Fold(FoldAll(inbox[..|inbox| - 1]), inbox[|inbox| - 1])
  }

  /** What `owner` is entitled to see at `key`. */
  ghost function Entitled(r: Registry, owner: string, key: Key): Option<Info> {
    if Authorises(HostAt(r, key), owner) then Some(r.endpoints[key].info) else None
  }

  ghost function Seen(view: View, key: Key): Option<Info> {
    if key in view then Some(view[key]) else None
  }

  /** Every subscribed connection sees, of the devices it subscribes to, exactly what its owner is entitled to. */
  ghost predicate ViewsRight(r: Registry) {
    forall o, c: nat, key: Key :: Connection(r.owners, o, c) && c in r.inboxes && key.0 in r.owners[o][c] ==>
      Seen(FoldAll(r.inboxes[c]), key) == Entitled(r, o, key)
  }

  ghost predicate Sound(r: Registry) {
    IdsUnique(r) && NoEmptyOwner(r) && ViewsRight(r)
  }

  // ----- Deltas keep views right -----

  lemma {:induction false} FoldLast(inbox: seq<Message>, m: Message)
    ensures FoldAll(inbox + [m]) == Fold(FoldAll(inbox), m)
  {
    assert (inbox + [m])[..|inbox|] == inbox;
  }

  /** One change at `key`, told to a connection of an entitled or formerly entitled owner, updates its view. */
  lemma {:induction false} DeltaUpdatesView(view: View, key: Key, other: Key, previous: Option<Host>, current: Option<Host>, owner: string)
    requires LineFor(key, previous, current, owner).Some?
    requires Seen(view, key) == if Authorises(previous, owner) then Some(previous.value.info) else None
    ensures var after := Fold(view, LineFor(key, previous, current, owner).value);
            && Seen(after, key) == (if Authorises(current, owner) then Some(current.value.info) else None)
            && (other != key ==> Seen(after, other) == Seen(view, other))
  {
  }

  lemma {:induction false} NotifyKeepsView(before: Registry, after: Registry, key: Key, o: string, c: nat, other: Key)
    requires IdsUnique(after) && Connection(after.owners, o, c) && c in after.inboxes && c in before.inboxes
    requires other.0 in after.owners[o][c]
    requires after.inboxes[c] == before.inboxes[c] + NoticeFor(after.owners, key, HostAt(before, key), HostAt(after, key), c)
    requires forall k :: k != key ==> HostAt(after, k) == HostAt(before, k)
    requires forall k: Key :: k.0 in after.owners[o][c] ==> Seen(FoldAll(before.inboxes[c]), k) == Entitled(before, o, k)
    ensures Seen(FoldAll(after.inboxes[c]), other) == Entitled(after, o, other)
  {
    hide FoldAll, Fold;
    var inbox := before.inboxes[c];
    var line := LineFor(key, HostAt(before, key), HostAt(after, key), o);
    assert Seen(FoldAll(inbox), other) == Entitled(before, o, other);
    if key.0 in after.owners[o][c] && line.Some? {
      assert Seen(FoldAll(inbox), key) == Entitled(before, o, key);
      FoldLast(inbox, line.value);
      DeltaUpdatesView(FoldAll(inbox), key, other, HostAt(before, key), HostAt(after, key), o);
    } else {
      assert inbox + [] == inbox;
    }
  }

  // ----- The class -----

  ghost function MessagesTo(notes: seq<(nat, Message)>, c: nat): seq<Message> {
    if |notes| == 0 then []
    else
      var last := notes[|notes| - 1];
      MessagesTo(notes[..|notes| - 1], c) + if last.0 == c then [last.1] else []
  }

  /** The connections of `owner` among `conns` that subscribe to `device` are told `line`. */
  ghost predicate Listening(owners: map<string, Connections>, device: string, c: nat, o: string) {
    Connection(owners, o, c) && device in owners[o][c]
  }

  ghost predicate Told(notes: seq<(nat, Message)>, owners: map<string, Connections>, key: Key, previous: Option<Host>, current: Option<Host>) {
    && (forall i, j :: 0 <= i < j < |notes| ==> notes[i].0 != notes[j].0)
    && forall c: nat, m :: (c, m) in notes <==> exists o :: Listening(owners, key.0, c, o) && LineFor(key, previous, current, o) == Some(m)
  }

  lemma {:induction false} NoMessages(notes: seq<(nat, Message)>, c: nat)
    requires forall m :: (c, m) !in notes
    ensures MessagesTo(notes, c) == []
  {
    if |notes| > 0 {
      var front, last := notes[..|notes| - 1], notes[|notes| - 1];
      assert last in notes;
      NoMessages(front, c);
    }
  }

  lemma {:induction false} OneMessage(notes: seq<(nat, Message)>, c: nat, m: Message)
    requires (forall i, j :: 0 <= i < j < |notes| ==> notes[i].0 != notes[j].0) && (c, m) in notes
    ensures MessagesTo(notes, c) == [m]
  {
    var front, last := notes[..|notes| - 1], notes[|notes| - 1];
    if last.0 == c {
      var i :| 0 <= i < |notes| && notes[i] == (c, m);
      forall j | 0 <= j < |front|
        ensures front[j].0 != c
      {
        assert notes[j].0 != last.0;
      }
      NoMessages(front, c);
    } else {
      OneMessage(front, c, m);
    }
  }

  lemma {:induction false} ToldIsNoticed(owners: map<string, Connections>, notes: seq<(nat, Message)>, key: Key,
                                         previous: Option<Host>, current: Option<Host>, c: nat)
    requires forall o, p, x: nat :: Connection(owners, o, x) && Connection(owners, p, x) ==> o == p
    requires Told(notes, owners, key, previous, current)
    ensures MessagesTo(notes, c) == NoticeFor(owners, key, previous, current, c)
  {
    if o :| Listening(owners, key.0, c, o) && LineFor(key, previous, current, o).Some? {
      var m := LineFor(key, previous, current, o).value;
      assert (c, m) in notes;
      OneMessage(notes, c, m);
    } else {
      NoMessages(notes, c);
    }
  }

  lemma {:induction false} DevicesAppend(order: seq<string>, device: string)
    ensures DevicesIn(order + [device]) == DevicesIn(order) + {device}
  {
  }

  class Peers {
    var endpoints: map<Key, Host>
    var owners: map<string, Connections>
    var nextConnId: nat
    var inboxes: map<nat, seq<Message>>

    function State(): Registry
      reads this
    {
      Registry(endpoints, owners, nextConnId, inboxes)
    }

    constructor ()
      ensures State() == Empty
    {
      endpoints, owners, nextConnId, inboxes := map[], map[], 0, map[];
    }

    method AddHost(key: Key, info: Info, authorized: set<string>) returns (c: nat)
      requires IdsUnique(State())
      modifies this
      ensures c == old(nextConnId) && State() == RegisterHost(old(State()), key, info, authorized)
    {
      c := nextConnId;
      nextConnId := nextConnId + 1;
      inboxes := inboxes[c := []];
      var previous := HostAt(State(), key);
      endpoints := endpoints[key := Host(c, info, authorized)];
      Announce(key, previous, HostAt(State(), key));
    }

    method AddOwner(owner: string) returns (c: nat)
      modifies this
      ensures c == old(nextConnId) && State() == RegisterOwner(old(State()), owner)
    {
      c := nextConnId;
      nextConnId := nextConnId + 1;
      inboxes := inboxes[c := []];
      var connections: Connections := if owner in owners then owners[owner] else map[];
      connections := connections[c := {}];
      owners := owners[owner := connections];
    }

    method RemoveHost(key: Key, c: nat)
      requires IdsUnique(State())
      modifies this
      ensures State() == UnregisterHost(old(State()), key, c)
    {
      if !IsActiveHost(State(), key, c) {
        return;
      }
      var previous := endpoints[key];
      endpoints := endpoints - {key};
      Announce(key, Some(previous), None);
    }

    method RemoveOwner(owner: string, c: nat)
      modifies this
      ensures State() == UnregisterOwner(old(State()), owner, c)
    {
      if owner !in owners {
        return;
      }
      var connections := owners[owner] - {c};
      owners := if connections == map[] then owners - {owner} else owners[owner := connections];
    }

    method SubscribeEndpoints(owner: string, c: nat, devices: set<string>) returns (ok: bool, ghost order: seq<string>)
      modifies this
      ensures DevicesIn(order) == devices && |order| == |devices|
      ensures (State(), ok) == Subscribe(old(State()), owner, c, order)
    {
      var snapshots;
      snapshots, order := CollectSnapshots(owner, devices);
      if owner !in owners || c !in owners[owner] {
        return false, order;
      }
      var connections: Connections := owners[owner][c := devices];
      owners := owners[owner := connections];
      inboxes := inboxes[c := (if c in inboxes then inboxes[c] else []) + snapshots];
      return true, order;
    }

    method CollectSnapshots(owner: string, devices: set<string>) returns (snapshots: seq<Message>, ghost order: seq<string>)
      ensures DevicesIn(order) == devices && |order| == |devices|
      ensures snapshots == Snapshots(State(), owner, order)
    {
      snapshots, order := [], [];
      var left := devices;
      while left != {}
        invariant left <= devices && DevicesIn(order) == devices - left && |order| + |left| == |devices|
        invariant snapshots == Snapshots(State(), owner, order)
        decreases |left|
      {
        var device :| device in left;
        left := left - {device};
        snapshots := snapshots + [Snapshot(device, Visible(State(), owner, device))];
        DevicesAppend(order, device);
        assert (order + [device])[..|order|] == order;
        order := order + [device];
      }
    }

    method Update(key: Key, c: nat, metadata: Option<string>, authorized: Option<set<string>>) returns (ok: bool)
      requires IdsUnique(State())
      modifies this
      ensures (State(), ok) == UpdateHost(old(State()), key, c, metadata, authorized)
    {
      if !IsActiveHost(State(), key, c) {
        return false;
      }
      var previous := endpoints[key];
      var host := previous;
      if metadata.Some? {
        host := host.(info := host.info.(metadata := metadata.value));
      }
      if authorized.Some? {
        host := host.(owners := authorized.value);
      }
      endpoints := endpoints[key := host];
      Announce(key, Some(previous), Some(host));
      return true;
    }

    method Announce(key: Key, previous: Option<Host>, current: Option<Host>)
      requires forall o, p, c: nat :: Connection(owners, o, c) && Connection(owners, p, c) ==> o == p
      modifies `inboxes
      ensures State() == Notify(old(State()), key, previous, current)
    {
      var notes := VisibilityDelta(key, previous, current);
      SendNotifications(notes);
      forall c: nat | c in inboxes
        ensures MessagesTo(notes, c) == NoticeFor(owners, key, previous, current, c)
      {
        ToldIsNoticed(owners, notes, key, previous, current, c);
      }
    }

    method FromOwner(owner: string, c: nat, route: Route, open: set<nat>) returns (outcome: RouteOutcome)
      modifies this
      ensures (State(), outcome) == RouteFromOwner(old(State()), owner, c, route, open)
    {
      if route.target.Some? || route.source.Some? {
        return Unauthorized;
      }
      if owner !in owners || c !in owners[owner] {
        return Stale;
      }
      if route.key !in endpoints {
        return Unavailable;
      }
      var host := endpoints[route.key];
      if host.info.runtime != route.runtime {
        return Stale;
      }
      if route.purpose.ForSession? && owner !in host.owners {
        return Unauthorized;
      }
      if host.connId !in open {
        return Unavailable;
      }
      if host.connId in inboxes {
        inboxes := inboxes[host.connId := inboxes[host.connId] + [Routed(route.(source := Some(owner)))]];
      }
      return Delivered;
    }

    method FromHost(key: Key, c: nat, route: Route, open: set<nat>) returns (outcome: RouteOutcome)
      modifies this
      ensures (State(), outcome) == RouteFromHost(old(State()), key, c, route, open)
    {
      if route.target.None? {
        return Unauthorized;
      }
      if key !in endpoints {
        return Stale;
      }
      var host := endpoints[key];
      if host.connId != c || route.key != key || route.runtime != host.info.runtime || route.source.Some? {
        return Stale;
      }
      if route.purpose.ForSession? && route.target.value !in host.owners {
        return Unauthorized;
      }
      if route.target.value !in owners {
        return Unavailable;
      }
      var receivers: set<nat> := owners[route.target.value].Keys * open;
      SendAll(receivers, route);
      return if receivers != {} then Delivered else Unavailable;
    }

    method SendAll(receivers: set<nat>, route: Route)
      modifies this
      ensures State() == Broadcast(old(State()), receivers, Routed(route))
    {
      var left := receivers;
      while left != {}
        invariant left <= receivers && State() == old(State()).(inboxes := inboxes)
        invariant inboxes.Keys == old(inboxes).Keys
        invariant forall x: nat :: x in inboxes ==>
                    inboxes[x] == if x in receivers - left then old(inboxes)[x] + [Routed(route)] else old(inboxes)[x]
        decreases |left|
      {
        var x: nat :| x in left;
        left := left - {x};
        if x in inboxes {
          inboxes := inboxes[x := inboxes[x] + [Routed(route)]];
        }
      }
      assert inboxes == Broadcast(old(State()), receivers, Routed(route)).inboxes;
    }

    /** The connections of one owner that subscribe to the device, each with the line. */
    method NotesFor(device: string, owner: string, line: Message) returns (notes: seq<(nat, Message)>)
      requires owner in owners
      ensures forall i, j :: 0 <= i < j < |notes| ==> notes[i].0 != notes[j].0
      ensures forall c: nat, m :: (c, m) in notes <==> m == line && Listening(owners, device, c, owner)
    {
      notes := [];
      var left := owners[owner].Keys;
      while left != {}
        invariant left <= owners[owner].Keys
        invariant forall i, j :: 0 <= i < j < |notes| ==> notes[i].0 != notes[j].0
        invariant forall c: nat, m :: (c, m) in notes <==> m == line && c !in left && Listening(owners, device, c, owner)
        decreases |left|
      {
        var c: nat :| c in left;
        forall i | 0 <= i < |notes|
          ensures notes[i].0 != c
        {
          assert (notes[i].0, notes[i].1) in notes;
        }
        left := left - {c};
        if device in owners[owner][c] {
          notes := notes + [(c, line)];
        }
      }
    }

    method VisibilityDelta(key: Key, previous: Option<Host>, current: Option<Host>) returns (notes: seq<(nat, Message)>)
      requires forall o, p, c: nat :: Connection(owners, o, c) && Connection(owners, p, c) ==> o == p
      ensures Told(notes, owners, key, previous, current)
    {
      notes := [];
      var left := owners.Keys;
      while left != {}
        invariant left <= owners.Keys
        invariant forall i, j :: 0 <= i < j < |notes| ==> notes[i].0 != notes[j].0
        invariant forall c: nat, m :: (c, m) in notes <==>
                    exists o :: o !in left && Listening(owners, key.0, c, o) && LineFor(key, previous, current, o) == Some(m)
        decreases |left|
      {
        var owner :| owner in left;
        left := left - {owner};
        var line := LineFor(key, previous, current, owner);
        if line.Some? {
          var more := NotesFor(key.0, owner, line.value);
          notes := notes + more;
        }
      }
    }

    method SendNotifications(notes: seq<(nat, Message)>)
      modifies `inboxes
      ensures inboxes == map c | c in old(inboxes) :: old(inboxes)[c] + MessagesTo(notes, c)
    {
      for i := 0 to |notes|
        invariant inboxes.Keys == old(inboxes).Keys
        invariant forall c :: c in inboxes ==> inboxes[c] == old(inboxes)[c] + MessagesTo(notes[..i], c)
      {
        assert notes[..i + 1][..i] == notes[..i];
        var (c, m) := notes[i];
        if c in inboxes {
          inboxes := inboxes[c := inboxes[c] + [m]];
        }
      }
      assert notes[..|notes|] == notes;
    }
  }

  // ----- Every operation keeps the registry sound -----

  lemma {:induction false} ChangeKeepsViews(r: Registry, n: Registry, key: Key)
    requires Sound(r) && IdsUnique(n) && n.owners == r.owners
    requires forall k :: k != key ==> HostAt(n, k) == HostAt(r, k)
    requires forall c :: c in r.inboxes ==>
               c in n.inboxes && n.inboxes[c] == r.inboxes[c] + NoticeFor(n.owners, key, HostAt(r, key), HostAt(n, key), c)
    ensures Sound(n)
  {
    forall o, c: nat, other: Key | Connection(n.owners, o, c) && c in n.inboxes && other.0 in n.owners[o][c]
      ensures Seen(FoldAll(n.inboxes[c]), other) == Entitled(n, o, other)
    {
      assert Connection(r.owners, o, c);
      assert c < r.next;
      NotifyKeepsView(r, n, key, o, c, other);
    }
  }

  lemma {:induction false} RegisterHostIds(r: Registry, key: Key, info: Info, owners: set<string>)
    requires IdsUnique(r)
    ensures IdsUnique(RegisterHost(r, key, info, owners)) && r.next !in r.inboxes
  {
    hide NoticeFor;
  }

  lemma {:induction false} RegisterHostSound(r: Registry, key: Key, info: Info, owners: set<string>)
    requires Sound(r)
    ensures Sound(RegisterHost(r, key, info, owners))
  {
    hide NoticeFor, ViewsRight, Entitled, IdsUnique, NoEmptyOwner, FoldAll;
    var n := RegisterHost(r, key, info, owners);
    RegisterHostIds(r, key, info, owners);
    ChangeKeepsViews(r, n, key);
  }

  lemma {:induction false} UnregisterHostSound(r: Registry, key: Key, c: nat)
    requires Sound(r)
    ensures Sound(UnregisterHost(r, key, c))
  {
    hide NoticeFor, ViewsRight, Entitled;
    if IsActiveHost(r, key, c) {
      ChangeKeepsViews(r, UnregisterHost(r, key, c), key);
    }
  }

  lemma {:induction false} UpdateHostSound(r: Registry, key: Key, c: nat, metadata: Option<string>, owners: Option<set<string>>)
    requires Sound(r)
    ensures Sound(UpdateHost(r, key, c, metadata, owners).0)
  {
    hide NoticeFor, ViewsRight, Entitled;
    if IsActiveHost(r, key, c) {
      ChangeKeepsViews(r, UpdateHost(r, key, c, metadata, owners).0, key);
    }
  }

  /** A connection of `n` that already was one of `r`, with the same subscriptions and the same inbox. */
  ghost predicate SameConnection(r: Registry, n: Registry, o: string, c: nat) {
    && Connection(n.owners, o, c) && Connection(r.owners, o, c) && n.owners[o][c] == r.owners[o][c]
    && c in r.inboxes && c in n.inboxes && n.inboxes[c] == r.inboxes[c]
  }

  lemma {:induction false} ViewsUnmoved(r: Registry, n: Registry)
    requires ViewsRight(r) && n.endpoints == r.endpoints
    requires forall o, c: nat :: Connection(n.owners, o, c) && n.owners[o][c] != {} ==> SameConnection(r, n, o, c)
    ensures ViewsRight(n)
  {
    hide FoldAll;
    forall o, c: nat, key: Key | Connection(n.owners, o, c) && c in n.inboxes && key.0 in n.owners[o][c]
      ensures Seen(FoldAll(n.inboxes[c]), key) == Entitled(n, o, key)
    {
      assert SameConnection(r, n, o, c);
      assert Seen(FoldAll(r.inboxes[c]), key) == Entitled(r, o, key);
    }
  }

  lemma {:induction false} RegisterOwnerIds(r: Registry, owner: string)
    requires IdsUnique(r) && NoEmptyOwner(r)
    ensures var n := RegisterOwner(r, owner);
            && IdsUnique(n) && NoEmptyOwner(n)
            && forall o, c: nat :: Connection(n.owners, o, c) && n.owners[o][c] != {} ==> SameConnection(r, n, o, c)
  {
    hide SameConnection;
    var n := RegisterOwner(r, owner);
    forall o, c: nat
      ensures Connection(n.owners, o, c) <==> Connection(r.owners, o, c) || (o == owner && c == r.next)
      ensures Connection(n.owners, o, c) && n.owners[o][c] != {} ==> SameConnection(r, n, o, c)
    {
      RegisteredConnection(r, owner, o, c);
    }
    assert r.next in n.owners[owner];
  }

  lemma {:induction false} RegisteredConnection(r: Registry, owner: string, o: string, c: nat)
    requires IdsUnique(r)
    ensures var n := RegisterOwner(r, owner);
            && (Connection(n.owners, o, c) <==> Connection(r.owners, o, c) || (o == owner && c == r.next))
            && (Connection(n.owners, o, c) && n.owners[o][c] != {} ==> SameConnection(r, n, o, c))
  {
  }

  lemma {:induction false} RegisterOwnerSound(r: Registry, owner: string)
    requires Sound(r)
    ensures Sound(RegisterOwner(r, owner))
  {
    hide ViewsRight, IdsUnique, NoEmptyOwner, SameConnection, Connection;
    RegisterOwnerIds(r, owner);
    ViewsUnmoved(r, RegisterOwner(r, owner));
  }

  lemma {:induction false} LeftConnections(r: Registry, owner: string, c: nat, o: string, x: nat)
    requires IdsUnique(r)
    ensures Connection(UnregisterOwner(r, owner, c).owners, o, x) <==> Connection(r.owners, o, x) && !(o == owner && x == c)
    ensures Connection(UnregisterOwner(r, owner, c).owners, o, x) ==> SameConnection(r, UnregisterOwner(r, owner, c), o, x)
  {
    if owner in r.owners {
      var left := r.owners[owner] - {c};
      assert x in left <==> x in r.owners[owner] && x != c;
    }
  }

  lemma {:induction false} UnregisterOwnerSound(r: Registry, owner: string, c: nat)
    requires Sound(r)
    ensures Sound(UnregisterOwner(r, owner, c))
  {
    var n := UnregisterOwner(r, owner, c);
    forall o, x: nat
      ensures Connection(n.owners, o, x) <==> Connection(r.owners, o, x) && !(o == owner && x == c)
      ensures Connection(n.owners, o, x) && n.owners[o][x] != {} ==> SameConnection(r, n, o, x)
    {
      LeftConnections(r, owner, c, o, x);
    }
    ViewsUnmoved(r, n);
  }

  lemma {:induction false} FoldSnapshots(r: Registry, owner: string, inbox: seq<Message>, order: seq<string>, key: Key)
    ensures Seen(FoldAll(inbox + Snapshots(r, owner, order)), key)
            == if key.0 in order then Entitled(r, owner, key) else Seen(FoldAll(inbox), key)
  {
    hide FoldAll, Fold, Visible, Seen, Entitled;
    if |order| == 0 {
      assert inbox + [] == inbox;
    } else {
      var front, last := order[..|order| - 1], order[|order| - 1];
      FoldSnapshots(r, owner, inbox, front, key);
      var before, m := inbox + Snapshots(r, owner, front), Snapshot(last, Visible(r, owner, last));
      assert inbox + Snapshots(r, owner, order) == before + [m];
      FoldLast(before, m);
      FoldSnapshot(r, owner, FoldAll(before), last, key);
      assert order == front + [last];
    }
  }

  lemma {:induction false} FoldSnapshot(r: Registry, owner: string, view: View, device: string, key: Key)
    ensures Seen(Fold(view, Snapshot(device, Visible(r, owner, device))), key)
            == if key.0 == device then Entitled(r, owner, key) else Seen(view, key)
  {
    assert key == (key.0, key.1);
    assert key.1 in Visible(r, owner, key.0) <==> key in r.endpoints && owner in r.endpoints[key].owners;
  }

  lemma {:induction false} SubscribedConnections(r: Registry, owner: string, c: nat, order: seq<string>, o: string, x: nat)
    requires IdsUnique(r) && Connection(r.owners, owner, c)
    ensures var n := Subscribe(r, owner, c, order).0;
            && (Connection(n.owners, o, x) <==> Connection(r.owners, o, x))
            && (Connection(n.owners, o, x) && x != c ==> SameConnection(r, n, o, x))
            && (Connection(n.owners, o, c) ==> o == owner && n.owners[o][c] == DevicesIn(order))
            && c in r.inboxes && c in n.inboxes && n.inboxes[c] == r.inboxes[c] + Snapshots(r, owner, order)
  {
    hide Snapshots;
    assert o != owner ==> !Connection(r.owners, o, c);
  }

  lemma {:induction false} SubscribedIds(r: Registry, owner: string, c: nat, order: seq<string>)
    requires IdsUnique(r) && NoEmptyOwner(r) && Connection(r.owners, owner, c)
    ensures IdsUnique(Subscribe(r, owner, c, order).0) && NoEmptyOwner(Subscribe(r, owner, c, order).0)
  {
    hide Snapshots;
    var n := Subscribe(r, owner, c, order).0;
    forall o, x: nat
      ensures Connection(n.owners, o, x) <==> Connection(r.owners, o, x)
    {
      SubscribedConnections(r, owner, c, order, o, x);
    }
    assert n.endpoints == r.endpoints && n.next == r.next;
    assert c in n.owners[owner];
  }

  lemma {:induction false} SubscribeSound(r: Registry, owner: string, c: nat, order: seq<string>)
    requires Sound(r)
    ensures Sound(Subscribe(r, owner, c, order).0)
  {
    hide ViewsRight, FoldAll, Snapshots;
    if Connection(r.owners, owner, c) {
      SubscribedIds(r, owner, c, order);
      SubscribedViews(r, owner, c, order);
    }
  }

  lemma {:induction false} SubscribedViews(r: Registry, owner: string, c: nat, order: seq<string>)
    requires Sound(r) && Connection(r.owners, owner, c)
    ensures ViewsRight(Subscribe(r, owner, c, order).0)
  {
    hide FoldAll, Snapshots, IdsUnique, NoEmptyOwner;
    var n := Subscribe(r, owner, c, order).0;
    forall o, x: nat, key: Key | Connection(n.owners, o, x) && x in n.inboxes && key.0 in n.owners[o][x]
      ensures Seen(FoldAll(n.inboxes[x]), key) == Entitled(n, o, key)
    {
      SubscribedConnections(r, owner, c, order, o, x);
      if x == c {
        FoldSnapshots(r, owner, r.inboxes[c], order, key);
      } else {
        assert SameConnection(r, n, o, x);
        assert Seen(FoldAll(r.inboxes[x]), key) == Entitled(r, o, key);
      }
    }
  }

  /** Routed messages leave every view as it is. */
  lemma {:induction false} RoutedKeeps(r: Registry, n: Registry, route: Route)
    requires Sound(r) && n == r.(inboxes := n.inboxes) && n.inboxes.Keys == r.inboxes.Keys
    requires forall c :: c in r.inboxes ==> n.inboxes[c] == r.inboxes[c] || n.inboxes[c] == r.inboxes[c] + [Routed(route)]
    ensures Sound(n)
  {
    hide FoldAll;
    forall o, c: nat, key: Key | Connection(n.owners, o, c) && c in n.inboxes && key.0 in n.owners[o][c]
      ensures Seen(FoldAll(n.inboxes[c]), key) == Entitled(n, o, key)
    {
      FoldLast(r.inboxes[c], Routed(route));
      assert Seen(FoldAll(r.inboxes[c]), key) == Entitled(r, o, key);
    }
  }

  datatype Step =
    | HostRegisters(key: Key, info: Info, owners: set<string>)
    | OwnerRegisters(owner: string)
    | HostLeaves(key: Key, c: nat)
    | OwnerLeaves(owner: string, c: nat)
    | OwnerSubscribes(owner: string, c: nat, order: seq<string>)
    | HostUpdates(key: Key, c: nat, metadata: Option<string>, newOwners: Option<set<string>>)
    | OwnerRoutes(owner: string, c: nat, route: Route, open: set<nat>)
    | HostRoutes(key: Key, c: nat, route: Route, open: set<nat>)

  ghost function Take(r: Registry, step: Step): Registry {
    match step
    case HostRegisters(key, info, owners) => RegisterHost(r, key, info, owners)
    case OwnerRegisters(owner) => RegisterOwner(r, owner)
    case HostLeaves(key, c) => UnregisterHost(r, key, c)
    case OwnerLeaves(owner, c) => UnregisterOwner(r, owner, c)
    case OwnerSubscribes(owner, c, order) => Subscribe(r, owner, c, order).0
    case HostUpdates(key, c, metadata, owners) => UpdateHost(r, key, c, metadata, owners).0
    case OwnerRoutes(owner, c, route, open) => RouteFromOwner(r, owner, c, route, open).0
    case HostRoutes(key, c, route, open) => RouteFromHost(r, key, c, route, open).0
  }

  lemma {:induction false} OwnerRouteSound(r: Registry, owner: string, c: nat, route: Route, open: set<nat>)
    requires Sound(r)
    ensures Sound(RouteFromOwner(r, owner, c, route, open).0)
  {
    hide Sound;
    RoutedKeeps(r, RouteFromOwner(r, owner, c, route, open).0, route.(source := Some(owner)));
  }

  lemma {:induction false} HostRouteSound(r: Registry, key: Key, c: nat, route: Route, open: set<nat>)
    requires Sound(r)
    ensures Sound(RouteFromHost(r, key, c, route, open).0)
  {
    hide Sound;
    RoutedKeeps(r, RouteFromHost(r, key, c, route, open).0, route);
  }

  lemma {:induction false} TakeSound(r: Registry, step: Step)
    requires Sound(r)
    ensures Sound(Take(r, step))
  {
    hide Sound, RegisterHost, RegisterOwner, UnregisterHost, UnregisterOwner, Subscribe, UpdateHost, RouteFromOwner, RouteFromHost;
    match step
    case HostRegisters(key, info, owners) => RegisterHostSound(r, key, info, owners);
    case OwnerRegisters(owner) => RegisterOwnerSound(r, owner);
    case HostLeaves(key, c) => UnregisterHostSound(r, key, c);
    case OwnerLeaves(owner, c) => UnregisterOwnerSound(r, owner, c);
    case OwnerSubscribes(owner, c, order) => SubscribeSound(r, owner, c, order);
    case HostUpdates(key, c, metadata, owners) => UpdateHostSound(r, key, c, metadata, owners);
    case OwnerRoutes(owner, c, route, open) => OwnerRouteSound(r, owner, c, route, open);
    case HostRoutes(key, c, route, open) => HostRouteSound(r, key, c, route, open);
  }

  datatype Run = Nothing | Then(before: Run, step: Step)

  ghost function After(run: Run): Registry {
    match run
    case Nothing => Empty
    case Then(before, step) => Take(After(before), step)
  }

  lemma {:induction false} AlwaysSound(run: Run)
    ensures Sound(After(run))
  {
    hide Take;
    if run.Then? {
      AlwaysSound(run.before);
      TakeSound(After(run.before), run.step);
    }
  }

  /** After any run: what a connection has received, folded, is what its owner may see of every device it subscribes to. */
  lemma {:induction false} FoldIsEntitledView(run: Run, owner: string, c: nat, key: Key)
    requires Connection(After(run).owners, owner, c) && key.0 in After(run).owners[owner][c]
    ensures c in After(run).inboxes && Seen(FoldAll(After(run).inboxes[c]), key) == Entitled(After(run), owner, key)
  {
    hide After, FoldAll;
    AlwaysSound(run);
  }

  // ----- Replaced hosts stay replaced -----

  lemma {:induction false} NotReactivated(r: Registry, step: Step, key: Key, c: nat)
    requires Sound(r) && c < r.next && !IsActiveHost(r, key, c)
    ensures c < Take(r, step).next && !IsActiveHost(Take(r, step), key, c)
  {
    hide NoticeFor, ViewsRight, Snapshots, Visible, NoEmptyOwner;
  }

  ghost function Continue(run: Run, steps: seq<Step>): Run {
    if |steps| == 0 then run else Then(Continue(run, steps[..|steps| - 1]), steps[|steps| - 1])
  }

  /** A host connection that has been replaced or unregistered can do nothing more, now or ever after. */
  lemma {:induction false} ReplacedForGood(run: Run, steps: seq<Step>, key: Key, c: nat, route: Route, open: set<nat>,
                                           metadata: Option<string>, owners: Option<set<string>>)
    requires c < After(run).next && !IsActiveHost(After(run), key, c)
    ensures var r := After(Continue(run, steps));
            && c < r.next && !IsActiveHost(r, key, c)
            && UpdateHost(r, key, c, metadata, owners) == (r, false)
            && UnregisterHost(r, key, c) == r
            && RouteFromHost(r, key, c, route, open).0 == r
            && RouteFromHost(r, key, c, route, open).1 in {Stale, Unauthorized}
  {
    hide Take, Sound;
    if |steps| > 0 {
      var front := steps[..|steps| - 1];
      ReplacedForGood(run, front, key, c, route, open, metadata, owners);
      AlwaysSound(Continue(run, front));
      NotReactivated(After(Continue(run, front)), steps[|steps| - 1], key, c);
    }
  }
}
