/**
 What the browser shows of messages under way: pending requests, requests whose fate is unknown, and the formal events
 they turn into. No request is shown twice, none beside its formal event, and none is lost silently.
 */
module BrowserTimeline {
  import opened Bytes
  import opened Timeline

  datatype Place = Place(device: string, endpoint: string, runtime: string, scope: Scope)

  datatype PendingDelivery = AsPending | AsReceived | AsAccepted | AsCommitted | AsUnknown

  datatype Pending = Pending(id: string, requestId: string, text: string, cancelable: bool, createdAt: int,
                             delivery: PendingDelivery, messageId: Option<string>)

  /** A `Map` of pending requests, in insertion order. */
  type PendingMap = seq<Pending>

  datatype QueueItem = QueueItem(id: string, text: string, mine: bool, createdAt: int)

  datatype View = View(
    place: Option<Place>,
    events: map<string, TimelineEvent>,
    pending: PendingMap,
    unknown: seq<Pending>,
    queued: set<string>,
    snapshotId: Option<string>,
    snapshotItems: seq<QueueItem>)

  const Blank := View(None, map[], [], [], {}, None, [])

  // ----- Ordered maps -----

  function Find(items: seq<Pending>, id: string): (p: Option<Pending>)
    ensures p.Some? ==> p.value in items && p.value.id == id
    ensures p.None? ==> forall x :: x in items ==> x.id != id
  {
    if |items| == 0 then None
    else if items[|items| - 1].id == id then Some(items[|items| - 1])
    else Find(items[..|items| - 1], id)
  }

  /** The first item with this request id. */
  function FindRequest(items: seq<Pending>, requestId: string): (p: Option<Pending>)
    ensures p.Some? ==> p.value in items && p.value.requestId == requestId
  {
    if |items| == 0 then None
    else if items[0].requestId == requestId then Some(items[0])
    else FindRequest(items[1..], requestId)
  }

  /** Setting an existing key keeps its place; a new key goes last. */
  function Put(items: PendingMap, p: Pending): PendingMap {
    if |items| == 0 then [p]
    else
      var last := items[|items| - 1];
      if last.id == p.id then items[|items| - 1 := p] else Put(items[..|items| - 1], p) + [last]
  }

  function Delete(items: seq<Pending>, id: string): seq<Pending> {
    if |items| == 0 then []
    else
      var last := items[|items| - 1];
      Delete(items[..|items| - 1], id) + if last.id == id then [] else [last]
  }

  function DeleteAll(items: seq<Pending>, ids: set<string>): seq<Pending> {
    if |items| == 0 then []
    else
      var last := items[|items| - 1];
      DeleteAll(items[..|items| - 1], ids) + if last.id in ids then [] else [last]
  }

  function IdsOfMessage(items: seq<Pending>, messageId: string): set<string> {
    set p | p in items && p.messageId == Some(messageId) :: p.id
  }

  function AllUnknown(items: seq<Pending>): seq<Pending> {
    if |items| == 0 then [] else AllUnknown(items[..|items| - 1]) + [items[|items| - 1].(delivery := AsUnknown)]
  }

  function PutItem(items: seq<QueueItem>, q: QueueItem): seq<QueueItem> {
    if |items| == 0 then [q]
    else
      var last := items[|items| - 1];
      if last.id == q.id then items[|items| - 1 := q] else PutItem(items[..|items| - 1], q) + [last]
  }

  function PutItems(items: seq<QueueItem>, more: seq<QueueItem>): seq<QueueItem> {
    if |more| == 0 then items else PutItem(PutItems(items, more[..|more| - 1]), more[|more| - 1])
  }

  function ItemIds(items: seq<QueueItem>): set<string> { set q | q in items :: q.id }

  // ----- Operations -----

  predicate InPlace(v: View, scope: Scope) { v.place.Some? && v.place.value.scope == scope }

  /** Pending requests become unknown; the queue snapshot is dropped. */
  function ClearTransient(v: View): View {
    v.(unknown := v.unknown + AllUnknown(v.pending), pending := [], queued := {}, snapshotId := None, snapshotItems := [])
  }

  function SetScope(v: View, place: Place): View {
    if v.place == Some(place) then v else ClearTransient(v).(events := map[], place := Some(place))
  }

  function InvalidateScope(v: View): View { ClearTransient(v).(events := map[], place := None) }

  function ClearAll(v: View): View { v.(place := None, events := map[], pending := [], unknown := []) }

  /** `id` and `requestId` are drawn anew; `sendable` says that the text or an image is there and not too much. */
  function SendUser(v: View, id: string, requestId: string, text: string, now: int, sendable: bool): View {
    if v.place.None? || !sendable then v
    else v.(pending := Put(v.pending, Pending(id, requestId, text, false, now, AsPending, None)))
  }

  function MoveToUnknown(v: View, p: Pending): View {
    v.(pending := Delete(v.pending, p.id), unknown := v.unknown + [p.(delivery := AsUnknown)])
  }

  function MarkUnknown(v: View, id: string): View {
    match Find(v.pending, id)
    case None => v
    case Some(p) => MoveToUnknown(v, p)
  }

  function RetryUnknown(v: View, id: string, requestId: string): View {
    match Find(v.unknown, id)
    case None => v
    case Some(p) =>
      if v.place.None? then v
      else v.(unknown := Delete(v.unknown, id), pending := Put(v.pending, p.(requestId := requestId, delivery := AsPending)))
  }

  predicate IsUserEvent(e: TimelineEvent, messageId: string) { e.detail.User? && e.detail.messageId == messageId }

  /** The formal event of a message is there. */
  predicate Formal(v: View, messageId: string) {
    exists id :: id in v.events && IsUserEvent(v.events[id], messageId)
  }

  function Reconcile(v: View, messageId: string): View {
    if !Formal(v, messageId) then v
    else
      var ids := IdsOfMessage(v.pending + v.unknown, messageId);
      v.(pending := DeleteAll(v.pending, ids), unknown := DeleteAll(v.unknown, ids))
  }

  function CommitEvent(v: View, e: TimelineEvent): View {
    if e.id in v.events && v.events[e.id] != e then v
    else
      var next := v.(events := v.events[e.id := e]);
      if e.detail.User? then Reconcile(next, e.detail.messageId) else next
  }

  function CommitEvents(v: View, events: seq<TimelineEvent>): View {
    if |events| == 0 then v
    else
      var before, last := CommitEvents(v, events[..|events| - 1]), events[|events| - 1];
      if v.place.None? || InPlace(v, Scope(last.session, last.generation)) then CommitEvent(before, last) else before
  }

  function ReplaceHistory(v: View, events: seq<TimelineEvent>): View { CommitEvents(v.(events := map[]), events) }

  /** A live event counts only in its scope. */
  function ReceiveEvent(v: View, e: TimelineEvent): View {
    if InPlace(v, Scope(e.session, e.generation)) then CommitEvent(v, e) else v
  }

  function ReceiveStatus(v: View, scope: Scope, id: string, delivery: PendingDelivery, messageId: Option<string>): View {
    if !InPlace(v, scope) then v
    else
      match Find(v.pending, id)
      case None => v
      case Some(p) =>
        var named := messageId.Some? && messageId.value != "";
        var updated := p.(delivery := delivery, messageId := if named then messageId else p.messageId);
        var noted := v.(pending := Put(v.pending, updated));
        var settled := if named then Reconcile(noted, messageId.value) else noted;
        if delivery.AsUnknown? && Find(settled.pending, id).Some? then
          var moved := settled.(pending := Delete(settled.pending, id), unknown := settled.unknown + [updated]);
          if updated.messageId.Some? then Reconcile(moved, updated.messageId.value) else moved
        else settled
  }

  function ReceiveStarted(v: View, scope: Scope, requestId: string, messageId: string): View {
    if !InPlace(v, scope) then v
    else
      match FindRequest(v.pending, requestId)
      case None => v
      case Some(p) => Reconcile(v.(pending := Put(v.pending, p.(delivery := AsAccepted, messageId := Some(messageId)))), messageId)
  }

  function ReceiveError(v: View, requestId: string): View {
    match FindRequest(v.pending, requestId)
    case None => v
    case Some(p) => MoveToUnknown(v, p)
  }

  /** Requests that were queued, are queued no more and have no message yet are dropped. */
  function DropUnqueued(items: PendingMap, queued: set<string>, next: set<string>): PendingMap {
    if |items| == 0 then []
    else
      var last := items[|items| - 1];
      DropUnqueued(items[..|items| - 1], queued, next)
      + if last.id in queued && last.id !in next && last.messageId.None? then [] else [last]
  }

  function TakeQueued(v: View, q: QueueItem): View {
    match Find(v.pending, q.id)
    case Some(p) => v.(pending := Put(v.pending, p.(text := q.text, cancelable := q.mine, delivery := AsAccepted)))
    case None =>
      v.(unknown := Delete(v.unknown, q.id), pending := Put(v.pending, Pending(q.id, q.id, q.text, q.mine, q.createdAt, AsAccepted, None)))
  }

  function TakeAllQueued(v: View, items: seq<QueueItem>): View {
    if |items| == 0 then v else TakeQueued(TakeAllQueued(v, items[..|items| - 1]), items[|items| - 1])
  }

  function GatherQueue(v: View, snapshotId: string, chunk: nat, items: seq<QueueItem>): View {
    var held := if v.snapshotId != Some(snapshotId) || chunk == 0 then [] else v.snapshotItems;
    v.(snapshotId := Some(snapshotId), snapshotItems := PutItems(held, items))
  }

  function ReceiveQueue(v: View, scope: Scope, snapshotId: string, chunk: nat, items: seq<QueueItem>, final: bool): View {
    if !InPlace(v, scope) then v
    else
      var gathered := GatherQueue(v, snapshotId, chunk, items);
      if !final then gathered
      else
        var next := ItemIds(gathered.snapshotItems);
        var dropped := gathered.(pending := DropUnqueued(v.pending, v.queued, next));
        TakeAllQueued(dropped, gathered.snapshotItems).(queued := next, snapshotItems := [], snapshotId := None)
  }

  class Runtime {
    var place: Option<Place>
    var events: map<string, TimelineEvent>
    var pending: PendingMap
    var unknown: seq<Pending>
    var queuedIds: set<string>
    var queuedSnapshotId: Option<string>
    var queuedSnapshotItems: seq<QueueItem>

    function State(): View
      reads this
    {
      View(place, events, pending, unknown, queuedIds, queuedSnapshotId, queuedSnapshotItems)
    }

    constructor ()
      ensures State() == Blank
    {
      place, events, pending, unknown := None, map[], [], [];
      queuedIds, queuedSnapshotId, queuedSnapshotItems := {}, None, [];
    }

    method DropTransient()
      modifies this
      ensures State() == ClearTransient(old(State()))
    {
      queuedIds, queuedSnapshotId, queuedSnapshotItems := {}, None, [];
      var moved := [];
      for i := 0 to |pending|
        invariant moved == AllUnknown(pending[..i])
        invariant State() == old(State()).(queued := {}, snapshotId := None, snapshotItems := [])
      {
        assert pending[..i + 1][..i] == pending[..i];
        moved := moved + [pending[i].(delivery := AsUnknown)];
      }
      assert pending[..|pending|] == pending;
      unknown := unknown + moved;
      pending := [];
    }

    method Enter(next: Place)
      modifies this
      ensures State() == SetScope(old(State()), next)
    {
      if place != Some(next) {
        DropTransient();
        events := map[];
        place := Some(next);
      }
    }

    method Invalidate()
      modifies this
      ensures State() == InvalidateScope(old(State()))
    {
      DropTransient();
      events := map[];
      place := None;
    }

    method Clear()
      modifies this
      ensures State() == ClearAll(old(State()))
    {
      place, events, pending, unknown := None, map[], [], [];
    }

    method Send(id: string, requestId: string, text: string, now: int, sendable: bool) returns (sent: bool)
      modifies this
      ensures State() == SendUser(old(State()), id, requestId, text, now, sendable) && sent == (old(place).Some? && sendable)
    {
      if place.None? || !sendable {
        return false;
      }
      pending := Put(pending, Pending(id, requestId, text, false, now, AsPending, None));
      return true;
    }

    method MarkUnknownDelivery(id: string)
      modifies this
      ensures State() == MarkUnknown(old(State()), id)
    {
      var p := Find(pending, id);
      if p.Some? {
        pending := Delete(pending, id);
        unknown := unknown + [p.value.(delivery := AsUnknown)];
      }
    }

    method Retry(id: string, requestId: string) returns (sent: bool)
      modifies this
      ensures State() == RetryUnknown(old(State()), id, requestId)
      ensures sent == (old(place).Some? && Find(old(unknown), id).Some?)
    {
      var p := Find(unknown, id);
      if place.None? || p.None? {
        return false;
      }
      unknown := Delete(unknown, id);
      pending := Put(pending, p.value.(requestId := requestId, delivery := AsPending));
      return true;
    }

    method Settle(messageId: string)
      modifies this
      ensures State() == Reconcile(old(State()), messageId)
    {
      if Formal(State(), messageId) {
        var ids := IdsOfMessage(pending + unknown, messageId);
        pending := DeleteAll(pending, ids);
        unknown := DeleteAll(unknown, ids);
      }
    }

    method CommitParsed(e: TimelineEvent)
      modifies this
      ensures State() == CommitEvent(old(State()), e)
    {
      if e.id in events && events[e.id] != e {
        return;
      }
      events := events[e.id := e];
      if e.detail.User? {
        Settle(e.detail.messageId);
      }
    }

    method CommitAll(list: seq<TimelineEvent>)
      modifies this
      ensures State() == CommitEvents(old(State()), list)
    {
      ghost var start := State();
      for i := 0 to |list|
        invariant State() == CommitEvents(start, list[..i]) && place == start.place
      {
        assert list[..i + 1][..i] == list[..i];
        if place.None? || place.value.scope == Scope(list[i].session, list[i].generation) {
          CommitParsed(list[i]);
        }
      }
      assert list[..|list|] == list;
    }

    method ReplaceEvents(list: seq<TimelineEvent>)
      modifies this
      ensures State() == ReplaceHistory(old(State()), list)
    {
      events := map[];
      CommitAll(list);
    }

    method OnStatus(scope: Scope, id: string, delivery: PendingDelivery, messageId: Option<string>)
      modifies this
      ensures State() == ReceiveStatus(old(State()), scope, id, delivery, messageId)
    {
      hide Reconcile;
      if place.None? || place.value.scope != scope {
        return;
      }
      var found := Find(pending, id);
      if found.None? {
        return;
      }
      var p := found.value.(delivery := delivery);
      var named := messageId.Some? && messageId.value != "";
      if named {
        p := p.(messageId := messageId);
      }
      pending := Put(pending, p);
      if named {
        Settle(messageId.value);
      }
      if delivery.AsUnknown? && Find(pending, id).Some? {
        pending := Delete(pending, id);
        unknown := unknown + [p];
        if p.messageId.Some? {
          Settle(p.messageId.value);
        }
      }
    }

    method OnStarted(scope: Scope, requestId: string, messageId: string)
      modifies this
      ensures State() == ReceiveStarted(old(State()), scope, requestId, messageId)
    {
      if place.None? || place.value.scope != scope {
        return;
      }
      var found := FindRequest(pending, requestId);
      if found.Some? {
        pending := Put(pending, found.value.(delivery := AsAccepted, messageId := Some(messageId)));
        Settle(messageId);
      }
    }

    method OnError(requestId: string)
      modifies this
      ensures State() == ReceiveError(old(State()), requestId)
    {
      var found := FindRequest(pending, requestId);
      if found.Some? {
        pending := Delete(pending, found.value.id);
        unknown := unknown + [found.value.(delivery := AsUnknown)];
      }
    }

    method OnQueue(scope: Scope, snapshotId: string, chunk: nat, items: seq<QueueItem>, final: bool)
      modifies this
      ensures State() == ReceiveQueue(old(State()), scope, snapshotId, chunk, items, final)
    {
      if place.None? || place.value.scope != scope {
        return;
      }
      if queuedSnapshotId != Some(snapshotId) || chunk == 0 {
        queuedSnapshotId := Some(snapshotId);
        queuedSnapshotItems := [];
      }
      queuedSnapshotItems := PutItems(queuedSnapshotItems, items);
      if !final {
        return;
      }
      var next := ItemIds(queuedSnapshotItems);
      pending := DropUnqueued(pending, queuedIds, next);
      TakeItems();
      queuedIds := next;
      queuedSnapshotItems := [];
      queuedSnapshotId := None;
    }

    method TakeItems()
      modifies this
      ensures State() == TakeAllQueued(old(State()), old(queuedSnapshotItems))
    {
      ghost var start := State();
      var items := queuedSnapshotItems;
      for i := 0 to |items|
        invariant State() == TakeAllQueued(start, items[..i])
      {
        assert items[..i + 1][..i] == items[..i];
        var existing := Find(pending, items[i].id);
        if existing.Some? {
          pending := Put(pending, existing.value.(text := items[i].text, cancelable := items[i].mine, delivery := AsAccepted));
        } else {
          unknown := Delete(unknown, items[i].id);
          pending := Put(pending, Pending(items[i].id, items[i].id, items[i].text, items[i].mine, items[i].createdAt, AsAccepted, None));
        }
      }
      assert items[..|items|] == items;
    }
  }

  // ----- What every view keeps -----

  ghost predicate Distinct(items: seq<Pending>) {
    forall i, j :: 0 <= i < j < |items| ==> items[i].id != items[j].id
  }

  ghost predicate Apart(a: seq<Pending>, b: seq<Pending>) {
    forall p, q :: p in a && q in b ==> p.id != q.id
  }

  ghost predicate Unsettled(v: View, p: Pending) {
    p.messageId.Some? ==> !Formal(v, p.messageId.value)
  }

  /** No request is shown twice, and none beside its formal event. */
  ghost predicate Clean(v: View) {
    && Distinct(v.pending) && Distinct(v.unknown) && Apart(v.pending, v.unknown)
    && forall p :: p in v.pending || p in v.unknown ==> Unsettled(v, p)
  }

  lemma {:induction false} AppendDistinct(items: seq<Pending>, p: Pending)
    requires Distinct(items) && forall x :: x in items ==> x.id != p.id
    ensures Distinct(items + [p])
  {
  }

  lemma {:induction false} FrontDistinct(items: seq<Pending>)
    requires |items| > 0 && Distinct(items)
    ensures Distinct(items[..|items| - 1]) && forall x :: x in items[..|items| - 1] ==> x.id != items[|items| - 1].id
  {
  }

  lemma {:induction false} PutIs(items: PendingMap, p: Pending)
    requires Distinct(items)
    ensures Distinct(Put(items, p)) && forall x :: x in Put(items, p) <==> x == p || (x in items && x.id != p.id)
    decreases |items|
  {
    if |items| > 0 {
      var front, last := items[..|items| - 1], items[|items| - 1];
      FrontDistinct(items);
      assert items == front + [last];
      if last.id == p.id {
        assert Put(items, p) == front + [p];
      } else {
        PutIs(front, p);
        AppendDistinct(Put(front, p), last);
      }
    }
  }

  lemma {:induction false} DeleteIs(items: seq<Pending>, id: string)
    requires Distinct(items)
    ensures Distinct(Delete(items, id)) && forall x :: x in Delete(items, id) <==> x in items && x.id != id
  {
    if |items| > 0 {
      var front, last := items[..|items| - 1], items[|items| - 1];
      FrontDistinct(items);
      assert items == front + [last];
      DeleteIs(front, id);
      AppendDistinct(Delete(front, id), last);
    }
  }

  lemma {:induction false} DeleteAllIs(items: seq<Pending>, ids: set<string>)
    requires Distinct(items)
    ensures Distinct(DeleteAll(items, ids)) && forall x :: x in DeleteAll(items, ids) <==> x in items && x.id !in ids
  {
    if |items| > 0 {
      var front, last := items[..|items| - 1], items[|items| - 1];
      FrontDistinct(items);
      assert items == front + [last];
      DeleteAllIs(front, ids);
      AppendDistinct(DeleteAll(front, ids), last);
    }
  }

  lemma {:induction false} DropUnqueuedIs(items: PendingMap, queued: set<string>, next: set<string>)
    requires Distinct(items)
    ensures Distinct(DropUnqueued(items, queued, next))
    ensures forall x :: x in DropUnqueued(items, queued, next) <==> x in items && !(x.id in queued && x.id !in next && x.messageId.None?)
  {
    if |items| > 0 {
      var front, last := items[..|items| - 1], items[|items| - 1];
      FrontDistinct(items);
      assert items == front + [last];
      DropUnqueuedIs(front, queued, next);
      AppendDistinct(DropUnqueued(front, queued, next), last);
    }
  }

  lemma {:induction false} AllUnknownIs(items: seq<Pending>)
    requires Distinct(items)
    ensures Distinct(AllUnknown(items))
    ensures forall x :: x in AllUnknown(items) <==> exists p :: p in items && x == p.(delivery := AsUnknown)
  {
    if |items| > 0 {
      var front, last := items[..|items| - 1], items[|items| - 1];
      FrontDistinct(items);
      assert items == front + [last];
      AllUnknownIs(front);
      AppendDistinct(AllUnknown(front), last.(delivery := AsUnknown));
    }
  }

  ghost predicate Separate(v: View) {
    Distinct(v.pending) && Distinct(v.unknown) && Apart(v.pending, v.unknown)
  }

  lemma {:induction false} SameItem(items: seq<Pending>, p: Pending, q: Pending)
    requires Distinct(items) && p in items && q in items && p.id == q.id
    ensures p == q
  {
    var i :| 0 <= i < |items| && items[i] == p;
    var j :| 0 <= j < |items| && items[j] == q;
    assert i == j;
  }

  /** Reconciling removes exactly the items of a message whose formal event is there. */
  lemma {:induction false} ReconcileIs(v: View, messageId: string)
    requires Separate(v)
    ensures var n := Reconcile(v, messageId);
            && Separate(n) && n == v.(pending := n.pending, unknown := n.unknown)
            && (forall x :: x in n.pending <==> x in v.pending && !(Formal(v, messageId) && x.messageId == Some(messageId)))
            && (forall x :: x in n.unknown <==> x in v.unknown && !(Formal(v, messageId) && x.messageId == Some(messageId)))
  {
    hide Distinct;
    if Formal(v, messageId) {
      var ids := IdsOfMessage(v.pending + v.unknown, messageId);
      DeleteAllIs(v.pending, ids);
      DeleteAllIs(v.unknown, ids);
      forall x | x in v.pending || x in v.unknown
        ensures x.id in ids <==> x.messageId == Some(messageId)
      {
        assert x in v.pending + v.unknown;
        if x.id in ids {
          var y :| y in v.pending + v.unknown && y.messageId == Some(messageId) && y.id == x.id;
          if x in v.pending && y in v.pending {
            SameItem(v.pending, x, y);
          } else if x in v.unknown && y in v.unknown {
            SameItem(v.unknown, x, y);
          }
        }
      }
    }
  }

  ghost predicate SameEvents(v: View, n: View) { n.events == v.events }

  lemma {:induction false} SameFormal(v: View, n: View, messageId: string)
    requires SameEvents(v, n)
    ensures Formal(v, messageId) <==> Formal(n, messageId)
  {
  }

  /** An item under `id` is shown. */
  ghost predicate Present(v: View, id: string) {
    exists p :: (p in v.pending || p in v.unknown) && p.id == id
  }

  /** All items of `v` are still there after a change of lists that keeps ids. */
  ghost predicate KeepsIds(v: View, n: View) {
    forall p :: p in v.pending || p in v.unknown ==> Present(n, p.id)
  }

  lemma {:induction false} ClearTransientClean(v: View)
    requires Separate(v)
    ensures Separate(ClearTransient(v)) && KeepsIds(v, ClearTransient(v))
    ensures forall p :: p in ClearTransient(v).unknown <==> p in v.unknown || exists x :: x in v.pending && p == x.(delivery := AsUnknown)
  {
    AllUnknownIs(v.pending);
    var n := ClearTransient(v);
    JoinDistinct(v.unknown, AllUnknown(v.pending));
    forall p | p in v.pending || p in v.unknown
      ensures Present(n, p.id)
    {
      if p in v.pending {
        assert p.(delivery := AsUnknown) in AllUnknown(v.pending);
        assert p.(delivery := AsUnknown) in n.unknown;
      } else {
        assert p in n.unknown;
      }
    }
  }

  lemma {:induction false} JoinDistinct(a: seq<Pending>, b: seq<Pending>)
    requires Distinct(a) && Distinct(b) && forall p, q :: p in a && q in b ==> p.id != q.id
    ensures Distinct(a + b)
  {
    forall i, j | 0 <= i < j < |a + b|
      ensures (a + b)[i].id != (a + b)[j].id
    {
      if i < |a| <= j {
        assert a[i] in a && b[j - |a|] in b;
      }
    }
  }

  lemma {:induction false} MoveClean(v: View, p: Pending, moved: Pending)
    requires Clean(v) && p in v.pending && moved.id == p.id && moved.messageId == p.messageId
    ensures var n := v.(pending := Delete(v.pending, p.id), unknown := v.unknown + [moved]);
            Clean(n) && KeepsIds(v, n)
  {
    hide Distinct;
    var n := v.(pending := Delete(v.pending, p.id), unknown := v.unknown + [moved]);
    DeleteIs(v.pending, p.id);
    AppendDistinct(v.unknown, moved);
    assert Unsettled(v, p);
    forall x | x in v.pending || x in v.unknown
      ensures Present(n, x.id)
    {
      if x in v.pending && x.id != p.id {
        assert x in n.pending;
      } else if x in v.unknown {
        assert x in n.unknown;
      } else {
        assert moved in n.unknown;
      }
    }
    assert forall x :: Unsettled(v, x) ==> Unsettled(n, x);
  }

  lemma {:induction false} PutClean(v: View, p: Pending)
    requires Clean(v) && Unsettled(v, p) && forall x :: x in v.unknown ==> x.id != p.id
    ensures Clean(v.(pending := Put(v.pending, p))) && KeepsIds(v, v.(pending := Put(v.pending, p)))
  {
    hide Distinct;
    var n := v.(pending := Put(v.pending, p));
    PutIs(v.pending, p);
    assert forall x :: Unsettled(v, x) ==> Unsettled(n, x);
    forall x | x in v.pending || x in v.unknown
      ensures Present(n, x.id)
    {
      assert p in n.pending;
      assert x in n.pending || x in n.unknown || x.id == p.id;
    }
  }

  /** Taking an item out of `unknown` and putting one with the same id into `pending`. */
  lemma {:induction false} ReviveClean(v: View, p: Pending)
    requires Clean(v) && Unsettled(v, p)
    ensures var n := v.(unknown := Delete(v.unknown, p.id), pending := Put(v.pending, p));
            Clean(n) && KeepsIds(v, n)
  {
    hide Distinct;
    var n := v.(unknown := Delete(v.unknown, p.id), pending := Put(v.pending, p));
    DeleteIs(v.unknown, p.id);
    PutIs(v.pending, p);
    assert forall x :: Unsettled(v, x) ==> Unsettled(n, x);
    forall x | x in v.pending || x in v.unknown
      ensures Present(n, x.id)
    {
      assert p in n.pending;
      assert x in n.pending || x in n.unknown || x.id == p.id;
    }
  }

  /** An item leaves only for its formal event. */
  ghost predicate SettledBy(n: View, items: seq<Pending>) {
    forall p :: p in items ==> p in n.pending || p in n.unknown || (p.messageId.Some? && Formal(n, p.messageId.value))
  }

  /** Reconciling a message makes a view clean that was clean but for this message. */
  lemma {:induction false} ReconcileClean(v: View, messageId: string)
    requires Separate(v)
    requires forall p :: (p in v.pending || p in v.unknown) && p.messageId != Some(messageId) ==> Unsettled(v, p)
    ensures Clean(Reconcile(v, messageId))
    ensures SettledBy(Reconcile(v, messageId), v.pending + v.unknown)
  {
    hide Formal, Distinct, Reconcile;
    var n := Reconcile(v, messageId);
    ReconcileIs(v, messageId);
    SameFormal(v, n, messageId);
    forall p | p in v.pending || p in v.unknown
      ensures Unsettled(v, p) <==> Unsettled(n, p)
      ensures p in n.pending || p in n.unknown || (p.messageId.Some? && Formal(n, p.messageId.value))
    {
      if p.messageId.Some? {
        SameFormal(v, n, p.messageId.value);
      }
      assert p in n.pending || p in n.unknown || p.messageId == Some(messageId);
    }
  }

  ghost predicate EventsGrow(v: View, n: View) {
    forall id :: id in v.events ==> id in n.events && n.events[id] == v.events[id]
  }

  lemma {:induction false} GrownFormal(v: View, n: View, messageId: string)
    requires EventsGrow(v, n) && Formal(v, messageId)
    ensures Formal(n, messageId)
  {
    var id :| id in v.events && IsUserEvent(v.events[id], messageId);
    assert IsUserEvent(n.events[id], messageId);
  }

  /** Which messages become formal by one event. */
  lemma {:induction false} NewFormal(v: View, e: TimelineEvent, messageId: string)
    requires e.id in v.events ==> v.events[e.id] == e
    ensures Formal(v.(events := v.events[e.id := e]), messageId) <==> Formal(v, messageId) || IsUserEvent(e, messageId)
  {
    var n := v.(events := v.events[e.id := e]);
    if id :| id in v.events && IsUserEvent(v.events[id], messageId) {
      assert IsUserEvent(n.events[id], messageId);
    }
    if IsUserEvent(e, messageId) {
      assert IsUserEvent(n.events[e.id], messageId);
    }
  }

  lemma {:induction false} CommitClean(v: View, e: TimelineEvent)
    requires Clean(v)
    ensures var n := CommitEvent(v, e); Clean(n) && SettledBy(n, v.pending + v.unknown) && EventsGrow(v, n)
  {
    hide Formal, Distinct, Reconcile;
    if !(e.id in v.events && v.events[e.id] != e) {
      var next := v.(events := v.events[e.id := e]);
      forall p | p in v.pending || p in v.unknown
        ensures Unsettled(next, p) || (e.detail.User? && p.messageId == Some(e.detail.messageId))
      {
        if p.messageId.Some? {
          NewFormal(v, e, p.messageId.value);
        }
      }
      if e.detail.User? {
        ReconcileClean(next, e.detail.messageId);
        ReconcileIs(next, e.detail.messageId);
      }
    }
  }

  lemma {:induction false} SettledThrough(v: View, m: View, n: View)
    requires SettledBy(m, v.pending + v.unknown) && SettledBy(n, m.pending + m.unknown) && EventsGrow(m, n)
    ensures SettledBy(n, v.pending + v.unknown)
  {
    hide Formal;
    forall p | p in v.pending + v.unknown
      ensures p in n.pending || p in n.unknown || (p.messageId.Some? && Formal(n, p.messageId.value))
    {
      if p.messageId.Some? && Formal(m, p.messageId.value) {
        GrownFormal(m, n, p.messageId.value);
      }
      assert p in m.pending || p in m.unknown ==> p in m.pending + m.unknown;
    }
  }

  lemma {:induction false} CommitsClean(v: View, events: seq<TimelineEvent>)
    requires Clean(v)
    ensures var n := CommitEvents(v, events); Clean(n) && SettledBy(n, v.pending + v.unknown) && EventsGrow(v, n)
  {
    hide Clean, CommitEvent;
    if |events| > 0 {
      var m := CommitEvents(v, events[..|events| - 1]);
      CommitsClean(v, events[..|events| - 1]);
      CommitClean(m, events[|events| - 1]);
      SettledThrough(v, m, CommitEvent(m, events[|events| - 1]));
    }
  }

  lemma {:induction false} NothingFormal(v: View)
    requires Separate(v)
    ensures Clean(v.(events := map[]))
  {
  }

  lemma {:induction false} StatusClean(v: View, scope: Scope, id: string, delivery: PendingDelivery, messageId: Option<string>)
    requires Clean(v) && InPlace(v, scope) && Find(v.pending, id).Some?
    ensures var n := ReceiveStatus(v, scope, id, delivery, messageId);
            && Clean(n) && n.events == v.events
            && forall p :: (p in v.pending || p in v.unknown) && !Present(n, p.id) ==>
                 p.id == id && messageId.Some? && Formal(n, messageId.value)
  {
    hide Clean, Put, Reconcile, Separate;
    var p := Find(v.pending, id).value;
    var named := messageId.Some? && messageId.value != "";
    var updated := p.(delivery := delivery, messageId := if named then messageId else p.messageId);
    var noted := v.(pending := Put(v.pending, updated));
    var settled := if named then Reconcile(noted, messageId.value) else noted;
    Noted(v, p, updated);
    SettledNoted(noted, updated, if named then messageId else None);
    StatusTail(settled, id, delivery, updated);
    LeftByStatus(v, noted, settled, ReceiveStatus(v, scope, id, delivery, messageId), updated, if named then messageId else None);
  }

  /** After one request was updated: everything else is as before, and clean. */
  lemma {:induction false} Noted(v: View, p: Pending, updated: Pending)
    requires Clean(v) && p in v.pending && updated.id == p.id
    ensures var noted := v.(pending := Put(v.pending, updated));
            && Separate(noted) && updated in noted.pending
            && (forall x :: (x in noted.pending || x in noted.unknown) ==> x == updated || Unsettled(noted, x))
            && (updated.messageId == p.messageId ==> Unsettled(noted, updated))
            && (forall x :: x in noted.pending && x.id == updated.id ==> x == updated)
            && (forall x :: x in v.pending || x in v.unknown ==> Unsettled(v, x) && (x.id == p.id || x in noted.pending || x in noted.unknown))
  {
    hide Distinct, Put;
    PutIs(v.pending, updated);
    var noted := v.(pending := Put(v.pending, updated));
    forall x | x in v.pending || x in v.unknown
      ensures Unsettled(v, x)
    {
    }
    assert forall x :: Unsettled(v, x) ==> Unsettled(noted, x);
  }

  lemma {:induction false} SettledNoted(noted: View, updated: Pending, messageId: Option<string>)
    requires Separate(noted) && forall x :: x in noted.pending || x in noted.unknown ==> x == updated || Unsettled(noted, x)
    requires if messageId.Some? then updated.messageId == messageId else Unsettled(noted, updated)
    requires forall x :: x in noted.pending && x.id == updated.id ==> x == updated
    ensures var settled := if messageId.Some? then Reconcile(noted, messageId.value) else noted;
            && Clean(settled) && settled.events == noted.events
            && (forall x :: x in settled.pending && x.id == updated.id ==> x == updated)
            && (messageId.Some? ==> SettledBy(settled, noted.pending + noted.unknown))
  {
    hide Distinct, Unsettled, Reconcile;
    if messageId.Some? {
      ReconcileClean(noted, messageId.value);
      ReconcileIs(noted, messageId.value);
    }
  }

  /** The rest of a status that reports an unknown delivery. */
  lemma {:induction false} StatusTail(settled: View, id: string, delivery: PendingDelivery, updated: Pending)
    requires Clean(settled) && (forall x :: x in settled.pending && x.id == id ==> x == updated) && updated.id == id
    ensures var moved := settled.(pending := Delete(settled.pending, id), unknown := settled.unknown + [updated]);
            var n := if delivery.AsUnknown? && Find(settled.pending, id).Some?
                     then if updated.messageId.Some? then Reconcile(moved, updated.messageId.value) else moved
                     else settled;
            Clean(n) && n.events == settled.events && forall p :: p in settled.pending || p in settled.unknown ==> Present(n, p.id)
  {
    hide Distinct, Formal, Unsettled;
    var moved := settled.(pending := Delete(settled.pending, id), unknown := settled.unknown + [updated]);
    forall p | p in settled.pending || p in settled.unknown
      ensures Present(settled, p.id)
    {
    }
    if delivery.AsUnknown? && Find(settled.pending, id).Some? {
      MoveClean(settled, updated, updated);
      if updated.messageId.Some? {
        ReconcileClean(moved, updated.messageId.value);
        NothingToReconcile(moved, updated.messageId.value);
      }
    }
  }

  lemma {:induction false} NothingToReconcile(v: View, messageId: string)
    requires Clean(v)
    ensures var n := Reconcile(v, messageId);
            n.events == v.events && forall p :: p in v.pending || p in v.unknown ==> p in n.pending || p in n.unknown
  {
    hide Reconcile, Formal, Distinct;
    ReconcileIs(v, messageId);
    assert forall p :: p in v.pending || p in v.unknown ==> Unsettled(v, p);
  }

  lemma {:induction false} LeftByStatus(v: View, noted: View, settled: View, n: View, updated: Pending, messageId: Option<string>)
    requires forall p :: p in v.pending || p in v.unknown ==>
               Unsettled(v, p) && (p.id == updated.id || p in noted.pending || p in noted.unknown)
    requires updated in noted.pending && (messageId.Some? ==> updated.messageId == messageId)
    requires if messageId.Some? then SettledBy(settled, noted.pending + noted.unknown) else settled == noted
    requires n.events == settled.events == v.events && forall p :: p in settled.pending || p in settled.unknown ==> Present(n, p.id)
    ensures forall p :: (p in v.pending || p in v.unknown) && !Present(n, p.id) ==>
              p.id == updated.id && messageId.Some? && Formal(n, messageId.value)
  {
    hide Formal, Distinct;
    forall p | (p in v.pending || p in v.unknown) && !Present(n, p.id)
      ensures p.id == updated.id && messageId.Some? && Formal(n, messageId.value)
    {
      var x := if p.id == updated.id then updated else p;
      assert x in noted.pending + noted.unknown;
      if x.messageId.Some? {
        SameFormal(settled, n, x.messageId.value);
        SameFormal(settled, v, x.messageId.value);
      }
    }
  }

  lemma {:induction false} StartedClean(v: View, p: Pending, messageId: string)
    requires Clean(v) && p in v.pending
    ensures var updated := p.(delivery := AsAccepted, messageId := Some(messageId));
            var n := Reconcile(v.(pending := Put(v.pending, updated)), messageId);
            && Clean(n) && n.events == v.events
            && forall q :: (q in v.pending || q in v.unknown) && !Present(n, q.id) ==> q == p && Formal(n, messageId)
  {
    hide Clean, Put, Reconcile, Separate;
    var updated := p.(delivery := AsAccepted, messageId := Some(messageId));
    var noted := v.(pending := Put(v.pending, updated));
    var n := Reconcile(noted, messageId);
    SameId(v, p);
    Noted(v, p, updated);
    SettledNoted(noted, updated, Some(messageId));
    forall x | x in n.pending || x in n.unknown
      ensures Present(n, x.id)
    {
    }
    LeftByStatus(v, noted, n, n, updated, Some(messageId));
  }

  lemma {:induction false} SameId(v: View, p: Pending)
    requires Clean(v) && p in v.pending
    ensures forall q :: (q in v.pending || q in v.unknown) && q.id == p.id ==> q == p
  {
    forall q | q in v.pending && q.id == p.id
      ensures q == p
    {
      SameItem(v.pending, q, p);
    }
  }

  lemma {:induction false} TakeQueuedClean(v: View, q: QueueItem)
    requires Clean(v)
    ensures Clean(TakeQueued(v, q)) && TakeQueued(v, q).events == v.events && KeepsIds(v, TakeQueued(v, q))
  {
    hide KeepsIds;
    match Find(v.pending, q.id)
    case Some(p) =>
      assert Unsettled(v, p);
      PutClean(v, p.(text := q.text, cancelable := q.mine, delivery := AsAccepted));
    case None => ReviveClean(v, Pending(q.id, q.id, q.text, q.mine, q.createdAt, AsAccepted, None));
  }

  lemma {:induction false} KeepsThrough(v: View, m: View, n: View)
    requires KeepsIds(v, m) && KeepsIds(m, n)
    ensures KeepsIds(v, n)
  {
  }

  lemma {:induction false} TakeAllQueuedClean(v: View, items: seq<QueueItem>)
    requires Clean(v)
    ensures Clean(TakeAllQueued(v, items)) && TakeAllQueued(v, items).events == v.events && KeepsIds(v, TakeAllQueued(v, items))
  {
    hide Clean, TakeQueued;
    if |items| == 0 {
      forall p | p in v.pending || p in v.unknown
        ensures Present(v, p.id)
      {
      }
    } else {
      var m := TakeAllQueued(v, items[..|items| - 1]);
      TakeAllQueuedClean(v, items[..|items| - 1]);
      TakeQueuedClean(m, items[|items| - 1]);
      KeepsThrough(v, m, TakeQueued(m, items[|items| - 1]));
    }
  }

  /** A request that was queued, is queued no more and has no message yet. */
  ghost predicate Unqueued(v: View, p: Pending, next: set<string>) {
    p in v.pending && p.id in v.queued && p.id !in next && p.messageId.None?
  }

  lemma {:induction false} QueueClean(v: View, snapshotId: string, chunk: nat, items: seq<QueueItem>)
    requires Clean(v)
    ensures var gathered := GatherQueue(v, snapshotId, chunk, items);
            var next := ItemIds(gathered.snapshotItems);
            var n := TakeAllQueued(gathered.(pending := DropUnqueued(v.pending, v.queued, next)), gathered.snapshotItems);
            && Clean(n) && n.events == v.events
            && forall p :: (p in v.pending || p in v.unknown) && !Present(n, p.id) ==> Unqueued(v, p, next)
  {
    hide Distinct, TakeAllQueued;
    var gathered := GatherQueue(v, snapshotId, chunk, items);
    var next := ItemIds(gathered.snapshotItems);
    var dropped := gathered.(pending := DropUnqueued(v.pending, v.queued, next));
    DropUnqueuedIs(v.pending, v.queued, next);
    assert forall x :: Unsettled(v, x) ==> Unsettled(dropped, x);
    assert Clean(dropped);
    TakeAllQueuedClean(dropped, gathered.snapshotItems);
  }

  // ----- Runs -----

  datatype Step =
    | Enters(place: Place)
    | Invalidates
    | Disconnects
    | Clears
    | Sends(id: string, requestId: string, text: string, now: int, sendable: bool)
    | MarksUnknown(id: string)
    | Retries(id: string, requestId: string)
    | EventArrives(event: TimelineEvent)
    | HistoryReplaced(events: seq<TimelineEvent>)
    | HistoryAdded(events: seq<TimelineEvent>)
    | StatusArrives(scope: Scope, id: string, delivery: PendingDelivery, messageId: Option<string>)
    | StartArrives(scope: Scope, requestId: string, message: string)
    | ErrorArrives(requestId: string)
    | QueueArrives(scope: Scope, snapshotId: string, chunk: nat, items: seq<QueueItem>, final: bool)

  ghost function Take(v: View, step: Step): View {
    match step
    case Enters(place) => SetScope(v, place)
    case Invalidates => InvalidateScope(v)
    case Disconnects => ClearTransient(v)
    case Clears => ClearAll(v)
    case Sends(id, requestId, text, now, sendable) => SendUser(v, id, requestId, text, now, sendable)
    case MarksUnknown(id) => MarkUnknown(v, id)
    case Retries(id, requestId) => RetryUnknown(v, id, requestId)
    case EventArrives(event) => ReceiveEvent(v, event)
    case HistoryReplaced(events) => ReplaceHistory(v, events)
    case HistoryAdded(events) => CommitEvents(v, events)
    case StatusArrives(scope, id, delivery, messageId) => ReceiveStatus(v, scope, id, delivery, messageId)
    case StartArrives(scope, requestId, message) => ReceiveStarted(v, scope, requestId, message)
    case ErrorArrives(requestId) => ReceiveError(v, requestId)
    case QueueArrives(scope, snapshotId, chunk, items, final) => ReceiveQueue(v, scope, snapshotId, chunk, items, final)
  }

  /** New requests get new ids. */
  ghost predicate Fresh(v: View, step: Step) {
    step.Sends? ==> !Present(v, step.id)
  }

  /** Why a request may be shown no longer: its formal event comes, a status or a start tells that its message has been
      formal before, a queue snapshot comes without it, or everything is cleared. */
  ghost predicate MayLeave(v: View, step: Step, p: Pending) {
    match step
    case Clears => true
    case EventArrives(_) => SettledIn(Take(v, step), p)
    case HistoryReplaced(_) => SettledIn(Take(v, step), p)
    case HistoryAdded(_) => SettledIn(Take(v, step), p)
    case StatusArrives(_, id, _, messageId) => p.id == id && messageId.Some? && Formal(Take(v, step), messageId.value)
    case StartArrives(_, requestId, message) => FindRequest(v.pending, requestId) == Some(p) && Formal(Take(v, step), message)
    case QueueArrives(_, snapshotId, chunk, items, final) =>
      final && Unqueued(v, p, ItemIds(GatherQueue(v, snapshotId, chunk, items).snapshotItems))
    case _ => false
  }

  ghost predicate SettledIn(n: View, p: Pending) { p.messageId.Some? && Formal(n, p.messageId.value) }

  ghost predicate LeavesForReason(v: View, step: Step) {
    forall p :: (p in v.pending || p in v.unknown) && !Present(Take(v, step), p.id) ==> MayLeave(v, step, p)
  }

  lemma {:induction false} KeptLeavesForReason(v: View, step: Step)
    requires KeepsIds(v, Take(v, step))
    ensures LeavesForReason(v, step)
  {
    hide Take, MayLeave;
  }

  lemma {:induction false} SettledLeavesForReason(v: View, step: Step)
    requires step.EventArrives? || step.HistoryAdded? || step.HistoryReplaced?
    requires SettledBy(Take(v, step), v.pending + v.unknown)
    ensures LeavesForReason(v, step)
  {
    hide Take, Formal;
    var n := Take(v, step);
    forall p | (p in v.pending || p in v.unknown) && !Present(n, p.id)
      ensures MayLeave(v, step, p)
    {
      assert p in v.pending + v.unknown;
      assert p.messageId.Some? && Formal(n, p.messageId.value);
    }
  }

  lemma {:induction false} SameKeeps(v: View)
    ensures KeepsIds(v, v)
  {
    forall p | p in v.pending || p in v.unknown
      ensures Present(v, p.id)
    {
    }
  }

  lemma {:induction false} ScopeStep(v: View, step: Step)
    requires Clean(v) && (step.Enters? || step.Invalidates? || step.Disconnects? || step.Clears?)
    ensures Clean(Take(v, step)) && LeavesForReason(v, step)
  {
    SameKeeps(v);
    ClearTransientClean(v);
    if step.Clears? {
      assert Clean(Take(v, step));
    } else {
      TransientKept(v, step);
      KeptLeavesForReason(v, step);
    }
  }

  lemma {:induction false} TransientKept(v: View, step: Step)
    requires Clean(v) && (step.Enters? || step.Invalidates? || step.Disconnects?)
    ensures Clean(Take(v, step)) && KeepsIds(v, Take(v, step))
  {
    hide Distinct, Apart;
    SameKeeps(v);
    ClearTransientClean(v);
    var n := ClearTransient(v);
    if step.Disconnects? {
      forall p | p in n.unknown
        ensures Unsettled(n, p)
      {
        if p !in v.unknown {
          var x :| x in v.pending && p == x.(delivery := AsUnknown);
          assert Unsettled(v, x);
        } else {
          assert Unsettled(v, p);
        }
      }
      assert n.pending == [];
    } else {
      NothingFormal(n);
    }
    forall p | p in v.pending || p in v.unknown
      ensures Present(Take(v, step), p.id)
    {
      assert Present(n, p.id) && Present(v, p.id);
    }
  }

  lemma {:induction false} RequestStep(v: View, step: Step)
    requires Clean(v) && Fresh(v, step) && (step.Sends? || step.MarksUnknown? || step.Retries? || step.ErrorArrives?)
    ensures Clean(Take(v, step)) && LeavesForReason(v, step)
  {
    hide Clean, KeepsIds;
    if step.Sends? {
      SendKeeps(v, step);
    } else if step.Retries? {
      RetryKeeps(v, step);
    } else {
      var p := if step.MarksUnknown? then Find(v.pending, step.id) else FindRequest(v.pending, step.requestId);
      if p.Some? {
        MoveClean(v, p.value, p.value.(delivery := AsUnknown));
      } else {
        SameKeeps(v);
      }
    }
    KeptLeavesForReason(v, step);
  }

  lemma {:induction false} SendKeeps(v: View, step: Step)
    requires Clean(v) && Fresh(v, step) && step.Sends?
    ensures Clean(Take(v, step)) && KeepsIds(v, Take(v, step))
  {
    hide Clean, KeepsIds, Put;
    var p := Pending(step.id, step.requestId, step.text, false, step.now, AsPending, None);
    SameKeeps(v);
    if v.place.Some? && step.sendable {
      PutClean(v, p);
    }
  }

  lemma {:induction false} RetryKeeps(v: View, step: Step)
    requires Clean(v) && step.Retries?
    ensures Clean(Take(v, step)) && KeepsIds(v, Take(v, step))
  {
    hide KeepsIds, Put;
    var p := Find(v.unknown, step.id);
    SameKeeps(v);
    if p.Some? && v.place.Some? {
      assert Unsettled(v, p.value);
      ReviveClean(v, p.value.(requestId := step.requestId, delivery := AsPending));
    }
  }

  lemma {:induction false} EventStep(v: View, step: Step)
    requires Clean(v) && (step.EventArrives? || step.HistoryAdded? || step.HistoryReplaced?)
    ensures Clean(Take(v, step)) && LeavesForReason(v, step)
  {
    hide CommitEvents, CommitEvent;
    if step.EventArrives? {
      CommitClean(v, step.event);
      assert SettledBy(v, v.pending + v.unknown);
    } else if step.HistoryAdded? {
      CommitsClean(v, step.events);
    } else {
      NothingFormal(v);
      CommitsClean(v.(events := map[]), step.events);
    }
    SettledLeavesForReason(v, step);
  }

  lemma {:induction false} StatusStep(v: View, step: Step)
    requires Clean(v) && (step.StatusArrives? || step.StartArrives?)
    ensures Clean(Take(v, step)) && LeavesForReason(v, step)
  {
    hide Clean, KeepsIds;
    SameKeeps(v);
    if step.StatusArrives? && InPlace(v, step.scope) && Find(v.pending, step.id).Some? {
      StatusClean(v, step.scope, step.id, step.delivery, step.messageId);
    } else if step.StartArrives? && InPlace(v, step.scope) && FindRequest(v.pending, step.requestId).Some? {
      StartedClean(v, FindRequest(v.pending, step.requestId).value, step.message);
    } else {
      KeptLeavesForReason(v, step);
    }
  }

  lemma {:induction false} QueueStep(v: View, step: Step)
    requires Clean(v) && step.QueueArrives?
    ensures Clean(Take(v, step)) && LeavesForReason(v, step)
  {
    hide Distinct, TakeAllQueued, DropUnqueued, PutItems;
    SameKeeps(v);
    if InPlace(v, step.scope) && step.final {
      QueueClean(v, step.snapshotId, step.chunk, step.items);
    } else {
      KeptLeavesForReason(v, step);
    }
  }

  lemma {:induction false} StepClean(v: View, step: Step)
    requires Clean(v) && Fresh(v, step)
    ensures Clean(Take(v, step)) && LeavesForReason(v, step)
  {
    hide Clean, Take, LeavesForReason;
    if step.Enters? || step.Invalidates? || step.Disconnects? || step.Clears? {
      ScopeStep(v, step);
    } else if step.Sends? || step.MarksUnknown? || step.Retries? || step.ErrorArrives? {
      RequestStep(v, step);
    } else if step.EventArrives? || step.HistoryAdded? || step.HistoryReplaced? {
      EventStep(v, step);
    } else if step.StatusArrives? || step.StartArrives? {
      StatusStep(v, step);
    } else {
      QueueStep(v, step);
    }
  }

  datatype Run = Nothing | Then(before: Run, step: Step)

  ghost function After(run: Run): View {
    match run
    case Nothing => Blank
    case Then(before, step) => Take(After(before), step)
  }

  ghost predicate FreshIds(run: Run) {
    run.Then? ==> FreshIds(run.before) && Fresh(After(run.before), run.step)
  }

  /**
   In every reachable view no request is shown twice and none beside its formal event. A request disappears only by a step
   about that very request: its formal event, a status or start that names it and a message already formal, a final queue
   snapshot without it; or because everything is cleared.
   */
  lemma {:induction false} AlwaysClean(run: Run)
    requires FreshIds(run)
    ensures Clean(After(run))
    ensures run.Then? ==> LeavesForReason(After(run.before), run.step)
  {
    hide Take, LeavesForReason;
    if run.Then? {
      AlwaysClean(run.before);
      StepClean(After(run.before), run.step);
    }
  }
}

