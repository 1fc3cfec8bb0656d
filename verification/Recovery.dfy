/**
 Recovery of the timeline from a session branch: a marker entry announces the message that follows it, messages
 without a marker are taken over under legacy ids, and system entries speak for themselves.
 */
module Recovery {
  import opened Bytes
  import opened Timeline

  // ----- Branches -----

  datatype Role = UserRole | AssistantRole | ToolRole

  datatype MarkerKind = ForUser(origin: Origin, delivery: Delivery, senderRef: Option<string>) | ForAssistant | ForTool

  datatype Marker = Marker(eventId: string, groupId: string, kind: MarkerKind)

  /** What a marker entry holds; data that the marker schema rejects may still name an event id. */
  datatype MarkerData = Parsed(marker: Marker) | Rejected(eventId: Option<string>)

  /** A message; `role` is `None` for the roles that the timeline does not show. */
  datatype Message = Message(
    role: Option<Role>,
    at: Option<nat>,
    content: string,
    failed: bool,
    interrupted: bool,
    callId: Option<string>,
    tool: Option<string>,
    args: string)

  datatype Content =
    | MarkerContent(data: MarkerData)
    | CustomContent(text: string)
    | MessageContent(message: Message)
    | CompactionContent(text: string)
    | BranchSummaryContent(text: string)
    | OtherContent

  /** `at` is `None` where the entry's time stamp does not parse. */
  datatype Entry = Entry(id: string, at: Option<nat>, content: Content)

  type Branch = seq<Entry>

  /** What turns entries into events: the current scope, the clock for entries without a time, the event schema. */
  datatype Session = Session(scope: Scope, now: nat, valid: TimelineEvent -> bool)

  datatype Correlation = Correlation(origin: Origin, delivery: Delivery, senderRef: Option<string>)

  const UNKNOWN := Correlation(OriginUnknown, DeliveryUnknown, None)

  // ----- Markers and their targets -----

  function BuildMarker(role: Role, eventId: string, groupId: string, c: Correlation): Marker {
    Marker(eventId, groupId,
           match role
           case UserRole => ForUser(c.origin, c.delivery, c.senderRef)
           case AssistantRole => ForAssistant
           case ToolRole => ForTool)
  }

  function CorrelationFromMarker(m: Marker): Correlation {
    match m.kind
    case ForUser(origin, delivery, senderRef) =>
      Correlation(origin, delivery, if senderRef == Some("") then None else senderRef)
    case _ => UNKNOWN
  }

  function RoleForMarker(m: Marker): Role {
    match m.kind
    case ForUser(_, _, _) => UserRole
    case ForAssistant => AssistantRole
    case ForTool => ToolRole
  }

  predicate IsMarker(e: Entry) { e.content.MarkerContent? }

  predicate IsMessage(e: Entry) { e.content.MessageContent? }

  predicate HasRole(e: Entry) { e.content.MessageContent? && e.content.message.role.Some? }

  /** The first entry from `from` on that is not a plain custom entry; `|branch|` if there is none. */
  function Stop(branch: Branch, from: nat): (stop: nat)
    requires from <= |branch|
    ensures from <= stop <= |branch|
    ensures stop < |branch| ==> !branch[stop].content.CustomContent?
    ensures forall k :: from <= k < stop ==> branch[k].content.CustomContent?
    decreases |branch| - from
  {
    if from < |branch| && branch[from].content.CustomContent? then Stop(branch, from + 1) else from
  }

  /** The message a marker at `i` announces, if it is there and has the announced role. */
  function Target(branch: Branch, i: nat, role: Role): Option<nat>
    requires i < |branch|
  {
    var stop := Stop(branch, i + 1);
    if stop < |branch| && IsMessage(branch[stop]) && branch[stop].content.message.role == Some(role) then Some(stop) else None
  }

  method ScanTargetAfterMarker(branch: Branch, markerIndex: nat, role: Role) returns (target: Option<nat>)
    requires markerIndex < |branch|
    ensures target == Target(branch, markerIndex, role)
  {
    var index := markerIndex + 1;
    while index < |branch|
      invariant markerIndex < index <= |branch|
      invariant Stop(branch, markerIndex + 1) == Stop(branch, index)
    {
      if IsMarker(branch[index]) {
        return None;
      }
      if !branch[index].content.CustomContent? {
        if !IsMessage(branch[index]) {
          return None;
        }
        return if branch[index].content.message.role == Some(role) then Some(index) else None;
      }
      index := index + 1;
    }
    return None;
  }

  /** The message claimed by the marker entry at `i`, if `i` is a valid marker with a target. */
  function Claimed(branch: Branch, i: nat): (target: Option<nat>)
    requires i < |branch|
    ensures target.Some? ==> i < target.value < |branch| && HasRole(branch[target.value])
  {
    if IsMarker(branch[i]) && branch[i].content.data.Parsed? then
      Target(branch, i, RoleForMarker(branch[i].content.data.marker))
    else None
  }

  lemma {:induction false} StopsBy(branch: Branch, from: nat, k: nat)
    requires from <= k < |branch| && !branch[k].content.CustomContent?
    ensures Stop(branch, from) <= k
    decreases k - from
  {
    if branch[from].content.CustomContent? {
      StopsBy(branch, from + 1, k);
    }
  }

  lemma {:induction false} ClaimsStopAtMarkers(branch: Branch, i: nat, j: nat)
    requires i < j < |branch| && Claimed(branch, i).Some? && IsMarker(branch[j])
    ensures Claimed(branch, i).value < j
  {
    StopsBy(branch, i + 1, j);
  }

  /** No two markers claim the same message. */
  lemma {:induction false} ClaimedOnce(branch: Branch, i: nat, j: nat)
    requires i < |branch| && j < |branch|
    requires Claimed(branch, i).Some? && Claimed(branch, i) == Claimed(branch, j)
    ensures i == j
  {
    if i < j {
      ClaimsStopAtMarkers(branch, i, j);
    } else if j < i {
      ClaimsStopAtMarkers(branch, j, i);
    }
  }

  lemma {:induction false} StopStays(branch: Branch, longer: Branch, from: nat)
    requires branch <= longer && from <= |branch| && Stop(branch, from) < |branch|
    ensures Stop(longer, from) == Stop(branch, from)
    decreases |branch| - from
  {
    if branch[from].content.CustomContent? {
      StopStays(branch, longer, from + 1);
    }
  }

  /** A found target is found in every extension of the branch. */
  lemma {:induction false} TargetStays(branch: Branch, longer: Branch, i: nat, role: Role)
    requires branch <= longer && i < |branch| && Target(branch, i, role).Some?
    ensures Target(longer, i, role) == Target(branch, i, role)
  {
    StopStays(branch, longer, i + 1);
  }

  // ----- Events -----

  function Timestamp(at: Option<nat>, messageAt: Option<nat>, now: nat): nat {
    if at.Some? then at.value else if messageAt.Some? then messageAt.value else now
  }

  function UserDetail(message: Message, marker: Marker, c: Correlation): Detail {
    User(marker.eventId, message.content, c.origin, c.delivery,
         if marker.kind.ForUser? && marker.kind.senderRef != Some("") then marker.kind.senderRef else None)
  }

  function ToDetail(message: Message, role: Role, marker: Marker, c: Correlation): Detail {
    match role
    case UserRole => UserDetail(message, marker, c)
    case AssistantRole => if message.failed then ProviderError(message.content) else Assistant(message.content, message.interrupted)
    case ToolRole =>
      Tool(if message.callId.Some? then message.callId.value else marker.eventId,
           if message.tool.Some? then message.tool.value else "unknown",
           message.args, message.content, message.failed)
  }

  function ToTimelineEvent(s: Session, e: Entry, marker: Marker, c: Correlation): TimelineEvent
    requires HasRole(e)
  {
    var m := e.content.message;
    TimelineEvent(marker.eventId, s.scope.session, s.scope.generation, Timestamp(e.at, m.at, s.now), Some(marker.groupId),
                  ToDetail(m, m.role.value, marker, c))
  }

  function LegacyId(id: string): string { "legacy:" + id }

  function LegacyMarker(s: Session, id: string, role: Role): Marker {
    BuildMarker(role, LegacyId(id), LegacyId(s.scope.session), UNKNOWN)
  }

  function LegacyEvent(s: Session, e: Entry): TimelineEvent
    requires HasRole(e)
  {
    var marker := LegacyMarker(s, e.id, e.content.message.role.value);
    ToTimelineEvent(s, e, marker, CorrelationFromMarker(marker))
  }

  function SystemDetail(content: Content): Option<Detail> {
    match content
    case CompactionContent(text) => Some(Compaction(text))
    case BranchSummaryContent(text) => Some(BranchSummary(text))
    case CustomContent(text) => Some(Custom(text))
    case _ => None
  }

  /** `None` for other entries, and where the schema rejects the event. */
  function ToSystemEvent(s: Session, e: Entry): Option<TimelineEvent> {
    match SystemDetail(e.content)
    case None => None
    case Some(detail) =>
      var event := TimelineEvent(e.id, s.scope.session, s.scope.generation, Timestamp(e.at, None, s.now), None, detail);
      if s.valid(event) then Some(event) else None
  }

  /** The event of the marker entry at `i`, if it claims a message. */
  function MarkerEvent(s: Session, branch: Branch, i: nat): Option<TimelineEvent>
    requires i < |branch|
  {
    match Claimed(branch, i)
    case None => None
    case Some(target) =>
      var marker := branch[i].content.data.marker;
      Some(ToTimelineEvent(s, branch[target], marker, CorrelationFromMarker(marker)))
  }

  // ----- What `recover` returns: three passes -----

  /** What a pass makes of the entry at a position. */
  type Pick = nat -> Option<TimelineEvent>

  function Collect(pick: Pick, n: nat): seq<TimelineEvent> {
    if n == 0 then [] else Collect(pick, n - 1) + if pick(n - 1).Some? then [pick(n - 1).value] else []
  }

  function AnnouncedAt(s: Session, branch: Branch): Pick {
    (i: nat) => if i < |branch| then MarkerEvent(s, branch, i) else None
  }

  predicate Unannounced(e: Entry, matched: set<string>) {
    HasRole(e) && e.id !in matched
  }

  function LegacyAt(s: Session, branch: Branch, matched: set<string>): Pick {
    (i: nat) => if i < |branch| && Unannounced(branch[i], matched) then Some(LegacyEvent(s, branch[i])) else None
  }

  function SystemAt(s: Session, branch: Branch): Pick {
    (i: nat) => if i < |branch| then ToSystemEvent(s, branch[i]) else None
  }

  /** The ids of the messages claimed by the first `n` entries. */
  function Matched(branch: Branch, n: nat): set<string>
    requires n <= |branch|
  {
    if n == 0 then {}
    else
      var target := Claimed(branch, n - 1);
      Matched(branch, n - 1) + if target.Some? then {branch[target.value].id} else {}
  }

  predicate AllValid(s: Session, events: seq<TimelineEvent>) {
    forall i :: 0 <= i < |events| ==> s.valid(events[i])
  }

  /** `None` where recovery throws: a message event that the schema rejects. */
  function Recover(s: Session, branch: Branch): Option<seq<TimelineEvent>> {
    var announced := Collect(AnnouncedAt(s, branch), |branch|);
    var legacy := Collect(LegacyAt(s, branch, Matched(branch, |branch|)), |branch|);
    if AllValid(s, announced) && AllValid(s, legacy) then Some(announced + legacy + Collect(SystemAt(s, branch), |branch|)) else None
  }

  method CollectAnnounced(s: Session, branch: Branch) returns (matched: set<string>, events: Option<seq<TimelineEvent>>)
    ensures events.Some? <==> AllValid(s, Collect(AnnouncedAt(s, branch), |branch|))
    ensures events.Some? ==> events.value == Collect(AnnouncedAt(s, branch), |branch|) && matched == Matched(branch, |branch|)
  {
    hide ToTimelineEvent, Target;
    matched := {};
    var recovered := [];
    for index := 0 to |branch|
      invariant matched == Matched(branch, index)
      invariant recovered == Collect(AnnouncedAt(s, branch), index) && AllValid(s, recovered)
    {
      if IsMarker(branch[index]) && branch[index].content.data.Parsed? {
        var marker := branch[index].content.data.marker;
        var target := ScanTargetAfterMarker(branch, index, RoleForMarker(marker));
        assert target == Claimed(branch, index);
        if target.Some? {
          matched := matched + {branch[target.value].id};
          var event := ToTimelineEvent(s, branch[target.value], marker, CorrelationFromMarker(marker));
          assert Collect(AnnouncedAt(s, branch), index + 1) == recovered + [event];
          if !s.valid(event) {
            assert !s.valid(Collect(AnnouncedAt(s, branch), index + 1)[|recovered|]);
            StaysInvalid(s, AnnouncedAt(s, branch), index + 1, |branch|);
            return matched, None;
          }
          recovered := recovered + [event];
        }
      }
    }
    events := Some(recovered);
  }

  method CollectLegacy(s: Session, branch: Branch, matched: set<string>) returns (events: Option<seq<TimelineEvent>>)
    ensures events.Some? <==> AllValid(s, Collect(LegacyAt(s, branch, matched), |branch|))
    ensures events.Some? ==> events.value == Collect(LegacyAt(s, branch, matched), |branch|)
  {
    hide LegacyEvent;
    var recovered := [];
    for index := 0 to |branch|
      invariant recovered == Collect(LegacyAt(s, branch, matched), index) && AllValid(s, recovered)
    {
      if Unannounced(branch[index], matched) {
        var event := LegacyEvent(s, branch[index]);
        if !s.valid(event) {
          assert !s.valid(Collect(LegacyAt(s, branch, matched), index + 1)[|recovered|]);
          StaysInvalid(s, LegacyAt(s, branch, matched), index + 1, |branch|);
          return None;
        }
        recovered := recovered + [event];
      }
    }
    events := Some(recovered);
  }

  method CollectSystem(s: Session, branch: Branch) returns (events: seq<TimelineEvent>)
    ensures events == Collect(SystemAt(s, branch), |branch|)
  {
    events := [];
    for index := 0 to |branch|
      invariant events == Collect(SystemAt(s, branch), index)
    {
      var event := ToSystemEvent(s, branch[index]);
      if event.Some? {
        events := events + [event.value];
      }
    }
  }

  method RecoverTimeline(s: Session, branch: Branch) returns (result: Option<seq<TimelineEvent>>)
    ensures result == Recover(s, branch)
  {
    var matched, announced := CollectAnnounced(s, branch);
    if announced.None? {
      return None;
    }
    var legacy := CollectLegacy(s, branch, matched);
    if legacy.None? {
      return None;
    }
    var system := CollectSystem(s, branch);
    return Some(announced.value + legacy.value + system);
  }

  lemma {:induction false} StaysInvalid(s: Session, pick: Pick, n: nat, end: nat)
    requires n <= end && !AllValid(s, Collect(pick, n))
    ensures !AllValid(s, Collect(pick, end))
    decreases end - n
  {
    if n < end {
      var i :| 0 <= i < |Collect(pick, n)| && !s.valid(Collect(pick, n)[i]);
      assert Collect(pick, n + 1)[i] == Collect(pick, n)[i];
      StaysInvalid(s, pick, n + 1, end);
    }
  }

  // ----- Every message once -----

  /** The names under which an entry's position is known. */
  function Keys(e: Entry): set<string> {
    {e.id}
    + (if IsMessage(e) then {LegacyId(e.id)} else {})
    + match e.content
      case MarkerContent(Parsed(marker)) => {marker.eventId}
      case MarkerContent(Rejected(Some(eventId))) => if eventId == "" then {} else {eventId}
      case _ => {}
  }

  /** Entry ids and event ids are fresh when they are made. */
  ghost predicate UniqueKeys(branch: Branch) {
    forall p, q :: 0 <= p < q < |branch| ==> Keys(branch[p]) !! Keys(branch[q])
  }

  /** One of the first `n` entries is a marker that claims the message at `p`. */
  ghost predicate ClaimedBefore(branch: Branch, n: nat, p: nat)
    requires n <= |branch|
  {
    exists i :: 0 <= i < n && Claimed(branch, i) == Some(p)
  }

  /** The event that position `p` stands for: independent of the passes, and of everything behind the target. */
  ghost function RecordAt(s: Session, branch: Branch, p: nat): Option<TimelineEvent>
    requires p < |branch|
  {
    if IsMarker(branch[p]) then MarkerEvent(s, branch, p)
    else if IsMessage(branch[p]) then
      if HasRole(branch[p]) && !ClaimedBefore(branch, p, p) then Some(LegacyEvent(s, branch[p])) else None
    else ToSystemEvent(s, branch[p])
  }

  lemma {:induction false} MatchedIs(branch: Branch, n: nat, p: nat)
    requires UniqueKeys(branch) && n <= |branch| && p < |branch|
    ensures branch[p].id in Matched(branch, n) <==> ClaimedBefore(branch, n, p)
  {
    hide UniqueKeys, Claimed;
    if n > 0 {
      MatchedIs(branch, n - 1, p);
      var target := Claimed(branch, n - 1);
      if target.Some? && branch[target.value].id == branch[p].id {
        SamePosition(branch, target.value, p, branch[p].id);
      }
    }
  }

  lemma {:induction false} SamePosition(branch: Branch, p: nat, q: nat, key: string)
    requires UniqueKeys(branch) && p < |branch| && q < |branch| && key in Keys(branch[p]) && key in Keys(branch[q])
    ensures p == q
  {
  }

  lemma {:induction false} ClaimsLookAhead(branch: Branch, p: nat)
    requires p < |branch|
    ensures ClaimedBefore(branch, |branch|, p) <==> ClaimedBefore(branch, p, p)
  {
  }

  /** Each position gets its event from exactly one of the three passes. */
  lemma {:induction false} PassesShareOut(s: Session, branch: Branch, p: nat)
    requires UniqueKeys(branch) && p < |branch|
    ensures var announced, legacy, system := AnnouncedAt(s, branch)(p), LegacyAt(s, branch, Matched(branch, |branch|))(p), SystemAt(s, branch)(p);
            RecordAt(s, branch, p) == if announced.Some? then announced else if legacy.Some? then legacy else system
    ensures AnnouncedAt(s, branch)(p).Some? ==> LegacyAt(s, branch, Matched(branch, |branch|))(p).None? && SystemAt(s, branch)(p).None?
    ensures LegacyAt(s, branch, Matched(branch, |branch|))(p).Some? ==> SystemAt(s, branch)(p).None?
  {
    hide LegacyEvent, ToTimelineEvent, Matched, Target;
    MatchedIs(branch, |branch|, p);
    ClaimsLookAhead(branch, p);
  }

  ghost predicate FreshIds(pick: Pick, n: nat) {
    forall i: nat, j: nat :: i < j < n && pick(i).Some? && pick(j).Some? ==> pick(i).value.id != pick(j).value.id
  }

  lemma {:induction false} CollectIs(pick: Pick, n: nat)
    requires FreshIds(pick, n)
    ensures forall e :: e in Collect(pick, n) <==> exists i: nat :: i < n && pick(i) == Some(e)
    ensures DistinctIds(Collect(pick, n))
  {
    if n > 0 {
      var last: nat := n - 1;
      CollectIs(pick, last);
      forall i | 0 <= i < |Collect(pick, last)| && pick(last).Some?
        ensures Collect(pick, last)[i].id != pick(last).value.id
      {
        assert Collect(pick, last)[i] in Collect(pick, last);
      }
    }
  }

  lemma {:induction false} PickedKeys(s: Session, branch: Branch, p: nat)
    requires p < |branch|
    ensures AnnouncedAt(s, branch)(p).Some? ==> AnnouncedAt(s, branch)(p).value.id in Keys(branch[p])
    ensures LegacyAt(s, branch, Matched(branch, |branch|))(p).Some? ==>
              LegacyAt(s, branch, Matched(branch, |branch|))(p).value.id in Keys(branch[p])
    ensures SystemAt(s, branch)(p).Some? ==> SystemAt(s, branch)(p).value.id in Keys(branch[p])
    ensures RecordAt(s, branch, p).Some? ==> RecordAt(s, branch, p).value.id in Keys(branch[p])
  {
    hide Matched, Target, ClaimedBefore;
  }

  lemma {:induction false} PassesFresh(s: Session, branch: Branch)
    requires UniqueKeys(branch)
    ensures FreshIds(AnnouncedAt(s, branch), |branch|) && FreshIds(SystemAt(s, branch), |branch|)
    ensures FreshIds(LegacyAt(s, branch, Matched(branch, |branch|)), |branch|)
  {
    hide AnnouncedAt, LegacyAt, SystemAt, Keys, RecordAt;
    forall p: nat | p < |branch| {
      PickedKeys(s, branch, p);
    }
  }

  ghost predicate Recorded(s: Session, branch: Branch, e: TimelineEvent) {
    exists p :: 0 <= p < |branch| && RecordAt(s, branch, p) == Some(e)
  }

  lemma {:induction false} RecordedPosition(s: Session, branch: Branch, p: nat, e: TimelineEvent)
    requires UniqueKeys(branch) && p < |branch| && e.id in Keys(branch[p])
    ensures Recorded(s, branch, e) <==> RecordAt(s, branch, p) == Some(e)
  {
    hide RecordAt;
    if Recorded(s, branch, e) {
      var q :| 0 <= q < |branch| && RecordAt(s, branch, q) == Some(e);
      PickedKeys(s, branch, q);
      SamePosition(branch, p, q, e.id);
    }
  }

  lemma {:induction false} PassOf(s: Session, branch: Branch, e: TimelineEvent)
    requires UniqueKeys(branch)
    ensures Recorded(s, branch, e)
            <==> || e in Collect(AnnouncedAt(s, branch), |branch|)
                 || e in Collect(LegacyAt(s, branch, Matched(branch, |branch|)), |branch|)
                 || e in Collect(SystemAt(s, branch), |branch|)
  {
    hide AnnouncedAt, LegacyAt, SystemAt, RecordAt, Collect, FreshIds, UniqueKeys;
    PassesFresh(s, branch);
    CollectIs(AnnouncedAt(s, branch), |branch|);
    CollectIs(LegacyAt(s, branch, Matched(branch, |branch|)), |branch|);
    CollectIs(SystemAt(s, branch), |branch|);
    forall p: nat | p < |branch| {
      PassesShareOut(s, branch, p);
    }
  }

  lemma {:induction false} DistinctJoin(a: seq<TimelineEvent>, b: seq<TimelineEvent>)
    requires DistinctIds(a) && DistinctIds(b) && forall e, x :: e in a && x in b ==> e.id != x.id
    ensures DistinctIds(a + b)
  {
    forall i, j | 0 <= i < j < |a + b|
      ensures (a + b)[i].id != (a + b)[j].id
    {
      if i < |a| <= j {
        assert a[i] in a && b[j - |a|] in b;
      }
    }
  }

  lemma {:induction false} PassesApart(s: Session, branch: Branch, f: Pick, g: Pick)
    requires UniqueKeys(branch) && FreshIds(f, |branch|) && FreshIds(g, |branch|)
    requires forall p: nat :: p < |branch| && f(p).Some? ==> f(p).value.id in Keys(branch[p]) && g(p).None?
    requires forall p: nat :: p < |branch| && g(p).Some? ==> g(p).value.id in Keys(branch[p])
    ensures forall e, x :: e in Collect(f, |branch|) && x in Collect(g, |branch|) ==> e.id != x.id
  {
    hide Collect, FreshIds, Keys;
    CollectIs(f, |branch|);
    CollectIs(g, |branch|);
    forall e, x | e in Collect(f, |branch|) && x in Collect(g, |branch|)
      ensures e.id != x.id
    {
      var p: nat :| p < |branch| && f(p) == Some(e);
      var q: nat :| q < |branch| && g(q) == Some(x);
      if e.id == x.id {
        SamePosition(branch, p, q, e.id);
      }
    }
  }

  lemma {:induction false} ThreeApart(s: Session, branch: Branch, f: Pick, g: Pick, h: Pick)
    requires UniqueKeys(branch)
    requires f == AnnouncedAt(s, branch) && g == LegacyAt(s, branch, Matched(branch, |branch|)) && h == SystemAt(s, branch)
    ensures DistinctIds(Collect(f, |branch|) + Collect(g, |branch|) + Collect(h, |branch|))
  {
    hide AnnouncedAt, LegacyAt, SystemAt, Collect, FreshIds, UniqueKeys, DistinctIds, Keys, Matched;
    PassesFresh(s, branch);
    CollectIs(f, |branch|);
    CollectIs(g, |branch|);
    CollectIs(h, |branch|);
    forall p: nat | p < |branch|
      ensures f(p).Some? ==> f(p).value.id in Keys(branch[p]) && g(p).None? && h(p).None?
      ensures g(p).Some? ==> g(p).value.id in Keys(branch[p]) && h(p).None?
      ensures h(p).Some? ==> h(p).value.id in Keys(branch[p])
    {
      PickedKeys(s, branch, p);
      PassesShareOut(s, branch, p);
    }
    PassesApart(s, branch, f, g);
    PassesApart(s, branch, f, h);
    PassesApart(s, branch, g, h);
    DistinctJoin(Collect(f, |branch|), Collect(g, |branch|));
    DistinctJoin(Collect(f, |branch|) + Collect(g, |branch|), Collect(h, |branch|));
  }

  /** Recovery yields, without repeating an id, exactly the events that the positions of the branch stand for. */
  lemma {:induction false} RecoverIsRecords(s: Session, branch: Branch)
    requires UniqueKeys(branch) && Recover(s, branch).Some?
    ensures DistinctIds(Recover(s, branch).value)
    ensures forall e :: e in Recover(s, branch).value <==> Recorded(s, branch, e)
  {
    hide AnnouncedAt, LegacyAt, SystemAt, Collect, UniqueKeys, RecordAt, DistinctIds, Matched, AllValid, Recorded;
    ThreeApart(s, branch, AnnouncedAt(s, branch), LegacyAt(s, branch, Matched(branch, |branch|)), SystemAt(s, branch));
    forall e
      ensures e in Recover(s, branch).value <==> Recorded(s, branch, e)
    {
      PassOf(s, branch, e);
    }
  }

  /** The record at `q` is about the message at `p`: a marker that claims it, or the unclaimed message itself. */
  ghost predicate Tells(branch: Branch, q: nat, p: nat)
    requires p < |branch|
  {
    q < |branch| && (Claimed(branch, q) == Some(p) || (q == p && HasRole(branch[p]) && !ClaimedBefore(branch, p, p)))
  }

  /** Every role-bearing message yields exactly one event: one position tells it, and that position has an event. */
  lemma {:induction false} EveryMessageOnce(s: Session, branch: Branch, p: nat) returns (q: nat)
    requires p < |branch| && HasRole(branch[p])
    ensures Tells(branch, q, p) && forall other :: Tells(branch, other, p) ==> other == q
    ensures RecordAt(s, branch, q).Some? && RecordAt(s, branch, q).value.timestamp
                                            == Timestamp(branch[p].at, branch[p].content.message.at, s.now)
  {
    hide Target;
    if ClaimedBefore(branch, p, p) {
      q :| 0 <= q < p && Claimed(branch, q) == Some(p);
    } else {
      q := p;
    }
    forall other | Tells(branch, other, p)
      ensures other == q
    {
      if Claimed(branch, other) == Some(p) && Claimed(branch, q) == Some(p) {
        ClaimedOnce(branch, other, q);
      }
    }
  }

  // ----- Stability -----

  /** A marker left of a marker or message entry has its target decided by the entries up to that one. */
  lemma {:induction false} DecidedBy(branch: Branch, longer: Branch, i: nat, limit: nat)
    requires branch <= longer && i < limit < |branch| && !branch[limit].content.CustomContent?
    ensures Claimed(longer, i) == Claimed(branch, i)
  {
    StopsBy(branch, i + 1, limit);
    StopStays(branch, longer, i + 1);
  }

  /** The events of the positions left of a marker or message entry are the same in every extension of the branch. */
  lemma {:induction false} RecordsStay(s: Session, branch: Branch, longer: Branch, p: nat, limit: nat)
    requires branch <= longer && p < limit < |branch| && !branch[limit].content.CustomContent?
    ensures RecordAt(s, longer, p) == RecordAt(s, branch, p)
  {
    hide Claimed, ToSystemEvent, ToTimelineEvent, LegacyEvent;
    DecidedBy(branch, longer, p, limit);
    forall i | 0 <= i < p
      ensures Claimed(longer, i) == Claimed(branch, i)
    {
      DecidedBy(branch, longer, i, limit);
    }
  }

  // ----- Live events -----

  /** The event that is published when the message announced by the marker at `i` ends. */
  function LiveEvent(s: Session, branch: Branch, i: nat, marker: Marker, c: Correlation, role: Role): Option<TimelineEvent>
    requires i < |branch|
  {
    match Target(branch, i, role)
    case None => None
    case Some(target) => Some(ToTimelineEvent(s, branch[target], marker, c))
  }

  /**
   The event published live for a marker that `BuildMarker` wrote is the one recovered for it from every later state
   of the branch, in the same scope, whatever the clock says, if the message entry's own time parses.
   */
  lemma {:induction false} LiveIsRecovered(s: Session, branch: Branch, later: Session, longer: Branch, i: nat,
                                           eventId: string, groupId: string, c: Correlation, role: Role)
    requires branch <= longer && later.scope == s.scope && i < |branch|
    requires branch[i].content == MarkerContent(Parsed(BuildMarker(role, eventId, groupId, c)))
    requires LiveEvent(s, branch, i, BuildMarker(role, eventId, groupId, c), c, role).Some?
    requires branch[Target(branch, i, role).value].at.Some?
    ensures RecordAt(later, longer, i) == LiveEvent(s, branch, i, BuildMarker(role, eventId, groupId, c), c, role)
  {
    TargetStays(branch, longer, i, role);
  }
}
