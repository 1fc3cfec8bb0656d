/**
 The live side of the timeline: it writes a marker when a message starts and publishes the event when the message has
 been stored. Its groups never interleave, and what it publishes is what recovery later finds.
 */
module TimelineRuntime {
  import opened Bytes
  import opened Timeline
  import opened Recovery
  import opened HistoryRecords
  import opened HistorySelection
  import opened HistoryCoverage

  /** A message that has started: the marker written for it and the correlation it was written with. `identity` is made of
      the message's time and model, if it has a time: another object with the same identity may stand for the message. */
  datatype Pending = Pending(message: nat, identity: Option<string>, role: Role, marker: Marker, correlation: Correlation)

  datatype RuntimeState = RuntimeState(
    branch: Branch,
    epoch: nat,
    active: bool,
    group: Option<string>,
    latest: map<nat, Pending>,  // what was last started for a message object, still pending or not
    pending: seq<Pending>,
    ended: seq<Pending>,        // ended, publication deferred
    published: seq<TimelineEvent>)

  function StartAgent(st: RuntimeState): RuntimeState {
    st.(epoch := st.epoch + 1, active := true, group := None)
  }

  function EndAgent(st: RuntimeState): RuntimeState {
    st.(active := false, group := None, pending := [])
  }

  /** `entryId`, `eventId` and `freshGroup` are drawn anew; `freshGroup` is used only if no group is open. */
  function StartMessage(st: RuntimeState, message: nat, identity: Option<string>, role: Role, c: Correlation,
                        entryId: string, at: Option<nat>, eventId: string, freshGroup: string): RuntimeState
  {
    var started := if st.active then st else StartAgent(st);
    var group := if started.group.Some? then started.group.value else freshGroup;
    var marker := BuildMarker(role, eventId, group, c);
    var p := Pending(message, identity, role, marker, c);
    started.(group := Some(group),
             branch := st.branch + [Entry(entryId, at, MarkerContent(Parsed(marker)))],
             latest := st.latest[message := p],
             pending := st.pending + [p])
  }

  /** The first pending message of this role and identity. */
  function FirstAlike(pending: seq<Pending>, identity: string, role: Role): (p: Option<Pending>)
    ensures p.Some? ==> p.value in pending && p.value.role == role && p.value.identity == Some(identity)
    ensures p.None? ==> forall q :: q in pending ==> q.role != role || q.identity != Some(identity)
  {
    if |pending| == 0 then None
    else if pending[0].role == role && pending[0].identity == Some(identity) then Some(pending[0])
    else FirstAlike(pending[1..], identity, role)
  }

  /** The very object if it is pending, or else the first that is alike. */
  function FindPending(st: RuntimeState, message: nat, identity: Option<string>, role: Role): (p: Option<Pending>)
    ensures p.Some? ==> p.value in st.pending && p.value.role == role
  {
    if message in st.latest && st.latest[message].role == role && st.latest[message] in st.pending then Some(st.latest[message])
    else if identity.None? then None
    else FirstAlike(st.pending, identity.value, role)
  }

  function Without(pending: seq<Pending>, p: Pending): seq<Pending> {
    if |pending| == 0 then []
    else
      var last := pending[|pending| - 1];
      Without(pending[..|pending| - 1], p) + if last == p then [] else [last]
  }

  function EndMessage(st: RuntimeState, message: nat, identity: Option<string>, role: Role): RuntimeState {
    match FindPending(st, message, identity, role)
    case None => st
    case Some(p) =>
      st.(latest := st.latest - {p.message, message}, pending := Without(st.pending, p), ended := st.ended + [p])
  }

  /** Whether a marker entry, valid or not, names the event, or the entry itself has that id. */
  predicate Names(e: Entry, eventId: string) {
    e.id == eventId || match e.content
                       case MarkerContent(Parsed(marker)) => marker.eventId == eventId
                       case MarkerContent(Rejected(named)) => named == Some(eventId)
                       case _ => false
  }

  function FindMarker(branch: Branch, eventId: string): (i: Option<nat>)
    ensures i.Some? ==> i.value < |branch| && Names(branch[i.value], eventId)
  {
    if |branch| == 0 then None
    else
      var earlier := FindMarker(branch[..|branch| - 1], eventId);
      if earlier.Some? then earlier
      else if Names(branch[|branch| - 1], eventId) then Some(|branch| - 1)
      else None
  }

  function Publish(st: RuntimeState, event: TimelineEvent): RuntimeState {
    if HasEvent(st.published, event.id) then st else st.(published := st.published + [event])
  }

  /** The deferred publication of the oldest ended message; an event that the schema rejects is not published. */
  function PublishEnded(s: Session, st: RuntimeState): RuntimeState {
    if |st.ended| == 0 then st
    else
      var p, rest := st.ended[0], st.(ended := st.ended[1..]);
      match FindMarker(st.branch, p.marker.eventId)
      case None => rest
      case Some(i) =>
        match LiveEvent(s, st.branch, i, p.marker, p.correlation, p.role)
        case None => rest
        case Some(event) => if s.valid(event) then Publish(rest, event) else rest
  }

  /** The session stores an entry of its own; system entries are published as they come. */
  function StoreEntry(s: Session, st: RuntimeState, e: Entry): RuntimeState {
    var stored := st.(branch := st.branch + [e]);
    match ToSystemEvent(s, e)
    case None => stored
    case Some(event) => Publish(stored, event)
  }

  class Runtime {
    var branch: Branch
    var epoch: nat
    var active: bool
    var activeGroupId: Option<string>
    var latest: map<nat, Pending>
    var pending: seq<Pending>
    var ended: seq<Pending>
    var published: seq<TimelineEvent>

    function State(): RuntimeState
      reads this
    {
      RuntimeState(branch, epoch, active, activeGroupId, latest, pending, ended, published)
    }

    constructor (branch: Branch)
      ensures State() == RuntimeState(branch, 0, false, None, map[], [], [], [])
    {
      this.branch, epoch, active, activeGroupId := branch, 0, false, None;
      latest, pending, ended, published := map[], [], [], [];
    }

    method OnAgentStart()
      modifies this
      ensures State() == StartAgent(old(State()))
    {
      epoch := epoch + 1;
      active := true;
      activeGroupId := None;
    }

    method OnAgentEnd()
      modifies this
      ensures State() == EndAgent(old(State()))
    {
      active := false;
      activeGroupId := None;
      pending := [];
    }

    method OnMessageStart(message: nat, identity: Option<string>, role: Role, c: Correlation,
                          entryId: string, at: Option<nat>, eventId: string, freshGroup: string)
      modifies this
      ensures State() == StartMessage(old(State()), message, identity, role, c, entryId, at, eventId, freshGroup)
    {
      if !active {
        OnAgentStart();
      }
      var groupId := if activeGroupId.Some? then activeGroupId.value else freshGroup;
      activeGroupId := Some(groupId);
      var marker := BuildMarker(role, eventId, groupId, c);
      branch := branch + [Entry(entryId, at, MarkerContent(Parsed(marker)))];
      var p := Pending(message, identity, role, marker, c);
      latest := latest[message := p];
      pending := pending + [p];
    }

    method OnMessageEnd(message: nat, identity: Option<string>, role: Role)
      modifies this
      ensures State() == EndMessage(old(State()), message, identity, role)
    {
      var p := FindPending(State(), message, identity, role);
      if p.Some? {
        latest := latest - {p.value.message, message};
        pending := Without(pending, p.value);
        ended := ended + [p.value];
      }
    }

    method PublishNext(s: Session)
      modifies this
      ensures State() == PublishEnded(s, old(State()))
    {
      if |ended| == 0 {
        return;
      }
      var p := ended[0];
      ended := ended[1..];
      var marker := FindMarker(branch, p.marker.eventId);
      if marker.None? {
        return;
      }
      var target := ScanTargetAfterMarker(branch, marker.value, p.role);
      if target.None? {
        return;
      }
      var event := ToTimelineEvent(s, branch[target.value], p.marker, p.correlation);
      if s.valid(event) {
        PublishEvent(event);
      }
    }

    method OnSessionEntry(s: Session, e: Entry)
      modifies this
      ensures State() == StoreEntry(s, old(State()), e)
    {
      branch := branch + [e];
      var event := ToSystemEvent(s, e);
      if event.Some? {
        PublishEvent(event.value);
      }
    }

    method PublishEvent(event: TimelineEvent)
      modifies `published
      ensures State() == Publish(old(State()), event)
    {
      if !HasEvent(published, event.id) {
        published := published + [event];
      }
    }
  }

  // ----- Runs -----

  datatype Step =
    | AgentStarts
    | AgentEnds
    | MessageStarts(message: nat, identity: Option<string>, role: Role, correlation: Correlation,
                    entryId: string, at: Option<nat>, eventId: string, freshGroup: string)
    | MessageEnds(message: nat, identity: Option<string>, role: Role)
    | Publishes(now: nat)
    | Stores(entry: Entry, now: nat)

  ghost function Take(s: Session, st: RuntimeState, step: Step): RuntimeState {
    match step
    case AgentStarts => StartAgent(st)
    case AgentEnds => EndAgent(st)
    case MessageStarts(message, identity, role, c, entryId, at, eventId, freshGroup) =>
      StartMessage(st, message, identity, role, c, entryId, at, eventId, freshGroup)
    case MessageEnds(message, identity, role) => EndMessage(st, message, identity, role)
    case Publishes(now) => PublishEnded(s.(now := now), st)
    case Stores(entry, now) => StoreEntry(s.(now := now), st, entry)
  }

  ghost predicate ParsedMarker(e: Entry) { IsMarker(e) && e.content.data.Parsed? }

  /** New ids are new, groups drawn are new, the session stores no markers of its own, and times parse. */
  ghost predicate Allowed(s: Session, st: RuntimeState, step: Step) {
    && UniqueKeys(Take(s, st, step).branch) && TimesParse(Take(s, st, step).branch)
    && (step.MessageStarts? ==> forall i :: 0 <= i < |st.branch| && ParsedMarker(st.branch[i]) ==>
                                              st.branch[i].content.data.marker.groupId != step.freshGroup)
    && (step.MessageStarts? ==> step.eventId != "")
    && (step.Stores? ==> !IsMarker(step.entry))
  }

  datatype History = Begin(branch: Branch) | After(before: History, step: Step)

  ghost function StateOf(s: Session, h: History): RuntimeState {
    match h
    case Begin(branch) => RuntimeState(branch, 0, false, None, map[], [], [], [])
    case After(before, step) => Take(s, StateOf(s, before), step)
  }

  /** Markers of one group have no markers of other groups between them. */
  ghost predicate GroupsTogether(branch: Branch) {
    forall i, j, k :: 0 <= i < j < k < |branch| && ParsedMarker(branch[i]) && ParsedMarker(branch[j]) && ParsedMarker(branch[k])
                      && branch[i].content.data.marker.groupId == branch[k].content.data.marker.groupId ==>
                        branch[j].content.data.marker.groupId == branch[i].content.data.marker.groupId
  }

  /** The open group is the last one: behind its first marker there are only its own. */
  ghost predicate OpenGroupLast(branch: Branch, group: Option<string>) {
    group.Some? ==>
      forall i, j :: 0 <= i < j < |branch| && ParsedMarker(branch[i]) && ParsedMarker(branch[j])
                     && branch[i].content.data.marker.groupId == group.value ==>
                       branch[j].content.data.marker.groupId == group.value
  }

  ghost predicate Genuine(s: Session, h: History) {
    match h
    case Begin(branch) => GroupsTogether(branch) && UniqueKeys(branch) && TimesParse(branch)
    case After(before, step) => Genuine(s, before) && Allowed(s, StateOf(s, before), step)
  }

  // ----- Groups never interleave -----

  lemma {:induction false} MarkerAppended(branch: Branch, e: Entry, group: Option<string>)
    requires GroupsTogether(branch) && OpenGroupLast(branch, group) && ParsedMarker(e)
    requires group == Some(e.content.data.marker.groupId)
             || forall i :: 0 <= i < |branch| && ParsedMarker(branch[i]) ==> branch[i].content.data.marker.groupId != e.content.data.marker.groupId
    ensures GroupsTogether(branch + [e]) && OpenGroupLast(branch + [e], Some(e.content.data.marker.groupId))
  {
  }

  lemma {:induction false} OtherAppended(branch: Branch, e: Entry, group: Option<string>)
    requires GroupsTogether(branch) && OpenGroupLast(branch, group) && !IsMarker(e)
    ensures GroupsTogether(branch + [e]) && OpenGroupLast(branch + [e], group)
  {
  }

  lemma {:induction false} GroupStep(s: Session, st: RuntimeState, step: Step)
    requires GroupsTogether(st.branch) && OpenGroupLast(st.branch, st.group) && Allowed(s, st, step)
    ensures GroupsTogether(Take(s, st, step).branch) && OpenGroupLast(Take(s, st, step).branch, Take(s, st, step).group)
  {
    hide UniqueKeys, TimesParse, BuildMarker, ToSystemEvent, LiveEvent, FindMarker, FindPending, GroupsTogether;
    if step.MessageStarts? {
      var next := Take(s, st, step);
      MarkerGroup(step.role, step.eventId, next.group.value, step.correlation);
      MarkerAppended(st.branch, next.branch[|st.branch|], st.group);
    } else if step.Stores? {
      OtherAppended(st.branch, step.entry, st.group);
    }
  }

  lemma {:induction false} MarkerGroup(role: Role, eventId: string, group: string, c: Correlation)
    ensures BuildMarker(role, eventId, group, c).groupId == group && BuildMarker(role, eventId, group, c).eventId == eventId
  {
  }

  /** In every session the groups of the markers follow one another. */
  lemma {:induction false} GroupsFollow(s: Session, h: History)
    requires Genuine(s, h)
    ensures GroupsTogether(StateOf(s, h).branch) && OpenGroupLast(StateOf(s, h).branch, StateOf(s, h).group)
  {
    hide GroupsTogether, Take, Allowed;
    if h.After? {
      GroupsFollow(s, h.before);
      GroupStep(s, StateOf(s, h.before), h.step);
    }
  }

  /** A marker that has claimed its message. */
  ghost predicate Claims(branch: Branch, i: int) {
    0 <= i < |branch| && ParsedMarker(branch[i]) && Claimed(branch, i).Some?
  }

  /** A message that no marker claims: it goes to the legacy group. */
  ghost predicate Unclaimed(branch: Branch, p: int) {
    0 <= p < |branch| && HasRole(branch[p]) && !ClaimedBefore(branch, p, p)
  }

  ghost function GroupAt(branch: Branch, i: int): string
    requires 0 <= i < |branch| && ParsedMarker(branch[i])
  {
    branch[i].content.data.marker.groupId
  }

  /** Unclaimed messages and groups of markers do not reach into each other. */
  ghost predicate LegacyApart(branch: Branch) {
    && (forall p, i, q :: p < i < q && Unclaimed(branch, p) && Unclaimed(branch, q) ==> !Claims(branch, i))
    && (forall i, p, k :: i < p < k && Claims(branch, i) && Claims(branch, k) && GroupAt(branch, i) == GroupAt(branch, k) ==>
          !Unclaimed(branch, p))
  }

  lemma {:induction false} GroupOfRecordAt(s: Session, branch: Branch, p: nat)
    requires p < |branch|
    ensures RecordAt(s, branch, p).Some? && !RecordAt(s, branch, p).value.IsSystem() <==> Claims(branch, p) || Unclaimed(branch, p)
    ensures Claims(branch, p) ==> RecordAt(s, branch, p).Some? && RecordAt(s, branch, p).value.group == Some(GroupAt(branch, p))
    ensures Unclaimed(branch, p) ==> RecordAt(s, branch, p).Some? && RecordAt(s, branch, p).value.group == Some(LegacyId(s.scope.session))
    ensures !(Claims(branch, p) && Unclaimed(branch, p))
  {
    hide Target, ClaimedBefore;
  }

  /** What the records of a branch are, for the question of which groups interleave. */
  ghost predicate InRecords(records: seq<EventRecord>, branch: Branch, legacy: string) {
    && (forall r :: r in records && !IsSystem(r) ==>
          || (Claims(branch, r.position) && r.event.group == Some(GroupAt(branch, r.position)))
          || (Unclaimed(branch, r.position) && r.event.group == Some(legacy)))
    && (forall p :: Claims(branch, p) || Unclaimed(branch, p) ==> exists r :: r in records && !IsSystem(r) && r.position == p)
  }

  lemma {:induction false} RecordsOfBranch(codec: Codec, s: Session, branch: Branch)
    ensures InRecords(Records(codec, s, branch, |branch|), branch, LegacyId(s.scope.session))
  {
    hide RecordAt, Records, Unclaimed, Increasing;
    var records := Records(codec, s, branch, |branch|);
    RecordsAre(codec, s, branch, |branch|);
    forall r | r in records && !IsSystem(r)
      ensures || (Claims(branch, r.position) && r.event.group == Some(GroupAt(branch, r.position)))
              || (Unclaimed(branch, r.position) && r.event.group == Some(LegacyId(s.scope.session)))
    {
      GroupOfRecordAt(s, branch, r.position);
    }
    forall p | Claims(branch, p) || Unclaimed(branch, p)
      ensures exists r :: r in records && !IsSystem(r) && r.position == p
    {
      Inside(branch, p);
      GroupOfRecordAt(s, branch, p);
      var e := RecordAt(s, branch, p).value;
      assert EventRecord(e, p, codec.Size(e)) in records;
    }
  }

  lemma {:induction false} Inside(branch: Branch, p: int)
    requires Claims(branch, p) || Unclaimed(branch, p)
    ensures 0 <= p < |branch|
  {
  }

  /** If there are unclaimed messages, no marker names their group. */
  ghost predicate NotLegacy(branch: Branch, legacy: string) {
    forall p, i :: Unclaimed(branch, p) && 0 <= i < |branch| && ParsedMarker(branch[i]) ==> GroupAt(branch, i) != legacy
  }

  lemma {:induction false} ApartSeparates(records: seq<EventRecord>, branch: Branch, legacy: string)
    requires InRecords(records, branch, legacy) && GroupsTogether(branch) && NotLegacy(branch, legacy) && LegacyApart(branch)
    ensures Separated(records)
  {
    hide ClaimedBefore, Claimed, IsSystem;
  }

  lemma {:induction false} SeparatedApart(records: seq<EventRecord>, branch: Branch, legacy: string)
    requires InRecords(records, branch, legacy) && NotLegacy(branch, legacy) && Separated(records)
    ensures LegacyApart(branch)
  {
    hide ClaimedBefore, Claimed, IsSystem;
    forall p, i, q | p < i < q && Unclaimed(branch, p) && Unclaimed(branch, q)
      ensures !Claims(branch, i)
    {
      if Claims(branch, i) {
        BetweenTwo(records, branch, legacy, p, i, q);
      }
    }
    forall i, p, k | i < p < k && Claims(branch, i) && Claims(branch, k) && GroupAt(branch, i) == GroupAt(branch, k)
      ensures !Unclaimed(branch, p)
    {
      if Unclaimed(branch, p) {
        BetweenTwo(records, branch, legacy, i, p, k);
      }
    }
  }

  /** Three positions of which the middle one is of another kind than the outer ones, which are of one group. */
  lemma {:induction false} BetweenTwo(records: seq<EventRecord>, branch: Branch, legacy: string, p: int, i: int, q: int)
    requires InRecords(records, branch, legacy) && NotLegacy(branch, legacy) && p < i < q
    requires || (Unclaimed(branch, p) && Claims(branch, i) && Unclaimed(branch, q))
             || (Claims(branch, p) && Unclaimed(branch, i) && Claims(branch, q) && GroupAt(branch, p) == GroupAt(branch, q))
    ensures !Separated(records)
  {
    hide Unclaimed, IsSystem, InRecords;
    var r := RecordAtPosition(records, branch, legacy, p);
    var y := RecordAtPosition(records, branch, legacy, i);
    var x := RecordAtPosition(records, branch, legacy, q);
  }

  lemma {:induction false} RecordAtPosition(records: seq<EventRecord>, branch: Branch, legacy: string, p: int) returns (r: EventRecord)
    requires InRecords(records, branch, legacy) && (Claims(branch, p) || Unclaimed(branch, p))
    ensures r in records && !IsSystem(r) && r.position == p
    ensures Claims(branch, p) ==> r.event.group == Some(GroupAt(branch, p))
    ensures Unclaimed(branch, p) ==> r.event.group == Some(legacy)
  {
    hide ClaimedBefore, Claimed, IsSystem;
    NotBoth(branch, p);
    r :| r in records && !IsSystem(r) && r.position == p;
  }

  lemma {:induction false} NotBoth(branch: Branch, p: int)
    ensures !(Claims(branch, p) && Unclaimed(branch, p))
  {
    hide ClaimedBefore, Claimed;
  }

  /**
   The records of a session are separated, so that paging shows all of them, if and only if its unclaimed messages and
   its groups of markers keep apart: all of them may be claimed, or the unclaimed ones come before all markers.
   */
  lemma {:induction false} SessionsSeparatedIff(codec: Codec, s: Session, h: History)
    requires Genuine(s, h) && NotLegacy(StateOf(s, h).branch, LegacyId(s.scope.session))
    ensures Separated(Records(codec, s, StateOf(s, h).branch, |StateOf(s, h).branch|)) <==> LegacyApart(StateOf(s, h).branch)
  {
    hide Genuine, StateOf, Records, OpenGroupLast, GroupsTogether, InRecords, LegacyApart, Separated, NotLegacy;
    var branch := StateOf(s, h).branch;
    GroupsFollow(s, h);
    RecordsOfBranch(codec, s, branch);
    if LegacyApart(branch) {
      ApartSeparates(Records(codec, s, branch, |branch|), branch, LegacyId(s.scope.session));
    } else if Separated(Records(codec, s, branch, |branch|)) {
      SeparatedApart(Records(codec, s, branch, |branch|), branch, LegacyId(s.scope.session));
    }
  }

  /** So it is when every message has its marker, and when only messages before the first marker have none. */
  lemma {:induction false} SessionsAreSeparated(codec: Codec, s: Session, h: History)
    requires Genuine(s, h) && NotLegacy(StateOf(s, h).branch, LegacyId(s.scope.session))
    requires var branch := StateOf(s, h).branch;
             forall p, i :: Unclaimed(branch, p) && 0 <= i < |branch| && ParsedMarker(branch[i]) ==> p < i
    ensures Separated(Records(codec, s, StateOf(s, h).branch, |StateOf(s, h).branch|))
  {
    hide Unclaimed, Separated, StateOf, Genuine, Records, Claimed;
    SessionsSeparatedIff(codec, s, h);
  }

  // ----- What is published is recovered -----

  lemma {:induction false} ClaimStays(branch: Branch, longer: Branch, i: nat)
    requires branch <= longer && i < |branch| && Claimed(branch, i).Some?
    ensures Claimed(longer, i) == Claimed(branch, i)
  {
    TargetStays(branch, longer, i, RoleForMarker(branch[i].content.data.marker));
  }

  lemma {:induction false} MessageClaimsStay(branch: Branch, longer: Branch, p: nat)
    requires branch <= longer && p < |branch| && IsMessage(branch[p])
    ensures ClaimedBefore(longer, p, p) <==> ClaimedBefore(branch, p, p)
  {
    hide Claimed;
    forall i | 0 <= i < p
      ensures Claimed(longer, i) == Claimed(branch, i)
    {
      DecidedBy(branch, longer, i, p);
    }
  }

  /** Once a position has an event, it keeps it. */
  lemma {:induction false} RecordedStays(s: Session, branch: Branch, longer: Branch, e: TimelineEvent)
    requires branch <= longer && Recorded(s, branch, e)
    ensures Recorded(s, longer, e)
  {
    hide Claimed, ClaimedBefore;
    var p :| 0 <= p < |branch| && RecordAt(s, branch, p) == Some(e);
    if IsMarker(branch[p]) {
      ClaimStays(branch, longer, p);
    } else if IsMessage(branch[p]) {
      MessageClaimsStay(branch, longer, p);
    }
    assert RecordAt(s, longer, p) == Some(e);
  }

  ghost predicate MarkerAt(branch: Branch, i: int, p: Pending) {
    0 <= i < |branch| && branch[i].content == MarkerContent(Parsed(p.marker))
  }

  /** The marker of a started message is in the branch, as written for its role and correlation. */
  ghost predicate Announced(branch: Branch, p: Pending) {
    && (exists i :: MarkerAt(branch, i, p))
    && p.marker == BuildMarker(p.role, p.marker.eventId, p.marker.groupId, p.correlation)
    && p.marker.eventId != ""
  }

  ghost predicate Faithful(s: Session, st: RuntimeState) {
    && UniqueKeys(st.branch) && TimesParse(st.branch)
    && (forall p :: p in st.pending || p in st.ended ==> Announced(st.branch, p))
    && DistinctIds(st.published)
    && forall e :: e in st.published ==> Recorded(s, st.branch, e)
  }

  lemma {:induction false} AnnouncedStays(branch: Branch, longer: Branch, p: Pending)
    requires branch <= longer && Announced(branch, p)
    ensures Announced(longer, p)
  {
    var i :| MarkerAt(branch, i, p);
    assert MarkerAt(longer, i, p);
  }

  lemma {:induction false} PublishKeeps(s: Session, st: RuntimeState, event: TimelineEvent)
    requires Faithful(s, st) && Recorded(s, st.branch, event)
    ensures Faithful(s, Publish(st, event))
  {
    hide Recorded, Announced, UniqueKeys, TimesParse;
  }

  /** The live event of an announced message is the event of the position of its marker. */
  lemma {:induction false} LiveIsRecorded(s: Session, later: Session, branch: Branch, p: Pending, i: nat)
    requires UniqueKeys(branch) && TimesParse(branch) && Announced(branch, p) && i < |branch| && Names(branch[i], p.marker.eventId)
    requires later.scope == s.scope && later.valid == s.valid
    requires LiveEvent(later, branch, i, p.marker, p.correlation, p.role).Some?
    ensures Recorded(s, branch, LiveEvent(later, branch, i, p.marker, p.correlation, p.role).value)
  {
    hide RecordAt, UniqueKeys;
    var m :| MarkerAt(branch, m, p);
    SamePosition(branch, m, i, p.marker.eventId);
    LiveIsRecovered(later, branch, later, branch, i, p.marker.eventId, p.marker.groupId, p.correlation, p.role);
    ClockIndependent(s, later, branch, i);
  }

  lemma {:induction false} PublishEndedKeeps(s: Session, later: Session, st: RuntimeState)
    requires Faithful(s, st) && later.scope == s.scope && later.valid == s.valid
    ensures Faithful(s, PublishEnded(later, st))
  {
    hide Announced, Recorded, FindMarker, UniqueKeys, TimesParse, Target, DistinctIds, Publish;
    if |st.ended| > 0 {
      var p, rest := st.ended[0], st.(ended := st.ended[1..]);
      assert p in st.ended;
      assert forall q :: q in rest.ended ==> q in st.ended;
      var i := FindMarker(st.branch, p.marker.eventId);
      assert Faithful(s, rest);
      if i.Some? && LiveEvent(later, st.branch, i.value, p.marker, p.correlation, p.role).Some? {
        LiveIsRecorded(s, later, st.branch, p, i.value);
        PublishKeeps(s, rest, LiveEvent(later, st.branch, i.value, p.marker, p.correlation, p.role).value);
      }
    }
  }

  /** Appending to the branch keeps what was announced and recorded. */
  lemma {:induction false} GrowthKeeps(s: Session, st: RuntimeState, longer: Branch)
    requires Faithful(s, st) && st.branch <= longer && UniqueKeys(longer) && TimesParse(longer)
    ensures Faithful(s, st.(branch := longer))
  {
    hide Announced, Recorded, UniqueKeys, TimesParse;
    forall p | p in st.pending || p in st.ended
      ensures Announced(longer, p)
    {
      AnnouncedStays(st.branch, longer, p);
    }
    forall e | e in st.published
      ensures Recorded(s, longer, e)
    {
      RecordedStays(s, st.branch, longer, e);
    }
  }

  lemma {:induction false} StoreKeeps(s: Session, later: Session, st: RuntimeState, e: Entry)
    requires Faithful(s, st) && later.scope == s.scope && later.valid == s.valid && !IsMarker(e)
    requires UniqueKeys(st.branch + [e]) && TimesParse(st.branch + [e])
    ensures Faithful(s, StoreEntry(later, st, e))
  {
    hide UniqueKeys, TimesParse, Announced, Publish;
    var longer := st.branch + [e];
    GrowthKeeps(s, st, longer);
    if ToSystemEvent(later, e).Some? {
      assert RecordAt(later, longer, |st.branch|) == ToSystemEvent(later, e);
      ClockIndependent(s, later, longer, |st.branch|);
      assert Recorded(s, longer, ToSystemEvent(later, e).value);
      PublishKeeps(s, st.(branch := longer), ToSystemEvent(later, e).value);
    }
  }

  lemma {:induction false} StartKeeps(s: Session, st: RuntimeState, step: Step)
    requires Faithful(s, st) && step.MessageStarts? && Allowed(s, st, step)
    ensures Faithful(s, Take(s, st, step))
  {
    hide UniqueKeys, TimesParse, Recorded, DistinctIds;
    var next := Take(s, st, step);
    GrowthKeeps(s, st, next.branch);
    var p := next.pending[|st.pending|];
    MarkerGroup(step.role, step.eventId, next.group.value, step.correlation);
    assert MarkerAt(next.branch, |st.branch|, p);
    assert Announced(next.branch, p);
  }

  lemma {:induction false} WithoutIs(pending: seq<Pending>, p: Pending)
    ensures forall q :: q in Without(pending, p) <==> q in pending && q != p
  {
    if |pending| > 0 {
      var front, last := pending[..|pending| - 1], pending[|pending| - 1];
      assert pending == front + [last];
      WithoutIs(front, p);
    }
  }

  lemma {:induction false} EndKeeps(s: Session, st: RuntimeState, message: nat, identity: Option<string>, role: Role)
    requires Faithful(s, st)
    ensures Faithful(s, EndMessage(st, message, identity, role))
  {
    hide UniqueKeys, TimesParse, Recorded, Announced, DistinctIds, FindPending;
    var p := FindPending(st, message, identity, role);
    if p.Some? {
      WithoutIs(st.pending, p.value);
    }
  }

  lemma {:induction false} StepKeepsFaith(s: Session, st: RuntimeState, step: Step)
    requires Faithful(s, st) && Allowed(s, st, step)
    ensures Faithful(s, Take(s, st, step))
  {
    match step
    case AgentStarts =>
    case AgentEnds =>
    case MessageStarts(_, _, _, _, _, _, _, _) => StartKeeps(s, st, step);
    case MessageEnds(message, identity, role) => EndKeeps(s, st, message, identity, role);
    case Publishes(now) => PublishEndedKeeps(s, s.(now := now), st);
    case Stores(entry, now) => StoreKeeps(s, s.(now := now), st, entry);
  }

  /** In every session, whatever is published live is published once and is what recovery finds, then and later. */
  lemma {:induction false} PublishedIsRecovered(s: Session, h: History)
    requires Genuine(s, h)
    ensures Faithful(s, StateOf(s, h))
    ensures Recover(s, StateOf(s, h).branch).Some? ==>
              forall e :: e in StateOf(s, h).published ==> e in Recover(s, StateOf(s, h).branch).value
  {
    hide Take, Allowed, Recover;
    if h.After? {
      PublishedIsRecovered(s, h.before);
      StepKeepsFaith(s, StateOf(s, h.before), h.step);
    }
    FaithfulRecovered(s, StateOf(s, h));
  }

  lemma {:induction false} FaithfulRecovered(s: Session, st: RuntimeState)
    requires Faithful(s, st)
    ensures Recover(s, st.branch).Some? ==> forall e :: e in st.published ==> e in Recover(s, st.branch).value
  {
    hide Recover, Recorded, UniqueKeys;
    if Recover(s, st.branch).Some? {
      RecoverIsRecords(s, st.branch);
    }
  }
}
