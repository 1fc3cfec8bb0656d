/** The entities every timeline component passes around, and the limits they are held to. */
module Timeline {
  import opened Bytes

  // pi-extension/src/protocol/v2/schemas.ts and pwa/src/lib/remote-pi/protocol-v2/schema.ts agree on these.
  const MAX_FRAME_BYTES := 2 * 1024 * 1024
  const MAX_HISTORY_CHUNK_BYTES := 512 * 1024
  const MAX_WINDOW_BYTES := 32 * 1024 * 1024
  const MAX_FRAGMENT_BYTES := 50 * 1024
  const MAX_ID_CHARS := 256
  const MAX_ARRAY_ITEMS := 4096

  datatype Origin = FromPwa | FromExtension | OriginUnknown

  datatype Delivery = Normal | Queued | DeliveryUnknown

  /** The kind of an event with the fields that only this kind has; block lists and JSON values stay text. */
  datatype Detail =
    | User(messageId: string, blocks: string, origin: Origin, delivery: Delivery, senderRef: Option<string>)
    | Assistant(blocks: string, interrupted: bool)
    | ProviderError(message: string)
    | Tool(callId: string, tool: string, args: string, outcome: string, failed: bool)
    | Compaction(summary: string)
    | BranchSummary(summary: string)
    | Custom(data: string)

  /** One formal event. */
  datatype TimelineEvent = TimelineEvent(
    id: string,
    session: string,
    generation: string,
    timestamp: int,
    group: Option<string>,
    detail: Detail)
  {
    predicate IsSystem() { detail.Compaction? || detail.BranchSummary? || detail.Custom? }
  }

  ghost predicate DistinctIds(events: seq<TimelineEvent>) {
    forall i, j :: 0 <= i < j < |events| ==> events[i].id != events[j].id
  }

  predicate HasEvent(events: seq<TimelineEvent>, id: string) {
    exists i :: 0 <= i < |events| && events[i].id == id
  }

  datatype Scope = Scope(session: string, generation: string)

  predicate InScope(event: TimelineEvent, scope: Scope) {
    event.session == scope.session && event.generation == scope.generation
  }

  /** JSON text of an event as UTF-8 bytes, and the strict parser that reads it back. */
  datatype Codec = Codec(serialize: TimelineEvent -> seq<byte>, parse: seq<byte> -> Option<TimelineEvent>) {

    function Size(event: TimelineEvent): nat { |serialize(event)| }

    ghost predicate Lossless() {
      forall e :: |serialize(e)| > 0 && parse(serialize(e)) == Some(e)
    }
  }
}
