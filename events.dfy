/**
 * The wire schema of the event stream (main.go:11-60), already decoded, and
 * the top-level dispatch of one input line (main.go:85-109).
 *
 * JSON decoding itself is not modelled: a line arrives as the outcome of the
 * decodes `main` performs on it.  Discriminators stay strings, so the `switch`
 * statements of the source are modelled on the same string constants.
 */
module Events {
  import opened Wrappers

  /** `ContentBlock` (main.go:54-60); only `type` and `name` are used. */
  datatype ContentBlock = ContentBlock(typ: string, name: string)

  /** `Delta` (main.go:48-52). */
  datatype Delta = Delta(typ: string, text: string, partialJson: string)

  /** `StreamEvent` (main.go:41-46): the nested event of a `stream_event` line. */
  datatype StreamEvent = StreamEvent(
    typ: string,
    index: int,
    delta: Option<Delta>,
    contentBlock: Option<ContentBlock>)

  /** `AssistantContent` (main.go:28-31). */
  datatype AssistantContent = AssistantContent(typ: string, text: string)

  /** `AssistantMessage` (main.go:22-26); only the content items are used. */
  datatype AssistantMessage = AssistantMessage(content: seq<AssistantContent>)

  /** `AssistantEnvelope` (main.go:16-20): a message, or no message and an error. */
  datatype AssistantEnvelope = AssistantEnvelope(message: Option<AssistantMessage>, error: string)

  /** `ResultEvent` (main.go:33-39). */
  datatype ResultEvent = ResultEvent(isError: bool, result: string, error: string)

  /**
   * What decoding the line as the struct its tag selects produced.
   * `StreamBody(None)` is a line that decodes as `Event` but whose nested
   * `event` does not decode as a `StreamEvent` (main.go:117-119).
   */
  datatype Body =
    | Unreadable
    | StreamBody(event: Option<StreamEvent>)
    | AssistantBody(env: AssistantEnvelope)
    | ResultBody(res: ResultEvent)

  /**
   * One input line: empty, not an object with a string `type`, or tagged.
   * An `Envelope` whose body is of another tag's kind (say, tag "assistant"
   * with a `StreamBody`) stands for no input line; it routes to `Ignore`.
   */
  datatype Line =
    | Blank
    | Malformed
    | Envelope(tag: string, body: Body)

  /** The one handler a line is routed to, if any. */
  datatype Action =
    | Ignore
    | ToStream(event: StreamEvent)
    | ToAssistant(env: AssistantEnvelope)
    | ToResult(res: ResultEvent)

  const StreamTag := "stream_event"
  const AssistantTag := "assistant"
  const ResultTag := "result"

  /** The dispatch switch of `main` (main.go:87-109). */
  function Route(line: Line): (a: Action)
    ensures line.Blank? || line.Malformed? ==> a == Ignore
    ensures line.Envelope? && line.tag !in {StreamTag, AssistantTag, ResultTag} ==> a == Ignore
    ensures a.ToStream? <==> line.Envelope? && line.tag == StreamTag && line.body.StreamBody? && line.body.event.Some?
    ensures a.ToStream? ==> a.event == line.body.event.value
    ensures a.ToAssistant? <==> line.Envelope? && line.tag == AssistantTag && line.body.AssistantBody?
    ensures a.ToAssistant? ==> a.env == line.body.env
    ensures a.ToResult? <==> line.Envelope? && line.tag == ResultTag && line.body.ResultBody?
    ensures a.ToResult? ==> a.res == line.body.res
  {
    match line
    case Blank => Ignore
    case Malformed => Ignore
    case Envelope(tag, body) =>
      if tag == StreamTag then
        (if body.StreamBody? && body.event.Some? then ToStream(body.event.value) else Ignore)
      else if tag == AssistantTag then
        (if body.AssistantBody? then ToAssistant(body.env) else Ignore)
      else if tag == ResultTag then
        (if body.ResultBody? then ToResult(body.res) else Ignore)
      else Ignore
  }
}
