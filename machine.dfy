/**
 * The processor's state and what one line does to it, as functions: the
 * specification the `Processor` class is proved against, and the place where
 * properties spanning several lines are stated.
 *
 * The state is the two process-wide variables of main.go:62-63: the open
 * tool-input accumulators by content-block index, and the last assistant text.
 */
module Machine {
  import opened Wrappers
  import opened Json
  import opened Events
  import opened Render

  datatype State = State(toolInputs: map<int, string>, lastAssistantText: string)

  /** Both variables as the program starts (main.go:62-63). */
  const Initial := State(map[], "")

  const BlockStart := "content_block_start"
  const BlockDelta := "content_block_delta"
  const BlockStop := "content_block_stop"
  const ToolUse := "tool_use"
  const TextDelta := "text_delta"
  const InputJsonDelta := "input_json_delta"
  const TextItem := "text"

  // ---------------------------------------------------------------------------
  // Streamed deltas: handleStreamEvent (main.go:115-144)

  predicate IsToolStart(ev: StreamEvent) {
    ev.typ == BlockStart && ev.contentBlock.Some? && ev.contentBlock.value.typ == ToolUse
  }

  predicate IsTextDelta(ev: StreamEvent) {
    ev.typ == BlockDelta && ev.delta.Some? && ev.delta.value.typ == TextDelta
  }

  predicate IsJsonDelta(ev: StreamEvent) {
    ev.typ == BlockDelta && ev.delta.Some? && ev.delta.value.typ == InputJsonDelta
  }

  predicate IsStop(ev: StreamEvent) {
    ev.typ == BlockStop
  }

  /** The accumulators after one nested stream event. */
  function StreamInputs(inputs: map<int, string>, ev: StreamEvent): (r: map<int, string>)
    // no index other than the event's own is ever touched
    ensures r - {ev.index} == inputs - {ev.index}
    // a tool_use start opens an empty accumulator, replacing any open one
    ensures IsToolStart(ev) ==> ev.index in r && r[ev.index] == ""
    // a partial-JSON fragment is appended to an open accumulator, exactly
    ensures IsJsonDelta(ev) && ev.index in inputs ==>
              ev.index in r && r[ev.index] == inputs[ev.index] + ev.delta.value.partialJson
    // a stop closes the accumulator
    ensures IsStop(ev) ==> ev.index !in r
    // without an open accumulator, only a tool_use start changes anything
    ensures ev.index !in inputs && !IsToolStart(ev) ==> r == inputs
    // text, other block kinds and other event kinds change nothing
    ensures !IsToolStart(ev) && !IsJsonDelta(ev) && !IsStop(ev) ==> r == inputs
  {
    if ev.typ == BlockStart then
      if ev.contentBlock.Some? && ev.contentBlock.value.typ == ToolUse then inputs[ev.index := ""] else inputs
    else if ev.typ == BlockDelta then
      if ev.delta.Some? && ev.delta.value.typ == InputJsonDelta && ev.index in inputs
      then inputs[ev.index := inputs[ev.index] + ev.delta.value.partialJson]
      else inputs
    else if ev.typ == BlockStop then
      if ev.index in inputs then inputs - {ev.index} else inputs
    else
      inputs
  }

  /** What one nested stream event prints. */
  function StreamOutput(inputs: map<int, string>, ev: StreamEvent, parse: ObjectParser): (r: seq<Out>)
    ensures IsToolStart(ev) ==> r == [ToolHeader(ev.contentBlock.value.name)]
    ensures IsTextDelta(ev) ==> r == [Streamed(ev.delta.value.text)]
    ensures IsStop(ev) && ev.index in inputs ==> r == PrettyParams(parse, inputs[ev.index])
    // nothing else prints: in particular a stop for an absent index is silent
    ensures r != [] ==> IsToolStart(ev) || IsTextDelta(ev) || (IsStop(ev) && ev.index in inputs)
  {
    if ev.typ == BlockStart then
      if ev.contentBlock.Some? && ev.contentBlock.value.typ == ToolUse
      then [ToolHeader(ev.contentBlock.value.name)]
      else []
    else if ev.typ == BlockDelta then
      if ev.delta.Some? && ev.delta.value.typ == TextDelta then [Streamed(ev.delta.value.text)] else []
    else if ev.typ == BlockStop then
      if ev.index in inputs then PrettyParams(parse, inputs[ev.index]) else []
    else
      []
  }

  // ---------------------------------------------------------------------------
  // Complete assistant turns: handleAssistant (main.go:146-169)

  /** What one content item contributes to the turn's text. */
  function ItemText(item: AssistantContent): string {
    if item.typ == TextItem then item.text else ""
  }

  /** The `text` items of a turn, concatenated in order without separator. */
  function TextOf(content: seq<AssistantContent>): string {
    if content == [] then "" else TextOf(content[..|content| - 1]) + ItemText(content[|content| - 1])
  }

  lemma {:induction false} TextOfAppend(a: seq<AssistantContent>, b: seq<AssistantContent>)
    ensures TextOf(a + b) == TextOf(a) + TextOf(b)
    decreases |b|
  {
    if b == [] {
      assert a + b == a;
    } else {
      var n := |b| - 1;
      assert (a + b)[..|a + b| - 1] == a + b[..n];
      TextOfAppend(a, b[..n]);
    }
  }

  /** A turn's text is empty exactly when none of its `text` items has any text. */
  lemma {:induction false} TextOfEmpty(content: seq<AssistantContent>)
    ensures TextOf(content) == "" <==> forall k :: 0 <= k < |content| ==> ItemText(content[k]) == ""
  {
    if content != [] {
      var n := |content| - 1;
      TextOfEmpty(content[..n]);
      assert forall k :: 0 <= k < n ==> content[..n][k] == content[k];
    }
  }

  /** A turn's text is non-empty exactly when some `text` item carries text. */
  predicate HasText(content: seq<AssistantContent>) {
    exists k :: 0 <= k < |content| && content[k].typ == TextItem && content[k].text != ""
  }

  /** The last assistant text after a turn. */
  function AssistantText(env: AssistantEnvelope, last: string): (r: string)
    // a remembered text is never replaced by an empty one
    ensures last != "" ==> r != ""
    ensures env.message.None? && env.error != "" ==> r == env.error
    ensures env.message.None? && env.error == "" ==> r == last
    ensures env.message.Some? && HasText(env.message.value.content) ==> r == TextOf(env.message.value.content)
    ensures env.message.Some? && !HasText(env.message.value.content) ==> r == last
  {
    match env.message
    case None => if env.error != "" then env.error else last
    case Some(msg) =>
      TextOfEmpty(msg.content);
      var text := TextOf(msg.content);
      if text != "" then text else last
  }

  /** What a turn prints: only an error that comes without a message. */
  function AssistantOutput(env: AssistantEnvelope): (r: seq<Out>)
    ensures r != [] <==> env.message.None? && env.error != ""
    ensures r != [] ==> r == [ErrorLine(env.error)]
  {
    if env.message.None? && env.error != "" then [ErrorLine(env.error)] else []
  }

  // ---------------------------------------------------------------------------
  // Final result: handleResult (main.go:171-185)

  /** The message a failed result reports: its result text, else its error text. */
  function ChosenMessage(res: ResultEvent): string {
    if res.result != "" then res.result else res.error
  }

  /** What a result prints, given the last assistant text. */
  function ResultOutput(res: ResultEvent, last: string): (r: seq<Out>)
    ensures r != [] <==> res.isError && ChosenMessage(res) != "" && ChosenMessage(res) != last
    ensures r != [] ==> r == [ErrorLine(ChosenMessage(res))]
    // the text already on screen is never printed again
    ensures ErrorLine(last) !in r
  {
    if res.isError then
      var msg := ChosenMessage(res);
      if msg != "" && msg != last then [ErrorLine(msg)] else []
    else
      []
  }

  // ---------------------------------------------------------------------------
  // One line, and the read loop (main.go:85-110)

  function StepState(s: State, line: Line): (r: State)
    ensures Route(line).Ignore? ==> r == s
    ensures Route(line).ToResult? ==> r == s
    ensures Route(line).ToStream? ==>
              r == s.(toolInputs := StreamInputs(s.toolInputs, Route(line).event))
    ensures Route(line).ToAssistant? ==>
              r == s.(lastAssistantText := AssistantText(Route(line).env, s.lastAssistantText))
  {
    match Route(line)
    case Ignore => s
    case ToStream(ev) => s.(toolInputs := StreamInputs(s.toolInputs, ev))
    case ToAssistant(env) => s.(lastAssistantText := AssistantText(env, s.lastAssistantText))
    case ToResult(_) => s
  }

  function StepOutput(s: State, line: Line, parse: ObjectParser): (r: seq<Out>)
    ensures Route(line).Ignore? ==> r == []
    ensures Route(line).ToStream? ==> r == StreamOutput(s.toolInputs, Route(line).event, parse)
    ensures Route(line).ToAssistant? ==> r == AssistantOutput(Route(line).env)
    // a result is compared with the text remembered before its own line
    ensures Route(line).ToResult? ==> r == ResultOutput(Route(line).res, s.lastAssistantText)
  {
    match Route(line)
    case Ignore => []
    case ToStream(ev) => StreamOutput(s.toolInputs, ev, parse)
    case ToAssistant(env) => AssistantOutput(env)
    case ToResult(res) => ResultOutput(res, s.lastAssistantText)
  }

  /** The state after the lines in order. */
  function RunState(s: State, lines: seq<Line>): State {
    if lines == [] then s else StepState(RunState(s, lines[..|lines| - 1]), lines[|lines| - 1])
  }

  /** Everything the lines print, in order. */
  function RunOutput(s: State, lines: seq<Line>, parse: ObjectParser): seq<Out> {
    if lines == [] then []
    else RunOutput(s, lines[..|lines| - 1], parse)
         + StepOutput(RunState(s, lines[..|lines| - 1]), lines[|lines| - 1], parse)
  }

  /** Running two batches of lines is running their concatenation. */
  lemma {:induction false} RunAppend(s: State, a: seq<Line>, b: seq<Line>, parse: ObjectParser)
    ensures RunState(s, a + b) == RunState(RunState(s, a), b)
    ensures RunOutput(s, a + b, parse) == RunOutput(s, a, parse) + RunOutput(RunState(s, a), b, parse)
    decreases |b|
  {
    if b == [] {
      assert a + b == a;
    } else {
      var n := |b| - 1;
      assert (a + b)[..|a + b| - 1] == a + b[..n];
      RunAppend(s, a, b[..n], parse);
    }
  }

  /** Running one line is one step. */
  lemma RunOne(s: State, line: Line, parse: ObjectParser)
    ensures RunState(s, [line]) == StepState(s, line)
    ensures RunOutput(s, [line], parse) == StepOutput(s, line, parse)
  {
    assert [line][..0] == [];
  }

  /** Blank, malformed and unknown lines, however many, change nothing and print nothing. */
  lemma {:induction false} IgnoredLinesInert(s: State, lines: seq<Line>, parse: ObjectParser)
    requires forall k :: 0 <= k < |lines| ==> Route(lines[k]) == Ignore
    ensures RunState(s, lines) == s
    ensures RunOutput(s, lines, parse) == []
  {
    if lines != [] {
      var n := |lines| - 1;
      assert forall k :: 0 <= k < n ==> lines[..n][k] == lines[k];
      IgnoredLinesInert(s, lines[..n], parse);
    }
  }

  // ---------------------------------------------------------------------------
  // One tool call, streamed

  function StreamLine(ev: StreamEvent): Line {
    Envelope(StreamTag, StreamBody(Some(ev)))
  }

  function ToolStartLine(index: int, name: string): Line {
    StreamLine(StreamEvent(BlockStart, index, None, Some(ContentBlock(ToolUse, name))))
  }

  function JsonDeltaLine(index: int, fragment: string): Line {
    StreamLine(StreamEvent(BlockDelta, index, Some(Delta(InputJsonDelta, "", fragment)), None))
  }

  function StopLine(index: int): Line {
    StreamLine(StreamEvent(BlockStop, index, None, None))
  }

  function JsonDeltaLines(index: int, fragments: seq<string>): seq<Line> {
    if fragments == [] then []
    else JsonDeltaLines(index, fragments[..|fragments| - 1]) + [JsonDeltaLine(index, fragments[|fragments| - 1])]
  }

  /** The fragments joined in order. */
  function Concat(fragments: seq<string>): string {
    if fragments == [] then "" else Concat(fragments[..|fragments| - 1]) + fragments[|fragments| - 1]
  }

  lemma StepToolStart(s: State, index: int, name: string, parse: ObjectParser)
    ensures StepState(s, ToolStartLine(index, name)) == s.(toolInputs := s.toolInputs[index := ""])
    ensures StepOutput(s, ToolStartLine(index, name), parse) == [ToolHeader(name)]
  {
  }

  lemma StepJsonDelta(s: State, index: int, fragment: string, parse: ObjectParser)
    requires index in s.toolInputs
    ensures StepState(s, JsonDeltaLine(index, fragment))
            == s.(toolInputs := s.toolInputs[index := s.toolInputs[index] + fragment])
    ensures StepOutput(s, JsonDeltaLine(index, fragment), parse) == []
  {
  }

  lemma StepStop(s: State, index: int, parse: ObjectParser)
    requires index in s.toolInputs
    ensures StepState(s, StopLine(index)) == s.(toolInputs := s.toolInputs - {index})
    ensures StepOutput(s, StopLine(index), parse) == PrettyParams(parse, s.toolInputs[index])
  {
  }

  /** Running lines is running all but the last, then the last. */
  lemma RunSnoc(s: State, init: seq<Line>, line: Line, parse: ObjectParser)
    ensures RunState(s, init + [line]) == StepState(RunState(s, init), line)
    ensures RunOutput(s, init + [line], parse) == RunOutput(s, init, parse) + StepOutput(RunState(s, init), line, parse)
  {
    var lines := init + [line];
    assert lines[..|lines| - 1] == init;
  }

  lemma JsonDeltaLinesSnoc(index: int, fragments: seq<string>, fragment: string)
    ensures JsonDeltaLines(index, fragments + [fragment]) == JsonDeltaLines(index, fragments) + [JsonDeltaLine(index, fragment)]
  {
    var all := fragments + [fragment];
    assert all[..|all| - 1] == fragments;
  }

  lemma ConcatSnoc(fragments: seq<string>, fragment: string)
    ensures Concat(fragments + [fragment]) == Concat(fragments) + fragment
  {
    var all := fragments + [fragment];
    assert all[..|all| - 1] == fragments;
  }

  lemma UpdateTwice(m: map<int, string>, k: int, a: string, b: string)
    ensures m[k := a][k := b] == m[k := b]
  {
  }

  lemma RemoveUpdated(m: map<int, string>, k: int, a: string)
    ensures m[k := a] - {k} == m - {k}
  {
  }

  lemma SplitLast<T>(xs: seq<T>)
    requires xs != []
    ensures xs[..|xs| - 1] + [xs[|xs| - 1]] == xs
  {
  }

  lemma AppendAssociates(a: string, b: string, c: string)
    ensures a + b + c == a + (b + c)
  {
  }

  /** The accumulator after `fragments` have been sent to an open one at `index`. */
  function Accumulated(s: State, index: int, fragments: seq<string>): State
    requires index in s.toolInputs
  {
    s.(toolInputs := s.toolInputs[index := s.toolInputs[index] + Concat(fragments)])
  }

  /** One more fragment extends the accumulated text by exactly that fragment. */
  lemma AccumulateStep(s: State, index: int, fragments: seq<string>, fragment: string, parse: ObjectParser)
    requires index in s.toolInputs
    requires RunState(s, JsonDeltaLines(index, fragments)) == Accumulated(s, index, fragments)
    requires RunOutput(s, JsonDeltaLines(index, fragments), parse) == []
    ensures RunState(s, JsonDeltaLines(index, fragments + [fragment])) == Accumulated(s, index, fragments + [fragment])
    ensures RunOutput(s, JsonDeltaLines(index, fragments + [fragment]), parse) == []
  {
    var line := JsonDeltaLine(index, fragment);
    var init := JsonDeltaLines(index, fragments);
    JsonDeltaLinesSnoc(index, fragments, fragment);
    RunSnoc(s, init, line, parse);
    var prev := Accumulated(s, index, fragments);
    StepJsonDelta(prev, index, fragment, parse);
    ConcatSnoc(fragments, fragment);
    AppendAssociates(s.toolInputs[index], Concat(fragments), fragment);
    UpdateTwice(s.toolInputs, index, prev.toolInputs[index], prev.toolInputs[index] + fragment);
  }

  /** Fragments sent to an open accumulator end up in it, in order, and print nothing. */
  lemma {:induction false} FragmentsAccumulate(s: State, index: int, fragments: seq<string>, parse: ObjectParser)
    requires index in s.toolInputs
    ensures RunState(s, JsonDeltaLines(index, fragments)) == Accumulated(s, index, fragments)
    ensures RunOutput(s, JsonDeltaLines(index, fragments), parse) == []
  {
    if fragments == [] {
      assert s.toolInputs[index] + "" == s.toolInputs[index];
      assert s.toolInputs[index := s.toolInputs[index]] == s.toolInputs;
    } else {
      var n := |fragments| - 1;
      FragmentsAccumulate(s, index, fragments[..n], parse);
      AccumulateStep(s, index, fragments[..n], fragments[n], parse);
      SplitLast(fragments);
    }
  }

  /** A tool_use start and its fragments leave the joined fragments open at the index. */
  lemma OpenAndFill(s: State, index: int, name: string, fragments: seq<string>, parse: ObjectParser)
    ensures RunState(s, [ToolStartLine(index, name)] + JsonDeltaLines(index, fragments))
            == s.(toolInputs := s.toolInputs[index := Concat(fragments)])
    ensures RunOutput(s, [ToolStartLine(index, name)] + JsonDeltaLines(index, fragments), parse)
            == [ToolHeader(name)]
  {
    var start := [ToolStartLine(index, name)];
    var deltas := JsonDeltaLines(index, fragments);
    var joined := Concat(fragments);
    RunOne(s, ToolStartLine(index, name), parse);
    StepToolStart(s, index, name, parse);
    var s1 := s.(toolInputs := s.toolInputs[index := ""]);
    FragmentsAccumulate(s1, index, fragments, parse);
    RunAppend(s, start, deltas, parse);
    assert "" + joined == joined;
    UpdateTwice(s.toolInputs, index, "", joined);
  }

  /**
   * A tool call streamed as a tool_use start, its partial-JSON fragments and a
   * stop, all for one index, prints its header and then the parameters decoded
   * from the joined fragments, and leaves no accumulator behind for that index
   * while every other accumulator is as it was.
   */
  lemma ToolCallRoundTrip(s: State, index: int, name: string, fragments: seq<string>, parse: ObjectParser)
    ensures RunState(s, [ToolStartLine(index, name)] + JsonDeltaLines(index, fragments) + [StopLine(index)])
            == s.(toolInputs := s.toolInputs - {index})
    ensures RunOutput(s, [ToolStartLine(index, name)] + JsonDeltaLines(index, fragments) + [StopLine(index)], parse)
            == [ToolHeader(name)] + PrettyParams(parse, Concat(fragments))
  {
    var upToStop := [ToolStartLine(index, name)] + JsonDeltaLines(index, fragments);
    var joined := Concat(fragments);
    OpenAndFill(s, index, name, fragments, parse);
    var s2 := s.(toolInputs := s.toolInputs[index := joined]);
    RunSnoc(s, upToStop, StopLine(index), parse);
    StepStop(s2, index, parse);
    RemoveUpdated(s.toolInputs, index, joined);
  }

  /**
   * Tool calls may interleave: lines addressed to other indices, and lines that
   * are not stream events at all, leave the accumulator at `index` as it was,
   * whether open or not.
   */
  lemma {:induction false} OtherIndicesLeaveEntry(s: State, lines: seq<Line>, index: int)
    requires forall k :: 0 <= k < |lines| && Route(lines[k]).ToStream? ==> Route(lines[k]).event.index != index
    ensures index in RunState(s, lines).toolInputs <==> index in s.toolInputs
    ensures index in s.toolInputs ==> RunState(s, lines).toolInputs[index] == s.toolInputs[index]
  {
    if lines != [] {
      var n := |lines| - 1;
      assert forall k :: 0 <= k < n ==> lines[..n][k] == lines[k];
      OtherIndicesLeaveEntry(s, lines[..n], index);
      var prev := RunState(s, lines[..n]).toolInputs;
      var next := RunState(s, lines).toolInputs;
      match Route(lines[n])
      case ToStream(ev) =>
        assert next - {ev.index} == prev - {ev.index};
        assert index in next <==> index in next - {ev.index};
        assert index in prev <==> index in prev - {ev.index};
      case _ =>
        assert next == prev;
    }
  }

  // ---------------------------------------------------------------------------
  // Suppressing an error already shown

  function AssistantLine(env: AssistantEnvelope): Line {
    Envelope(AssistantTag, AssistantBody(env))
  }

  function ResultLine(res: ResultEvent): Line {
    Envelope(ResultTag, ResultBody(res))
  }

  /**
   * A failed result whose message is the text the preceding turn ended with is
   * not printed again; a different non-empty message is printed once.
   */
  lemma ResultAfterTurn(s: State, turn: seq<AssistantContent>, res: ResultEvent, parse: ObjectParser)
    requires HasText(turn) && res.isError
    ensures var lines := [AssistantLine(AssistantEnvelope(Some(AssistantMessage(turn)), "")), ResultLine(res)];
            RunOutput(s, lines, parse)
            == if ChosenMessage(res) == TextOf(turn) || ChosenMessage(res) == "" then [] else [ErrorLine(ChosenMessage(res))]
  {
    var env := AssistantEnvelope(Some(AssistantMessage(turn)), "");
    RunAppend(s, [AssistantLine(env)], [ResultLine(res)], parse);
    RunOne(s, AssistantLine(env), parse);
    var s1 := StepState(s, AssistantLine(env));
    RunOne(s1, ResultLine(res), parse);
    assert s1.lastAssistantText == TextOf(turn);
  }

  /**
   * An error reported in place of a turn is printed then, and a failed result
   * carrying the same error afterwards is not printed a second time.
   */
  lemma ErrorShownOnce(s: State, error: string, parse: ObjectParser)
    requires error != ""
    ensures var lines := [AssistantLine(AssistantEnvelope(None, error)), ResultLine(ResultEvent(true, "", error))];
            RunOutput(s, lines, parse) == [ErrorLine(error)]
  {
    var env := AssistantEnvelope(None, error);
    var res := ResultEvent(true, "", error);
    RunAppend(s, [AssistantLine(env)], [ResultLine(res)], parse);
    RunOne(s, AssistantLine(env), parse);
    RunOne(StepState(s, AssistantLine(env)), ResultLine(res), parse);
  }
}
