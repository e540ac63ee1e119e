/**
 * The running program: the two process-wide variables of main.go:62-63 as
 * fields of one object, the handlers as methods that update them in place, and
 * the terminal as an output log that the methods extend.  Each method is
 * proved against the `Machine` function describing the same step.
 */
module Processor {
  import opened Wrappers
  import opened Json
  import opened Events
  import opened Render
  import opened Machine

  /** The loop of handleAssistant (main.go:160-165): the `text` items joined in order. */
  method JoinTextItems(content: seq<AssistantContent>) returns (text: string)
    ensures text == TextOf(content)
  {
    text := "";
    for i := 0 to |content|
      invariant text == TextOf(content[..i])
    {
      assert content[..i + 1][..i] == content[..i];
      if content[i].typ == TextItem {
        text := text + content[i].text;
      }
    }
    assert content[..|content|] == content;
  }

  class StreamProcessor {
    /** Open tool-input accumulators by content-block index (`toolInputs`). */
    var toolInputs: map<int, string>
    /** The last non-empty assistant text (`lastAssistantText`). */
    var lastAssistantText: string
    /** Everything written to standard output so far. */
    var output: seq<Out>
    /** The JSON decoder used on a finished tool input. */
    const parse: ObjectParser

    function Snapshot(): State
      reads this
    {
      State(toolInputs, lastAssistantText)
    }

    constructor (parse: ObjectParser)
      ensures Snapshot() == Initial && output == [] && this.parse == parse
    {
      toolInputs := map[];
      lastAssistantText := "";
      output := [];
      this.parse := parse;
    }

    /** handleStreamEvent (main.go:115-144), after its event has decoded. */
    method HandleStreamEvent(ev: StreamEvent)
      modifies this
      ensures toolInputs == StreamInputs(old(toolInputs), ev)
      ensures lastAssistantText == old(lastAssistantText)
      ensures output == old(output) + StreamOutput(old(toolInputs), ev, parse)
    {
      if ev.typ == BlockStart {
        if ev.contentBlock.Some? && ev.contentBlock.value.typ == ToolUse {
          output := output + [ToolHeader(ev.contentBlock.value.name)];
          toolInputs := toolInputs[ev.index := ""];
        }
      } else if ev.typ == BlockDelta {
        if ev.delta.Some? {
          if ev.delta.value.typ == TextDelta {
            output := output + [Streamed(ev.delta.value.text)];
          } else if ev.delta.value.typ == InputJsonDelta {
            if ev.index in toolInputs {
              toolInputs := toolInputs[ev.index := toolInputs[ev.index] + ev.delta.value.partialJson];
            }
          }
        }
      } else if ev.typ == BlockStop {
        if ev.index in toolInputs {
          output := output + PrettyParams(parse, toolInputs[ev.index]);
          toolInputs := toolInputs - {ev.index};
        }
      }
    }

    /** handleAssistant (main.go:146-169), after its envelope has decoded. */
    method HandleAssistant(env: AssistantEnvelope)
      modifies this
      ensures toolInputs == old(toolInputs)
      ensures lastAssistantText == AssistantText(env, old(lastAssistantText))
      ensures output == old(output) + AssistantOutput(env)
    {
      if env.message.None? {
        if env.error != "" {
          output := output + [ErrorLine(env.error)];
          lastAssistantText := env.error;
        }
        return;
      }
      var text := JoinTextItems(env.message.value.content);
      if |text| > 0 {
        lastAssistantText := text;
      }
    }

    /** handleResult (main.go:171-185), after its event has decoded: prints at most, changes nothing. */
    method HandleResult(res: ResultEvent)
      modifies this`output
      ensures output == old(output) + ResultOutput(res, lastAssistantText)
    {
      if res.isError {
        var msg := res.result;
        if msg == "" {
          msg := res.error;
        }
        if msg != "" && msg != lastAssistantText {
          output := output + [ErrorLine(msg)];
        }
      }
    }

    /** One iteration of the read loop in main (main.go:86-109). */
    method ProcessLine(line: Line)
      modifies this
      ensures Snapshot() == StepState(old(Snapshot()), line)
      ensures output == old(output) + StepOutput(old(Snapshot()), line, parse)
    {
      match Route(line)
      case Ignore =>
      case ToStream(ev) => HandleStreamEvent(ev);
      case ToAssistant(env) => HandleAssistant(env);
      case ToResult(res) => HandleResult(res);
    }

    /** The read loop of main (main.go:85-110) over a whole input. */
    method ProcessLines(lines: seq<Line>)
      modifies this
      ensures Snapshot() == RunState(old(Snapshot()), lines)
      ensures output == old(output) + RunOutput(old(Snapshot()), lines, parse)
    {
      for i := 0 to |lines|
        invariant Snapshot() == RunState(old(Snapshot()), lines[..i])
        invariant output == old(output) + RunOutput(old(Snapshot()), lines[..i], parse)
      {
        RunSnoc(old(Snapshot()), lines[..i], lines[i], parse);
        assert lines[..i + 1] == lines[..i] + [lines[i]];
        ProcessLine(lines[i]);
      }
      assert lines[..|lines|] == lines;
    }
  }
}
