# pretty-claude-stream, modelled in Dafny

`pretty-claude-stream` reads a stream of JSON events, one per line, from an
assistant process and prints a live, colour-annotated transcript. This project
models the program's core, `main.go`:

- the read loop's dispatch of each line on its `type` (`stream_event`,
  `assistant`, `result`; anything else, empty lines and undecodable lines are
  ignored);
- the streamed-delta state machine (`handleStreamEvent`). A `tool_use` block
  start opens an empty accumulator for its content-block index.
  `input_json_delta` fragments are appended to an open accumulator. A
  `text_delta` is written straight out. A `content_block_stop` pretty-prints the
  accumulated parameters and deletes the accumulator;
- the assistant-turn handler (`handleAssistant`). It joins a turn's `text` items
  and, when that is non-empty, remembers it as the last assistant text. An error that arrives in
  place of a message is printed and remembered;
- the result handler (`handleResult`). It prints a failed result's message
  unless that message is empty or equals the remembered text;
- the pretty-printer for a finished tool call's parameters (`printPrettyParams`,
  `printMapItem`), including the checklist glyph and colour for `status`.

Layout:

- `wrappers.dfy`: `Option`.
- `json.dfy`: decoded JSON values, and the decoder's type.
- `events.dfy`: the decoded wire schema, the decoded `Line`, and `Route`, which
  is the dispatch switch.
- `render.dfy`: output as values (`Out`) and the pretty-printer.
- `machine.dfy`: the state (`toolInputs`, `lastAssistantText`), one function per
  handler giving the new state and the output, the fold over a whole input, and
  the lemmas that span several lines.
- `processor.dfy`: the class `StreamProcessor`. It holds both variables and the
  output log as fields. Its handler methods update those fields in place, and
  each method is proved against the matching `machine.dfy` function. The module
  also has the loop that joins a turn's text items.

JSON decoding is outside the model, so a line arrives already decoded
(`Blank`, `Malformed`, or `Envelope(tag, body)`). Decoding the accumulated tool
input is a function parameter `parse: string -> Option<map<string, Value>>`. A
`None` result is input that is not a complete JSON object.

Three behaviours of the code that the model keeps:

- On `content_block_stop` the accumulator is deleted even when its text does
  not decode (main.go:139-141).
- A second `tool_use` start for an index that is still open replaces its
  accumulator with an empty one (main.go:125).
- The checklist form of a list item is chosen whenever a `content` key is
  present, whatever its value (main.go:216-218). A non-string `content` then
  prints as empty text.

## Model

| member | source | states |
|---|---|---|
| `Events.Route` | main.go:85-109 | Empty and undecodable lines, and lines whose `type` is not one of the three handled ones, route to no handler. A line goes to the stream, assistant or result handler exactly when it carries that tag and its body decoded as that handler's struct. |
| `Render.StatusMark` | main.go:220-231 | `completed` gives the check glyph, and only it does. `in_progress` gives the arrow, and only it does. Anything else gives the open circle. The colour goes with the glyph: check is green, arrow is cyan, circle is dim. |
| `Render.StringAt` | main.go:217-218 | The comma-ok string assertion: a key holding a string gives that string; a missing key or a non-string value gives the empty string. |
| `Render.RenderMapItem` | main.go:214-253 | A list item that is an object renders as a checklist line exactly when it has a `content` key. The text is `content` when that is a string, and empty otherwise. A missing or non-string `status` gives the open circle in dim. Otherwise every key is rendered as a pair, with strings kept as strings and all other values kept as they are. |
| `Render.RenderEntry` | main.go:201-205 | An object list element renders exactly as the item formatter renders its fields. Any other element is printed as a literal value. |
| `Render.RenderField` | main.go:195-210 | A string parameter prints as that same string. A list prints one entry per element, in order. Anything else is re-serialised. |
| `Render.RenderParams` | main.go:193-211 | Every parameter key, and no other key, gets one rendered field. Key order is not modelled. |
| `Render.PrettyParams` | main.go:187-212 | Text that does not decode as an object prints nothing at all. Otherwise it prints one block for the whole object; the block of an empty object prints no bytes. |
| `Machine.StreamInputs` | main.go:121-143 | No index other than the event's own is touched. A `tool_use` start leaves an empty accumulator, replacing any open one. An `input_json_delta` on an open index appends exactly its fragment. A stop leaves the index closed. Without an open accumulator, only a `tool_use` start changes anything. Text deltas, other block kinds and other event kinds change nothing. |
| `Machine.StreamOutput` | main.go:121-143 | A `tool_use` start prints its header. A `text_delta` prints exactly its text and nothing more. A stop on an open index prints the decoded parameters. Nothing else prints. In particular, a stop for an index with no accumulator prints nothing. |
| `Machine.TextOfAppend` | main.go:160-165 | Joining the text items of two runs of content gives the two joined texts in order. |
| `Machine.TextOfEmpty` | main.go:160-166 | A turn's joined text is empty exactly when none of its `text` items carries text. |
| `Machine.AssistantText` | main.go:152-168 | A turn with text items that carry text replaces the last assistant text with their concatenation. A turn whose text items carry none leaves it unchanged. With no message, a non-empty error replaces it, and an empty error leaves it unchanged. A remembered non-empty text is never cleared. |
| `Machine.AssistantOutput` | main.go:152-158 | A turn prints something exactly when it has no message and a non-empty error. It then prints that error. |
| `Machine.ResultOutput` | main.go:176-184 | A result prints exactly when it is flagged as an error and its chosen message is non-empty and differs from the last assistant text. The chosen message is the result text, else the error text. The remembered text is never printed again. |
| `Machine.StepState` | main.go:98-109 | An ignored line, and a result line, leave the state as it was. A stream line changes only the accumulators. An assistant line changes only the last text. |
| `Machine.StepOutput` | main.go:98-109 | An ignored line prints nothing. A stream line prints what its event prints given the open accumulators; an assistant line prints what its turn prints; a result line prints what the result prints when compared with the text remembered before that line. |
| `Machine.RunAppend` | main.go:85-110 | Processing two batches of lines one after the other is the same as processing their concatenation, in state and in output. |
| `Machine.IgnoredLinesInert` | main.go:86-109 | Any number of blank, undecodable or unknown lines leave the state unchanged and print nothing. |
| `Machine.FragmentsAccumulate` | main.go:132-135 | Fragments f1..fn sent to an open accumulator leave it holding its old text followed by f1+…+fn. They print nothing. |
| `Machine.OpenAndFill` | main.go:122-135 | A `tool_use` start followed by its fragments leaves exactly the joined fragments at that index. It prints only the tool header. |
| `Machine.ToolCallRoundTrip` | main.go:122-142 | A start, its fragments and a stop on one index print the header and then the parameters decoded from the joined fragments. No entry is left at that index, and every other accumulator is as it was. |
| `Machine.OtherIndicesLeaveEntry` | main.go:121-143 | Lines addressed to other indices, and non-stream lines, leave an index's accumulator as it was: open with the same text, or absent. |
| `Machine.ResultAfterTurn` | main.go:160-183 | After a turn with text, a failed result prints nothing when its message equals that text or is empty. Otherwise it prints its message once. |
| `Machine.ErrorShownOnce` | main.go:152-183 | An error reported in place of a turn is printed. A failed result that carries the same error is then not printed again. |
| `Processor.JoinTextItems` | main.go:160-165 | The loop returns the concatenation of the `text` items, in order. |
| `Processor.StreamProcessor.constructor` | main.go:62-63 | The program starts with no accumulators, an empty last text and no output. |
| `Processor.StreamProcessor.HandleStreamEvent` | main.go:115-144 | Updates the accumulator map in place to `StreamInputs` of the old map. Appends `StreamOutput` to the output. Leaves the last text unchanged. |
| `Processor.StreamProcessor.HandleAssistant` | main.go:146-169 | Sets the last text to `AssistantText` of the old one. Appends `AssistantOutput`. Leaves the accumulators unchanged. |
| `Processor.StreamProcessor.HandleResult` | main.go:171-185 | May change only the output, which grows by `ResultOutput` for the current last text. |
| `Processor.StreamProcessor.ProcessLine` | main.go:86-109 | One iteration of the read loop moves the state by `StepState` and appends `StepOutput`. |
| `Processor.StreamProcessor.ProcessLines` | main.go:85-110 | The read loop over a whole input moves the state by `RunState` and appends `RunOutput`. |

## Left out

- Reading standard input and its buffer sizes (main.go:81-83). An input line over the scanner's 10 MiB limit stops the read loop early; the model reads any number of lines of any length.
- The blank line printed after the input ends (main.go:112).
- JSON decoding (main.go:94, 101, 117, 148, 173, 189). It is a library routine. Lines come pre-decoded, and decoding the tool input is the `parse` parameter. Go decodes JSON numbers to float64, so integers above 2^53 are rounded, and a number prints two ways: under `%v` (main.go:204, 249) `1.0` prints as `1` and 1000000 as `1e+06`, while `json.Marshal` (main.go:208) prints 1000000 as `1000000`. `Number.literal` is the number's literal from the input; neither float64 formatting is modelled.
- Key order when a parameter object or a generic list item is printed (main.go:193, main.go:240). Go map iteration order is unspecified, so these renderings are maps keyed like the object.
- `%v` formatting and `json.Marshal` (main.go:204, 208, 249). These are library routines, so the rendering keeps the value itself (`Literal`, `Marshalled`, `OtherPair`).
- The bytes of the ANSI escape constants and of each printed line (main.go:66-78). Output is a log of `Out` values. Each value stands for one printed piece: a header, a streamed text, an error line, or a whole parameter block.
- Go strings are bytes and the model's strings are characters. Only concatenation, emptiness and equality are used, and they agree for both.
- Accumulators still open when the input ends. They are simply abandoned, as in the source.
