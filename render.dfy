/**
 * What the processor writes to the terminal, as values rather than bytes, and
 * the pretty-printer for a finished tool call's parameters
 * (`printPrettyParams` and `printMapItem`, main.go:187-253).
 *
 * ANSI escape constants (main.go:66-78) are opaque style tokens.  Go map
 * iteration order is unspecified, so the rendering of an object is itself a
 * map keyed like the object: the model makes no claim about key order.
 */
module Render {
  import opened Wrappers
  import opened Json

  /** The styles a checklist glyph and its text may carry. */
  datatype Style = Green | Cyan | Dim

  /** The status glyphs: a check mark, an arrow and an open circle. */
  datatype Glyph = Check | Arrow | OpenCircle

  /** One `key=value` pair of a generic list item: a string (green) or anything else (`%v`, magenta). */
  datatype Pair = StrPair(s: string) | OtherPair(v: Value)

  /** One line under a list-valued parameter. */
  datatype Item =
    | Checklist(glyph: Glyph, style: Style, content: string)
    | KeyValues(pairs: map<string, Pair>)
    | Literal(v: Value)

  /** The value part of one `key: value` parameter line. */
  datatype Field =
    | StrField(s: string)
    | ListField(items: seq<Item>)
    | Marshalled(v: Value)

  /** One piece of terminal output. */
  datatype Out =
    | ToolHeader(name: string)                  // "[Tool: name]" on its own line
    | Streamed(text: string)                    // text written as is, no newline
    | ErrorLine(msg: string)                    // msg in red, then a newline
    | ParamsBlock(fields: map<string, Field>)   // one "key: value" line per parameter; no bytes when empty

  const Completed := "completed"
  const InProgress := "in_progress"
  const ContentKey := "content"
  const StatusKey := "status"

  /** Glyph and colour of a checklist status (main.go:220-231). */
  function StatusMark(status: string): (r: (Glyph, Style))
    ensures r.0 == Check <==> status == Completed
    ensures r.0 == Arrow <==> status == InProgress
    ensures r.0 == Check <==> r.1 == Green
    ensures r.0 == Arrow <==> r.1 == Cyan
  {
    if status == Completed then (Check, Green)
    else if status == InProgress then (Arrow, Cyan)
    else (OpenCircle, Dim)
  }

  /** `m[key].(string)` with the comma-ok form: "" when missing or not a string. */
  function StringAt(m: map<string, Value>, key: string): (s: string)
    ensures s != "" ==> key in m && m[key] == Str(s)
    ensures key in m && m[key].Str? ==> s == m[key].s
    ensures !(key in m && m[key].Str?) ==> s == ""
  {
    if key in m && m[key].Str? then m[key].s else ""
  }

  /** `printMapItem` (main.go:214-253): a checklist line when `content` is present, else the pairs. */
  function RenderMapItem(m: map<string, Value>): (r: Item)
    ensures r.Checklist? <==> ContentKey in m
    ensures r.Checklist? ==> r.content == StringAt(m, ContentKey)
    ensures r.Checklist? ==> (r.glyph, r.style) == StatusMark(StringAt(m, StatusKey))
    ensures ContentKey in m && !m[ContentKey].Str? ==> r.Checklist? && r.content == ""
    ensures ContentKey in m && (StatusKey !in m || !m[StatusKey].Str?) ==> r == Checklist(OpenCircle, Dim, r.content)
    ensures r.KeyValues? ==> r.pairs.Keys == m.Keys
    ensures r.KeyValues? ==> forall k :: k in r.pairs ==>
      match r.pairs[k]
      case StrPair(s) => m[k] == Str(s)
      case OtherPair(v) => v == m[k] && !v.Str?
    ensures !r.Literal?
  {
    if ContentKey in m then
      var (glyph, style) := StatusMark(StringAt(m, StatusKey));
      Checklist(glyph, style, StringAt(m, ContentKey))
    else
      KeyValues(map k | k in m :: if m[k].Str? then StrPair(m[k].s) else OtherPair(m[k]))
  }

  /** One element of a list-valued parameter (main.go:200-204). */
  function RenderEntry(v: Value): (r: Item)
    ensures r.Literal? <==> !v.Obj?
    ensures v.Obj? ==> r == RenderMapItem(v.fields)
    ensures r.Literal? ==> r.v == v
  {
    if v.Obj? then RenderMapItem(v.fields) else Literal(v)
  }

  /** The value of one parameter (main.go:195-210). */
  function RenderField(v: Value): (r: Field)
    ensures r.StrField? <==> v.Str?
    ensures v.Str? ==> r == StrField(v.s)
    ensures r.ListField? <==> v.Arr?
    ensures r.ListField? ==> |r.items| == |v.items| && forall k :: 0 <= k < |v.items| ==> r.items[k] == RenderEntry(v.items[k])
    ensures r.Marshalled? ==> r.v == v
  {
    match v
    case Str(s) => StrField(s)
    case Arr(items) => ListField(seq(|items|, k requires 0 <= k < |items| => RenderEntry(items[k])))
    case _ => Marshalled(v)
  }

  /** The whole object, one rendered field per key, in no particular order (main.go:193-211). */
  function RenderParams(params: map<string, Value>): (r: map<string, Field>)
    ensures r.Keys == params.Keys
    ensures forall k :: k in r ==> r[k] == RenderField(params[k])
  {
    map k | k in params :: RenderField(params[k])
  }

  /**
   * `printPrettyParams` (main.go:187-212): text that does not decode as an
   * object prints nothing at all; otherwise one block covering every key.
   */
  function PrettyParams(parse: ObjectParser, text: string): (r: seq<Out>)
    ensures r == [] <==> parse(text).None?
    ensures r != [] ==> r == [ParamsBlock(RenderParams(parse(text).value))]
  {
    match parse(text)
    case None => []
    case Some(params) => [ParamsBlock(RenderParams(params))]
  }
}
