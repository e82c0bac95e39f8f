/**
 * The message shapes of the agent library and the two helpers that read an
 * agent's output: `lastAssistantTextMessageContent` (used by the completion
 * hook) and `parseAgentOutput`.
 */
module AgentMessages {
  import opened Wrappers
  import Text

  /** Roles a text message can carry. */
  datatype Role = System | User | Assistant

  /** One element of an array-valued text content: `{ type: "text", text }`. */
  datatype TextPart = TextPart(text: string)

  /** A text message's content: a plain string or an array of parts. */
  datatype Content = Plain(s: string) | Parts(parts: seq<TextPart>)

  /** One `{ path, content }` pair, as the file tools exchange them. */
  datatype FileEntry = FileEntry(path: string, content: string)

  /** The three tools of the code agent, with their validated parameters. */
  datatype ToolCall =
    | Terminal(command: string)
    | CreateOrUpdateFiles(files: seq<FileEntry>)
    | ReadFiles(paths: seq<string>)

  /**
   * An output message: `type: "text"`, `type: "tool_call"` (whose role is
   * always `"assistant"`) or `type: "tool_result"` (role `"tool_result"`).
   */
  datatype Message =
    | TextMessage(role: Role, content: Content)
    | ToolCallMessage(tools: seq<ToolCall>)
    | ToolResultMessage(result: string)

  /** `message.role === "assistant"`. */
  predicate IsAssistant(m: Message)
  {
    match m
    case TextMessage(role, _) => role == Assistant
    case ToolCallMessage(_) => true
    case ToolResultMessage(_) => false
  }

  /** `output.findLastIndex(m => m.role === "assistant")`: -1 when there is none. */
  function FindLastAssistant(output: seq<Message>): (i: int)
    ensures -1 <= i < |output|
    ensures 0 <= i ==> IsAssistant(output[i])
    ensures forall k :: i < k < |output| ==> !IsAssistant(output[k])
  {
    if output == [] then -1
    else if IsAssistant(output[|output| - 1]) then |output| - 1
    else FindLastAssistant(output[..|output| - 1])
  }

  /** The `text` fields of the parts, in order. */
  function Texts(parts: seq<TextPart>): (r: seq<string>)
    ensures |r| == |parts|
    ensures forall k :: 0 <= k < |parts| ==> r[k] == parts[k].text
  {
    if parts == [] then [] else [parts[0].text] + Texts(parts[1..])
  }

  /** String content as is; array content as its parts' texts joined with "". */
  function Flatten(c: Content): (text: string)
    ensures c.Plain? ==> text == c.s
    ensures c.Parts? && c.parts == [] ==> text == ""
    ensures c.Parts? && c.parts != [] ==> c.parts[0].text <= text
  {
    match c
    case Plain(s) => s
    case Parts(parts) => Text.Join(Texts(parts), "")
  }

  /** JavaScript truthiness of `message.content`: "" is falsy, every array is truthy. */
  predicate IsTruthy(c: Content)
  {
    c.Parts? || c.s != ""
  }

  /** What `message?.content ? ... : undefined` yields for one message. */
  function TextOf(m: Message): (r: Option<string>)
    ensures r.Some? <==> m.TextMessage? && IsTruthy(m.content)
    ensures r.Some? ==> r.value == Flatten(m.content)
  {
    match m
    case TextMessage(_, content) => if IsTruthy(content) then Some(Flatten(content)) else None
    case _ => None
  }

  /** `lastAssistantTextMessageContent(result)` over `result.output`. */
  function LastAssistantTextMessageContent(output: seq<Message>): (r: Option<string>)
    ensures r.Some? ==> exists i | 0 <= i < |output| ::
      && output[i].TextMessage? && IsAssistant(output[i]) && IsTruthy(output[i].content)
      && r.value == Flatten(output[i].content)
      && forall k :: i < k < |output| ==> !IsAssistant(output[k])
  {
    var i := FindLastAssistant(output);
    if i < 0 then None else TextOf(output[i])
  }

  /**
   * The helper reads the highest-index assistant message, whichever one
   * that is: `i` is characterised without reference to the search.
   */
  lemma {:induction false} LastAssistantIsHighest(output: seq<Message>, i: int)
    requires 0 <= i < |output| && IsAssistant(output[i])
    requires forall k :: i < k < |output| ==> !IsAssistant(output[k])
    ensures LastAssistantTextMessageContent(output) == TextOf(output[i])
  {
  }

  /** With no assistant message at all, the result is `undefined`. */
  lemma {:induction false} NoAssistantNoText(output: seq<Message>)
    requires forall k :: 0 <= k < |output| ==> !IsAssistant(output[k])
    ensures LastAssistantTextMessageContent(output) == None
  {
  }

  /** Messages that are not the assistant's, appended later, change nothing. */
  lemma {:induction false} IgnoresLaterNonAssistant(output: seq<Message>, later: seq<Message>)
    requires forall k :: 0 <= k < |later| ==> !IsAssistant(later[k])
    ensures LastAssistantTextMessageContent(output + later) == LastAssistantTextMessageContent(output)
  {
    var j := FindLastAssistant(output);
    if j < 0 {
      NoAssistantNoText(output + later);
    } else {
      LastAssistantIsHighest(output + later, j);
    }
  }

  /** Array content is the parts' texts concatenated in order, with nothing between them. */
  lemma {:induction false} FlattenPartsAppend(parts: seq<TextPart>, more: TextPart)
    ensures Flatten(Parts(parts + [more])) == Flatten(Parts(parts)) + more.text
  {
    var ts := Texts(parts + [more]);
    if |parts| > 0 {
      Text.JoinLast(ts, "");
      assert ts[..|ts| - 1] == Texts(parts);
    }
  }

  /** An empty string yields `undefined`; an empty array yields "". */
  lemma EmptyContents(output: seq<Message>)
    ensures LastAssistantTextMessageContent(output + [TextMessage(Assistant, Plain(""))]) == None
    ensures LastAssistantTextMessageContent(output + [TextMessage(Assistant, Parts([]))]) == Some("")
  {
    var a := output + [TextMessage(Assistant, Plain(""))];
    var b := output + [TextMessage(Assistant, Parts([]))];
    LastAssistantIsHighest(a, |a| - 1);
    LastAssistantIsHighest(b, |b| - 1);
  }

  /**
   * `parseAgentOutput(value)` with the array branch joining the parts' texts,
   * as intended (see `ParseAgentOutputAsWritten` for the code as written).
   * Only the first message is consulted; a non-text first message gives `null`.
   */
  function ParseAgentOutput(value: seq<Message>): (r: Option<string>)
    requires |value| > 0
    ensures r.Some? <==> value[0].TextMessage?
    ensures r.Some? ==> r.value == Flatten(value[0].content)
  {
    if !value[0].TextMessage? then None
    else match value[0].content
      case Parts(parts) => Some(Text.Join(Texts(parts), ""))
      case Plain(s) => Some(s)
  }

  /** Later messages never influence `parseAgentOutput`. */
  lemma FirstMessageOnly(m: Message, rest: seq<Message>)
    ensures ParseAgentOutput([m] + rest) == ParseAgentOutput([m])
  {
  }

  /**
   * `String(obj)` for a plain object such as `{ type: "text", text }`, which is
   * what `Array.prototype.join` turns each element into.
   */
  const ObjectString: string := "[object Object]"

  /** The elements of `parts` as `join` renders them: one `ObjectString` each. */
  function AsJoined(parts: seq<TextPart>): (r: seq<string>)
    ensures |r| == |parts|
    ensures forall k :: 0 <= k < |parts| ==> r[k] == ObjectString
  {
    if parts == [] then [] else [ObjectString] + AsJoined(parts[1..])
  }

  /**
   * `parseAgentOutput` as written: the array branch is
   * `content.map((txt) => txt).join("")`, which joins the part objects
   * themselves rather than their `text` fields.
   */
  function ParseAgentOutputAsWritten(value: seq<Message>): (r: Option<string>)
    requires |value| > 0
    ensures r.Some? <==> value[0].TextMessage?
    ensures value[0].TextMessage? && value[0].content.Plain? ==> r == Some(value[0].content.s)
  {
    if !value[0].TextMessage? then None
    else match value[0].content
      case Parts(parts) => Some(Text.Join(AsJoined(parts), ""))
      case Plain(s) => Some(s)
  }

  /** A one-part array "hi" comes out as "[object Object]", not as "hi". */
  lemma AsWrittenLosesText()
    ensures ParseAgentOutputAsWritten([TextMessage(Assistant, Parts([TextPart("hi")]))]) == Some(ObjectString)
    ensures ParseAgentOutput([TextMessage(Assistant, Parts([TextPart("hi")]))]) == Some("hi")
  {
    assert AsJoined([TextPart("hi")]) == [ObjectString];
    assert Texts([TextPart("hi")]) == ["hi"];
  }

  /**
   * As written, the array branch never looks at the parts' texts: two
   * arrays of the same length give the same result whatever they say.
   */
  lemma AsWrittenIgnoresTexts(role: Role, parts: seq<TextPart>, others: seq<TextPart>, rest: seq<Message>)
    requires |parts| == |others|
    ensures ParseAgentOutputAsWritten([TextMessage(role, Parts(parts))] + rest)
         == ParseAgentOutputAsWritten([TextMessage(role, Parts(others))] + rest)
  {
    assert AsJoined(parts) == AsJoined(others);
  }

  /** The corrected helper agrees with the text the completion hook would read. */
  lemma ParseAgreesWithLastAssistant(m: Message)
    requires m.TextMessage? && m.role == Assistant && IsTruthy(m.content)
    ensures ParseAgentOutput([m]) == LastAssistantTextMessageContent([m])
  {
    LastAssistantIsHighest([m], 0);
  }
}
