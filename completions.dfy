/** The request side of POST /v1/chat/completions: the parsed body is turned
    into the arguments of the upstream chat-completion call. The fixed system
    message is inserted in front of the caller's messages, `model` is copied,
    and each of six optional keys is either copied verbatim or marked as not
    given, so that the upstream client leaves it out of the call. */
module Completions {
  import opened Results
  import opened JsonValues

  /** The instruction prepended to every conversation. */
  const System: string := "\nYou are task oriented system.\nYou receive input from a user, process the input from the given instructions, and then output the result.\nYour objective is to provide consistent and correct results.\nCall the provided tools as needed to complete the task.\nYou do not need to explain the steps taken, only provide the result to the given instructions.\nYou are referred to as a tool.\nYou don't move to the next step until you have a result.\n"

  function SystemMessage(): (m: Value)
    ensures m.Obj? && m.fields.Keys == {"role", "content"}
    ensures m.fields["role"] == Str("system") && m.fields["content"] == Str(System)
  {
    Obj(map["role" := Str("system"), "content" := Str(System)])
  }

  /** One call argument: absent from the call, or present with a value that
      may itself be null or false. */
  datatype Param = NotGiven | Given(value: Value)

  /** The optional body keys the relay forwards. */
  const OptionalKeys: set<string> := {"max_tokens", "tools", "tool_choice", "stream", "top_p", "temperature"}

  datatype CallParams = CallParams(
    model: Value,
    messages: seq<Value>,
    maxTokens: Param,
    tools: Param,
    toolChoice: Param,
    stream: Param,
    topP: Param,
    temperature: Param)

  /** Why a request body is refused before any upstream call. */
  datatype RequestError =
    | InvalidJson           // the body does not parse
    | BodyNotAnObject       // the body parses to something other than an object
    | MissingKey(key: string)
    | MessagesNotAList      // `messages` has no in-place insert

  /** The argument a given body key is passed as; NotGiven for other keys. */
  function ParamNamed(p: CallParams, key: string): Param
  {
    match key
    case "max_tokens" => p.maxTokens
    case "tools" => p.tools
    case "tool_choice" => p.toolChoice
    case "stream" => p.stream
    case "top_p" => p.topP
    case "temperature" => p.temperature
    case _ => NotGiven
  }

  /** The value of a body key, or the not-given marker when it is absent. */
  function Get(body: map<string, Value>, key: string): (r: Param)
    ensures r.Given? <==> key in body
    ensures r.Given? ==> r.value == body[key]
  {
    if key in body then Given(body[key]) else NotGiven
  }

  /** The position at which a list insert places its element, with negative
      indices counted from the end and out-of-range ones clamped. */
  function InsertPosition(len: nat, index: int): (k: nat)
    ensures k <= len
    ensures index >= 0 ==> k == if index <= len then index else len
    ensures index < 0 ==> k == if index + len >= 0 then index + len else 0
  {
    if index < 0 then (if index + len < 0 then 0 else index + len)
    else if index > len then len
    else index
  }

  /** A list after inserting `x` before position `index`. */
  function ListInsert(s: seq<Value>, index: int, x: Value): (r: seq<Value>)
    ensures |r| == |s| + 1
    ensures r[InsertPosition(|s|, index)] == x
    ensures forall j :: 0 <= j < InsertPosition(|s|, index) ==> r[j] == s[j]
    ensures forall j :: InsertPosition(|s|, index) <= j < |s| ==> r[j + 1] == s[j]
  {
    var k := InsertPosition(|s|, index);
    s[..k] + [x] + s[k..]
  }

  /** Removing the inserted element gives back the list as it was. */
  lemma ListInsertUndone(s: seq<Value>, index: int, x: Value)
    ensures var k := InsertPosition(|s|, index);
            var r := ListInsert(s, index, x);
            r[..k] + r[k + 1..] == s
  {
  }

  /** The caller's message list, which the relay changes in place. */
  class MessageList {
    var items: seq<Value>

    constructor (items: seq<Value>)
      ensures this.items == items
    {
      this.items := items;
    }

    method Insert(index: int, x: Value)
      modifies this
      ensures items == ListInsert(old(items), index, x)
    {
      var k := InsertPosition(|items|, index);
      items := items[..k] + [x] + items[k..];
    }
  }

  /** Turns a parsed request body (None when it does not parse) into the
      arguments of the upstream call, or the error raised before the call. */
  method ChatCompletions(parsed: Option<Value>) returns (r: Result<CallParams, RequestError>)
    ensures parsed.None? ==> r == Failure(InvalidJson)
    ensures parsed.Some? && !parsed.value.Obj? ==> r == Failure(BodyNotAnObject)
    ensures parsed.Some? && parsed.value.Obj? ==>
              var body := parsed.value.fields;
              && ("messages" !in body ==> r == Failure(MissingKey("messages")))
              && ("messages" in body && !body["messages"].Arr? ==> r == Failure(MessagesNotAList))
              && ("messages" in body && body["messages"].Arr? && "model" !in body ==> r == Failure(MissingKey("model")))
              && (r.Success? <==> "messages" in body && body["messages"].Arr? && "model" in body)
    ensures r.Success? ==>
              && parsed.Some? && parsed.value.Obj?
              && "messages" in parsed.value.fields && parsed.value.fields["messages"].Arr?
              && "model" in parsed.value.fields
              && CallMatchesBody(parsed.value.fields, r.value)
  {
    if parsed.None? {
      return Failure(InvalidJson);
    }
    if !parsed.value.Obj? {
      return Failure(BodyNotAnObject);
    }
    var data := parsed.value.fields;
    if "messages" !in data {
      return Failure(MissingKey("messages"));
    }
    if !data["messages"].Arr? {
      return Failure(MessagesNotAList);
    }
    var messages := new MessageList(data["messages"].elems);
    messages.Insert(0, SystemMessage());
    if "model" !in data {
      return Failure(MissingKey("model"));
    }
    var p := CallParams(
      model := data["model"],
      messages := messages.items,
      maxTokens := Get(data, "max_tokens"),
      tools := Get(data, "tools"),
      toolChoice := Get(data, "tool_choice"),
      stream := Get(data, "stream"),
      topP := Get(data, "top_p"),
      temperature := Get(data, "temperature"));
    r := Success(p);
  }

  /** The call arguments carry the system message followed by the caller's
      messages in their order, the caller's model, and every optional key
      exactly as the caller gave it or not given when the caller left it out. */
  ghost predicate CallMatchesBody(body: map<string, Value>, p: CallParams)
    requires "messages" in body && body["messages"].Arr? && "model" in body
  {
    var caller := body["messages"].elems;
    && p.model == body["model"]
    && |p.messages| == |caller| + 1
    && p.messages[0] == SystemMessage()
    && (forall i :: 0 <= i < |caller| ==> p.messages[i + 1] == caller[i])
    && (forall k :: k in OptionalKeys && k in body ==> ParamNamed(p, k) == Given(body[k]))
    && (forall k :: k in OptionalKeys && k !in body ==> ParamNamed(p, k) == NotGiven)
  }

  /** The fields the upstream client sends for a call: `model`, `messages`,
      and each optional argument that is given; a not-given one is omitted. */
  function UpstreamFields(p: CallParams): map<string, Value>
  {
    var sent := {"model", "messages"} + OptionalKeys;
    map k | k in sent && (k in OptionalKeys ==> ParamNamed(p, k).Given?) ::
      if k == "model" then p.model
      else if k == "messages" then Arr(p.messages)
      else ParamNamed(p, k).value
  }

  /** Upstream receives `model` and the augmented messages, plus exactly the
      optional keys the caller supplied, each with the caller's value. */
  lemma UpstreamSeesCallerFields(body: map<string, Value>, p: CallParams)
    requires "messages" in body && body["messages"].Arr? && "model" in body
    requires CallMatchesBody(body, p)
    ensures UpstreamFields(p).Keys == {"model", "messages"} + (body.Keys * OptionalKeys)
    ensures UpstreamFields(p)["model"] == body["model"]
    ensures UpstreamFields(p)["messages"] == Arr([SystemMessage()] + body["messages"].elems)
    ensures forall k :: k in OptionalKeys && k in body ==> UpstreamFields(p)[k] == body[k]
  {
  }
}
