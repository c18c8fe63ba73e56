/**
 * What the two model proxies share: the endpoint configuration, the shape of a
 * chat-completion request, the `.filter(Boolean)` that drops absent messages,
 * and the handling of the model's reply once the request has been sent.
 */
module Llama {
  import opened Js
  import opened Wrappers
  import opened Http

  /** Endpoint host, region, project id and model identifier. */
  datatype Config = Config(endpoint: string, region: string, projectId: string, model: string)

  const ChatPath: string := "/endpoints/openapi/chat/completions"

  /**
   * The chat-completions URL of the configured endpoint: an https URL on the
   * configured host, naming the project before the region, and ending in the
   * chat-completions path.
   */
  function ChatUrl(cfg: Config): (r: string)
    ensures StartsWith(r, "https://" + cfg.endpoint + "/v1/projects/" + cfg.projectId + "/locations/" + cfg.region)
    ensures EndsWith(r, ChatPath)
  {
    var head := "https://" + cfg.endpoint + "/v1/projects/" + cfg.projectId + "/locations/" + cfg.region;
    var r := head + ChatPath;
    assert r[..|head|] == head;
    assert r[|r| - |ChatPath|..] == ChatPath;
    r
  }

  datatype Role = System | User

  datatype Message = Message(role: Role, content: string)

  /** The POST sent upstream: URL, bearer token, and the JSON payload `{model, stream, messages}`. */
  datatype ChatRequest = ChatRequest(url: string, bearer: JsValue, model: string, stream: bool, messages: seq<Message>)

  const InvalidJson: string := "Model did not return valid JSON"

  /** `s` starts with `w`. */
  predicate StartsWith(s: string, w: string) {
    |w| <= |s| && s[..|w|] == w
  }

  /** `s` ends with `w`. */
  predicate EndsWith(s: string, w: string) {
    |w| <= |s| && s[|s| - |w|..] == w
  }

  /** `text` contains `word` somewhere. */
  predicate Mentions(text: string, word: string) {
    exists k :: 0 <= k <= |text| && StartsWith(text[k..], word)
  }

  /** One entry of a `.filter(Boolean)`: kept when present. */
  function Keep(x: Option<Message>): seq<Message> {
    if x.Some? then [x.value] else []
  }

  /**
   * `[...].filter(Boolean)` over a list literal whose entries are message
   * objects (always truthy) or `null`: the messages present, in their order.
   */
  function Present(xs: seq<Option<Message>>): (r: seq<Message>)
    ensures |r| <= |xs|
  {
    if xs == [] then [] else Keep(xs[0]) + Present(xs[1..])
  }

  /** The filter keeps exactly the messages present in the literal. */
  lemma {:induction false} PresentKeepsExactly(xs: seq<Option<Message>>, m: Message)
    ensures m in Present(xs) <==> Some(m) in xs
  {
    if xs != [] {
      PresentKeepsExactly(xs[1..], m);
      assert xs == [xs[0]] + xs[1..];
    }
  }

  lemma PresentOfThree(a: Option<Message>, b: Option<Message>, c: Option<Message>)
    ensures Present([a, b, c]) == Keep(a) + Keep(b) + Keep(c)
  {
    assert [a, b, c][1..] == [b, c];
    assert [b, c][1..] == [c];
    assert [c][1..] == [];
    assert Present([c]) == Keep(c);
    assert Present([b, c]) == Keep(b) + Keep(c);
  }

  lemma PresentOfFour(a: Option<Message>, b: Option<Message>, c: Option<Message>, d: Option<Message>)
    ensures Present([a, b, c, d]) == Keep(a) + Keep(b) + Keep(c) + Keep(d)
  {
    assert [a, b, c, d][1..] == [b, c, d];
    PresentOfThree(b, c, d);
  }

  /** Every word mentions itself. */
  lemma MentionsSelf(w: string)
    ensures Mentions(w, w)
  {
    assert StartsWith(w[0..], w);
  }

  /** A word found in a part of a text is found in the text. */
  lemma MentionsWithin(a: string, t: string, b: string, w: string)
    requires Mentions(t, w)
    ensures Mentions(a + t + b, w)
  {
    var k :| 0 <= k <= |t| && StartsWith(t[k..], w);
    assert (a + t + b)[|a| + k..][..|w|] == t[k..][..|w|];
    assert StartsWith((a + t + b)[|a| + k..], w);
  }

  const ProfileHeader: string := "User profile JSON:\n"

  /** The system message that hands the profile to the model: a header line, then the profile's JSON. */
  function ProfileMessage(profile: JsValue, stringify: JsValue -> string): (m: Message)
    ensures m.role == System
    ensures StartsWith(m.content, ProfileHeader) && m.content[|ProfileHeader|..] == stringify(profile)
  {
    var content := ProfileHeader + stringify(profile);
    assert content[..|ProfileHeader|] == ProfileHeader;
    Message(System, content)
  }

  /** `data?.choices?.[0]?.message` */
  function ReplyMessage(data: JsValue): JsValue {
    Prop(AtZero(Prop(data, "choices")), "message")
  }

  /**
   * `data?.choices?.[0]?.message?.content ?? data?.choices?.[0]?.message ?? ""`:
   * the content if present, else the message itself, else the empty string.
   */
  function ReplyContent(data: JsValue): (c: JsValue)
    ensures !IsNullish(c)
    ensures !IsNullish(Prop(ReplyMessage(data), "content")) ==> c == Prop(ReplyMessage(data), "content")
    ensures IsNullish(Prop(ReplyMessage(data), "content")) && !IsNullish(ReplyMessage(data)) ==> c == ReplyMessage(data)
    ensures IsNullish(ReplyMessage(data)) ==> c == Str("")
  {
    Coalesce(Coalesce(Prop(ReplyMessage(data), "content"), ReplyMessage(data)), Str(""))
  }

  /** `typeof content === "string" ? JSON.parse(content) : content`, where None is a parse failure. */
  function ParseContent(content: JsValue, parse: string -> Option<JsValue>): (r: Option<JsValue>)
    ensures r.None? ==> content.Str?
    ensures !content.Str? ==> r == Some(content)
  {
    if content.Str? then parse(content.s) else Some(content)
  }

  /**
   * `Array.isArray(parsed[key]) ? parsed[key] : []`, where None is the
   * TypeError of reading a property of `null` or `undefined`.
   */
  function ListField(parsed: JsValue, key: string): (r: Option<seq<JsValue>>)
    ensures r.None? <==> IsNullish(parsed)
    ensures r.Some? && Prop(parsed, key).Arr? ==> r.value == Prop(parsed, key).elems
    ensures r.Some? && !Prop(parsed, key).Arr? ==> r.value == []
  {
    match Member(parsed, key)
    case None => None
    case Some(v) => Some(if v.Arr? then v.elems else [])
  }

  /**
   * The common tail of both proxies once the request is sent: a non-OK
   * response is a 502, a string content that does not parse is a 500, and
   * otherwise the list under `key` (or []) is returned with status 200.
   * A rejected fetch, a body that is not JSON, or a parsed `null` escape.
   */
  function Finish(answer: Upstream, parse: string -> Option<JsValue>, key: string, upstreamFailed: string): (r: Reply<seq<JsValue>>)
    ensures r.Json? ==> r.status in {200, 500, 502}
    ensures r.Json? ==> (r.status == 200 <==> r.body.Payload?)
    ensures answer.Answered? && !answer.ok ==> r == Json(502, ErrorBody(upstreamFailed))
  {
    match answer
    case Rejected => Uncaught
    case Answered(ok, json) =>
      if !ok then Json(502, ErrorBody(upstreamFailed))
      else if json.None? then Uncaught
      else
        match ParseContent(ReplyContent(json.value), parse)
        case None => Json(500, ErrorBody(InvalidJson))
        case Some(parsed) =>
          match ListField(parsed, key)
          case None => Uncaught
          case Some(list) => Json(200, Payload(list))
  }

  /** A string content that fails to parse gives 500; content that is not a string is used as it is. */
  lemma FinishParsing(data: JsValue, parse: string -> Option<JsValue>, key: string, upstreamFailed: string)
    ensures var c := ReplyContent(data);
      && (c.Str? && parse(c.s).None? ==> Finish(Answered(true, Some(data)), parse, key, upstreamFailed) == Json(500, ErrorBody(InvalidJson)))
      && (!c.Str? ==> Finish(Answered(true, Some(data)), parse, key, upstreamFailed) == Json(200, Payload(ListField(c, key).value)))
  {
  }

  /**
   * The list is passed through as the model gave it: any array under `key` is
   * returned whole, whatever its length or entries, and anything else gives [].
   */
  lemma FinishPassesListThrough(data: JsValue, parse: string -> Option<JsValue>, key: string, upstreamFailed: string, parsed: JsValue)
    requires ParseContent(ReplyContent(data), parse) == Some(parsed) && !IsNullish(parsed)
    ensures Finish(Answered(true, Some(data)), parse, key, upstreamFailed) ==
      Json(200, Payload(if Prop(parsed, key).Arr? then Prop(parsed, key).elems else []))
  {
  }
}
