/**
 * POST /api/llama-food: with a configured access token, sends the trimmed
 * food description (and the profile, when one is given) to the model and
 * returns the `items` list of its JSON reply.
 */
module LlamaFood {
  import opened Js
  import opened Wrappers
  import opened Http
  import opened Llama
  import GcpAuth

  const MissingToken: string :=
    "Missing GCP_ACCESS_TOKEN env var. Run `gcloud auth print-access-token` and paste it into .env.local as GCP_ACCESS_TOKEN for local testing."
  const MissingQuery: string := "Missing query"
  const UpstreamFailed: string := "Llama 4 API request failed"

  /** The instructions sent first; their wording is abstracted to the reply shape they ask for. */
  const SystemPrompt: string :=
    "You are a nutrition assistant. Return strict JSON only: an object whose items list holds name, approxCaloriesPer100g, approxProteinPer100g, approxCarbsPer100g, approxFatPer100g (a number or null) and notes."

  /**
   * `(body.query || "").trim()` on a body that is not null: the trimmed query,
   * or None when the query is a truthy non-string and has no `trim` to call.
   */
  function Query(body: JsValue): (r: Option<string>)
    ensures Prop(body, "query").Str? ==> r == Some(Trim(Prop(body, "query").s))
    ensures !Truthy(Prop(body, "query")) ==> r == Some("")
    ensures r.None? <==> Truthy(Prop(body, "query")) && !Prop(body, "query").Str?
  {
    var raw := Or(Prop(body, "query"), Str(""));
    if raw.Str? then Some(Trim(raw.s)) else None
  }

  /** The payload's messages: the instructions, the profile only when it is truthy, and the query last. */
  function Messages(profile: JsValue, query: string, stringify: JsValue -> string): (r: seq<Message>)
    ensures |r| == if Truthy(profile) then 3 else 2
    ensures r[0] == Message(System, SystemPrompt)
    ensures Truthy(profile) ==> r[1] == ProfileMessage(profile, stringify)
    ensures r[|r| - 1] == Message(User, query)
  {
    var sys, user := Message(System, SystemPrompt), Message(User, query);
    var prof := if Truthy(profile) then Some(ProfileMessage(profile, stringify)) else None;
    PresentOfThree(Some(sys), prof, Some(user));
    var r := Present([Some(sys), prof, Some(user)]);
    if Truthy(profile) then
      assert r == [sys, ProfileMessage(profile, stringify), user];
      r
    else
      assert r == [sys, user];
      r
  }

  /**
   * The handler, with the GCP_ACCESS_TOKEN variable, `req.json()` (None when
   * it rejects), JSON.parse, JSON.stringify and `fetch` given as inputs.
   */
  function HandlePost(
    cfg: Config, accessToken: Option<string>, body: Option<JsValue>,
    parse: string -> Option<JsValue>, stringify: JsValue -> string, fetch: ChatRequest -> Upstream): (x: Exchange<ChatRequest, seq<JsValue>>)
    ensures x.reply.Json? ==> x.reply.status in {200, 400, 500, 502}
    ensures x.reply.Json? && x.reply.status == 400 ==> x.sent.None?
    ensures x.sent.Some? ==>
      && x.sent.value.url == ChatUrl(cfg) && x.sent.value.model == cfg.model && !x.sent.value.stream
      && GcpAuth.IsSet(accessToken) && x.sent.value.bearer == Str(accessToken.value)
  {
    if !GcpAuth.IsSet(accessToken) then Exchange(None, Json(500, ErrorBody(MissingToken)))
    else if body.None? || IsNullish(body.value) then Exchange(None, Uncaught)
    else
      match Query(body.value)
      case None => Exchange(None, Uncaught)
      case Some(query) =>
        var profile := Or(Prop(body.value, "profile"), Null);
        if query == "" then Exchange(None, Json(400, ErrorBody(MissingQuery)))
        else
          var request := ChatRequest(ChatUrl(cfg), Str(accessToken.value), cfg.model, false, Messages(profile, query, stringify));
          Exchange(Some(request), Finish(fetch(request), parse, "items", UpstreamFailed))
  }

  /** Without GCP_ACCESS_TOKEN the reply is a 500 whatever the body: it is not read and nothing is sent. */
  lemma MissingTokenFirst(
    cfg: Config, accessToken: Option<string>, body: Option<JsValue>,
    parse: string -> Option<JsValue>, stringify: JsValue -> string, fetch: ChatRequest -> Upstream)
    requires !GcpAuth.IsSet(accessToken)
    ensures HandlePost(cfg, accessToken, body, parse, stringify, fetch) == Exchange(None, Json(500, ErrorBody(MissingToken)))
  {
  }

  /**
   * A query that is missing, falsy or all white space is a 400 and nothing is
   * sent; any non-empty trimmed query, however short, is sent as the last message.
   */
  lemma QueryGuard(
    cfg: Config, accessToken: Option<string>, body: JsValue,
    parse: string -> Option<JsValue>, stringify: JsValue -> string, fetch: ChatRequest -> Upstream)
    requires GcpAuth.IsSet(accessToken) && !IsNullish(body)
    requires Prop(body, "query").Str? || !Truthy(Prop(body, "query"))
    ensures var x := HandlePost(cfg, accessToken, Some(body), parse, stringify, fetch);
      && (Query(body).value == "" <==> x == Exchange(None, Json(400, ErrorBody(MissingQuery))))
      && (Query(body).value != "" ==> x.sent.Some? && x.sent.value.messages[|x.sent.value.messages| - 1] == Message(User, Query(body).value))
  {
  }

  /** A non-empty trimmed query is sent, with the profile message exactly when the body's profile is truthy. */
  lemma ProfileMessageOnlyWithProfile(
    cfg: Config, accessToken: Option<string>, body: JsValue,
    parse: string -> Option<JsValue>, stringify: JsValue -> string, fetch: ChatRequest -> Upstream)
    requires GcpAuth.IsSet(accessToken) && !IsNullish(body) && Prop(body, "query").Str?
    ensures var x := HandlePost(cfg, accessToken, Some(body), parse, stringify, fetch);
      Trim(Prop(body, "query").s) != "" ==>
        && x.sent.Some?
        && |x.sent.value.messages| == (if Truthy(Prop(body, "profile")) then 3 else 2)
        && (Truthy(Prop(body, "profile")) ==> x.sent.value.messages[1] == ProfileMessage(Prop(body, "profile"), stringify))
  {
  }
}
