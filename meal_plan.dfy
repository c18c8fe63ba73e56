/**
 * POST /api/meal-plan: resolves an access token, requires a profile, sends
 * the profile and the foods already logged today to the model, and returns
 * the `meals` list of its JSON reply.
 */
module MealPlan {
  import opened Js
  import opened Wrappers
  import opened Http
  import opened Llama
  import GcpAuth

  const AuthConfigError: string := "Auth configuration error – see server logs."
  const ProfileRequired: string := "Profile is required to generate a meal plan."
  const UpstreamFailed: string := "Llama 4 meal-plan request failed"

  const MealLabels: seq<string> := ["Breakfast", "Lunch", "Dinner", "Snack"]

  /** "one Breakfast, one Lunch, one Dinner, and one Snack", which both prompts spell out. */
  const LabelSentence: string :=
    "one " + MealLabels[0] + ", one " + MealLabels[1] + ", one " + MealLabels[2] + ", and one " + MealLabels[3]

  /** The instructions sent first; of their wording only the rule on the four meals is kept. */
  const SystemPrompt: string :=
    "Return strict JSON only: an object whose meals list holds label, name, description, approxCalories and notes for each meal. ALWAYS return exactly 4 meals: "
    + LabelSentence + "."

  const UserPrompt: string :=
    "Propose exactly 4 meals for today: " + LabelSentence
    + ". Make sure they align with the profile's cooking time and meal prep preferences."

  /** `Array.isArray(body.todayItems) ? body.todayItems : []` */
  function TodayItems(body: JsValue): (r: seq<JsValue>)
    ensures !Prop(body, "todayItems").Arr? ==> r == []
    ensures Prop(body, "todayItems").Arr? ==> r == Prop(body, "todayItems").elems
  {
    var v := Prop(body, "todayItems");
    if v.Arr? then v.elems else []
  }

  const TodayHeader: string := "Foods already eaten today (approx):\n"

  /** The system message listing what was eaten today: a header line, then today's items as a JSON array. */
  function TodayMessage(todayItems: seq<JsValue>, stringify: JsValue -> string): (m: Message)
    ensures m.role == System
    ensures StartsWith(m.content, TodayHeader) && m.content[|TodayHeader|..] == stringify(Arr(todayItems))
  {
    var content := TodayHeader + stringify(Arr(todayItems));
    assert content[..|TodayHeader|] == TodayHeader;
    Message(System, content)
  }

  /**
   * The payload's messages: the instructions, the profile, today's foods only
   * when there are any, and the user request last.
   */
  function Messages(profile: JsValue, todayItems: seq<JsValue>, stringify: JsValue -> string): (r: seq<Message>)
    ensures |r| == if |todayItems| > 0 then 4 else 3
    ensures r[0] == Message(System, SystemPrompt)
    ensures r[1] == ProfileMessage(profile, stringify)
    ensures |todayItems| > 0 ==> r[2] == TodayMessage(todayItems, stringify)
    ensures r[|r| - 1] == Message(User, UserPrompt)
  {
    var sys, prof, user := Message(System, SystemPrompt), ProfileMessage(profile, stringify), Message(User, UserPrompt);
    var today := if |todayItems| > 0 then Some(TodayMessage(todayItems, stringify)) else None;
    PresentOfFour(Some(sys), Some(prof), today, Some(user));
    var r := Present([Some(sys), Some(prof), today, Some(user)]);
    if |todayItems| > 0 then
      assert r == [sys, prof, TodayMessage(todayItems, stringify), user];
      r
    else
      assert r == [sys, prof, user];
      r
  }

  /** Only the last message comes from the user; all before it are system messages. */
  lemma OnlyLastIsUser(profile: JsValue, todayItems: seq<JsValue>, stringify: JsValue -> string)
    ensures var r := Messages(profile, todayItems, stringify);
      r[|r| - 1].role == User && forall i :: 0 <= i < |r| - 1 ==> r[i].role == System
  {
    var r := Messages(profile, todayItems, stringify);
    assert r[0].role == System && r[1].role == System;
    if |todayItems| > 0 {
      assert r[2].role == System;
    }
  }

  /**
   * The handler, with the token resolution, `req.json()` (None when it
   * rejects), JSON.stringify and `fetch` given as inputs.
   */
  function HandlePost(
    cfg: Config, env: GcpAuth.Env, parse: string -> Option<JsValue>, mint: GcpAuth.MintRequest -> GcpAuth.Minted,
    body: Option<JsValue>, stringify: JsValue -> string, fetch: ChatRequest -> Upstream): (x: Exchange<ChatRequest, seq<JsValue>>)
    ensures x.reply.Json? ==> x.reply.status in {200, 400, 500, 502}
    ensures x.reply.Json? && x.reply.status == 400 ==> x.sent.None?
    ensures x.sent.Some? ==>
      && x.sent.value.url == ChatUrl(cfg) && x.sent.value.model == cfg.model
      && !x.sent.value.stream && Truthy(x.sent.value.bearer)
  {
    match GcpAuth.GetAccessToken(env, parse, mint)
    case Failure(_) => Exchange(None, Json(500, ErrorBody(AuthConfigError)))
    case Success(token) =>
      if body.None? then Exchange(None, Uncaught)
      else
        match Member(body.value, "profile")
        case None => Exchange(None, Uncaught)
        case Some(p) =>
          var profile := Or(p, Null);
          var todayItems := TodayItems(body.value);
          if !Truthy(profile) then Exchange(None, Json(400, ErrorBody(ProfileRequired)))
          else
            var request := ChatRequest(ChatUrl(cfg), token, cfg.model, false, Messages(profile, todayItems, stringify));
            Exchange(Some(request), Finish(fetch(request), parse, "meals", UpstreamFailed))
  }

  /** A token failure is a 500 whatever the body and the upstream: the body is not read and nothing is sent. */
  lemma AuthFailureFirst(
    cfg: Config, env: GcpAuth.Env, parse: string -> Option<JsValue>, mint: GcpAuth.MintRequest -> GcpAuth.Minted,
    body: Option<JsValue>, stringify: JsValue -> string, fetch: ChatRequest -> Upstream)
    requires GcpAuth.GetAccessToken(env, parse, mint).Failure?
    ensures HandlePost(cfg, env, parse, mint, body, stringify, fetch) == Exchange(None, Json(500, ErrorBody(AuthConfigError)))
  {
  }

  /** A missing or falsy profile is a 400 and nothing is sent upstream. */
  lemma MissingProfile(
    cfg: Config, env: GcpAuth.Env, parse: string -> Option<JsValue>, mint: GcpAuth.MintRequest -> GcpAuth.Minted,
    body: JsValue, stringify: JsValue -> string, fetch: ChatRequest -> Upstream)
    requires GcpAuth.GetAccessToken(env, parse, mint).Success?
    requires !IsNullish(body) && !Truthy(Prop(body, "profile"))
    ensures HandlePost(cfg, env, parse, mint, Some(body), stringify, fetch) == Exchange(None, Json(400, ErrorBody(ProfileRequired)))
  {
  }

  /**
   * With a token and a profile, exactly one request is sent, carrying the
   * token, the configured model, `stream: false` and the messages built from
   * the profile and today's items; the reply is the shared tail's.
   */
  lemma RequestSent(
    cfg: Config, env: GcpAuth.Env, parse: string -> Option<JsValue>, mint: GcpAuth.MintRequest -> GcpAuth.Minted,
    body: JsValue, stringify: JsValue -> string, fetch: ChatRequest -> Upstream)
    requires GcpAuth.GetAccessToken(env, parse, mint).Success?
    requires Truthy(Prop(body, "profile"))
    ensures var request := ChatRequest(ChatUrl(cfg), GcpAuth.GetAccessToken(env, parse, mint).value, cfg.model, false,
                                       Messages(Prop(body, "profile"), TodayItems(body), stringify));
      HandlePost(cfg, env, parse, mint, Some(body), stringify, fetch) ==
        Exchange(Some(request), Finish(fetch(request), parse, "meals", UpstreamFailed))
  {
    assert !IsNullish(body);
  }

  /** A todayItems that is not an array counts as none: the payload then has three messages. */
  lemma NonArrayTodayItems(profile: JsValue, body: JsValue, stringify: JsValue -> string)
    requires !Prop(body, "todayItems").Arr?
    ensures |Messages(profile, TodayItems(body), stringify)| == 3
  {
  }

  /** The enumeration names each of the four labels. */
  lemma LabelSentenceNamesAll(i: nat)
    requires i < 4
    ensures Mentions(LabelSentence, MealLabels[i])
  {
    var l := MealLabels;
    MentionsSelf(l[i]);
    if i == 0 {
      MentionsWithin("one ", l[0], ", one " + l[1] + ", one " + l[2] + ", and one " + l[3], l[0]);
      assert LabelSentence == "one " + l[0] + (", one " + l[1] + ", one " + l[2] + ", and one " + l[3]);
    } else if i == 1 {
      MentionsWithin("one " + l[0] + ", one ", l[1], ", one " + l[2] + ", and one " + l[3], l[1]);
      assert LabelSentence == ("one " + l[0] + ", one ") + l[1] + (", one " + l[2] + ", and one " + l[3]);
    } else if i == 2 {
      MentionsWithin("one " + l[0] + ", one " + l[1] + ", one ", l[2], ", and one " + l[3], l[2]);
      assert LabelSentence == ("one " + l[0] + ", one " + l[1] + ", one ") + l[2] + (", and one " + l[3]);
    } else {
      MentionsWithin("one " + l[0] + ", one " + l[1] + ", one " + l[2] + ", and one ", l[3], "", l[3]);
      assert LabelSentence == ("one " + l[0] + ", one " + l[1] + ", one " + l[2] + ", and one ") + l[3] + "";
    }
  }

  /** Both the instructions and the user request name all four meal labels. */
  lemma PromptsNameAllLabels()
    ensures forall l :: l in MealLabels ==> Mentions(SystemPrompt, l) && Mentions(UserPrompt, l)
  {
    forall i | 0 <= i < 4 ensures Mentions(SystemPrompt, MealLabels[i]) && Mentions(UserPrompt, MealLabels[i]) {
      LabelSentenceNamesAll(i);
      MentionsWithin(
        "Return strict JSON only: an object whose meals list holds label, name, description, approxCalories and notes for each meal. ALWAYS return exactly 4 meals: ",
        LabelSentence, ".", MealLabels[i]);
      MentionsWithin(
        "Propose exactly 4 meals for today: ", LabelSentence,
        ". Make sure they align with the profile's cooking time and meal prep preferences.", MealLabels[i]);
    }
  }
}
