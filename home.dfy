/**
 * The home page: the search card that sends a food description to
 * /api/llama-food, and the result list that renders what came back.
 */
module Home {
  import opened Js
  import opened Wrappers
  import opened Http
  import Llama
  import LlamaFood
  import GcpAuth

  const ShortQueryError: string := "Type at least 2 characters."
  const SearchFailed: string := "Something went wrong talking to Llama 4."

  /**
   * `!query.trim() || query.trim().length < 2`: the guard of handleSearch. The
   * emptiness test is subsumed by the length test.
   */
  predicate TooShort(query: string)
    ensures TooShort(query) <==> Utf16Length(Trim(query)) < 2
  {
    Trim(query) == "" || Utf16Length(Trim(query)) < 2
  }

  /** The body of the request, `{ query: query.trim() }`: one key, holding a query that a second trim leaves alone. */
  function SearchBody(query: string): (r: JsValue)
    ensures r.Obj? && r.fields.Keys == {"query"}
    ensures Prop(r, "query") == Str(Trim(query))
    ensures Trim(Prop(r, "query").s) == Prop(r, "query").s
  {
    TrimIdempotent(query);
    Obj(map["query" := Str(Trim(query))])
  }

  /**
   * The new results once the request has completed: `data.items ?? []`, or
   * None when the catch branch runs (the fetch rejects, the response is not
   * OK, its body is not JSON, or it is null).
   */
  function SearchOutcome(answer: Upstream): (r: Option<JsValue>)
    ensures r.Some? <==> answer.Answered? && answer.ok && answer.json.Some? && !IsNullish(answer.json.value)
    ensures r.Some? ==> !IsNullish(r.value)
    ensures r.Some? && IsNullish(Prop(answer.json.value, "items")) ==> r.value == Arr([])
    ensures r.Some? && !IsNullish(Prop(answer.json.value, "items")) ==> r.value == Prop(answer.json.value, "items")
  {
    match answer
    case Rejected => None
    case Answered(ok, json) =>
      if !ok || json.None? then None
      else
        match Member(json.value, "items")
        case None => None
        case Some(items) => Some(Coalesce(items, Arr([])))
  }

  /** The search card's state. */
  class SearchCard {
    var query: string
    var loading: bool
    var error: string
    var results: JsValue

    constructor ()
      ensures query == "" && !loading && error == "" && results == Arr([])
    {
      query := "";
      loading := false;
      error := "";
      results := Arr([]);
    }

    /** The input's change handler. */
    method SetQuery(q: string)
      modifies this
      ensures query == q && loading == old(loading) && error == old(error) && results == old(results)
    {
      query := q;
    }

    /**
     * `handleSearch` up to the request: a query too short sets the error and
     * sends nothing; otherwise the error is cleared, loading is set and the
     * body with the trimmed query is sent.
     */
    method StartSearch() returns (request: Option<JsValue>)
      modifies this
      ensures query == old(query) && results == old(results)
      ensures TooShort(query) ==> request == None && error == ShortQueryError && loading == old(loading)
      ensures !TooShort(query) ==> request == Some(SearchBody(query)) && error == "" && loading
    {
      var trimmed := Trim(query);
      if trimmed == "" || Utf16Length(trimmed) < 2 {
        error := ShortQueryError;
        return None;
      }
      error := "";
      loading := true;
      request := Some(Obj(map["query" := Str(trimmed)]));
    }

    /**
     * `handleSearch` after the request: on success the results are replaced,
     * on failure they are kept and the error is set; loading ends either way.
     */
    method FinishSearch(answer: Upstream)
      modifies this
      ensures !loading && query == old(query)
      ensures SearchOutcome(answer).Some? ==> results == SearchOutcome(answer).value && error == old(error)
      ensures SearchOutcome(answer).None? ==> results == old(results) && error == SearchFailed
    {
      var items: Option<JsValue> := None;
      if answer.Answered? && answer.ok && answer.json.Some? {
        var read := Member(answer.json.value, "items");
        if read.Some? {
          items := Some(Coalesce(read.value, Arr([])));
        }
      }
      if items.Some? {
        results := items.value;
      } else {
        error := SearchFailed;
      }
      loading := false;
    }
  }

  /**
   * What the client sends always gets past the route's own guard: its trimmed
   * query trims to itself, and as no profile is sent the model receives the
   * instructions and the query alone.
   */
  lemma ClientQueryReachesModel(
    cfg: Llama.Config, token: Option<string>, query: string,
    parse: string -> Option<JsValue>, stringify: JsValue -> string, fetch: Llama.ChatRequest -> Upstream)
    requires !TooShort(query) && GcpAuth.IsSet(token)
    ensures var x := LlamaFood.HandlePost(cfg, token, Some(SearchBody(query)), parse, stringify, fetch);
      && x.sent.Some?
      && x.sent.value.messages == [Llama.Message(Llama.System, LlamaFood.SystemPrompt), Llama.Message(Llama.User, Trim(query))]
  {
    var body := SearchBody(query);
    assert LlamaFood.Query(body) == Some(Trim(query));
    assert "profile" !in body.fields;
    assert Or(Prop(body, "profile"), Null) == Null;
    var m := LlamaFood.Messages(Null, Trim(query), stringify);
    assert m == [Llama.Message(Llama.System, LlamaFood.SystemPrompt), Llama.Message(Llama.User, Trim(query))];
  }

  // ----- the result list -----

  datatype Macro = Calories | Protein | Carbs | Fat

  /** The item field each macro tag reads. */
  function MacroField(m: Macro): string {
    match m
    case Calories => "approxCaloriesPer100g"
    case Protein => "approxProteinPer100g"
    case Carbs => "approxCarbsPer100g"
    case Fat => "approxFatPer100g"
  }

  /** The position of a macro's tag in the row. */
  function Rank(m: Macro): nat {
    match m
    case Calories => 0
    case Protein => 1
    case Carbs => 2
    case Fat => 3
  }

  /** A macro tag and the per-100 g value it shows (rounding for display is not modelled). */
  datatype MacroTag = MacroTag(macro: Macro, per100g: real)

  /** The macros in the order their tags appear. */
  const MacroOrder: seq<Macro> := [Calories, Protein, Carbs, Fat]

  function TagFor(item: JsValue, m: Macro): seq<MacroTag> {
    var v := Prop(item, MacroField(m));
    if v.Num? then [MacroTag(m, v.n)] else []
  }

  /** The tags for the macros `ms`, in that order. */
  function TagsOf(item: JsValue, ms: seq<Macro>): seq<MacroTag> {
    if ms == [] then [] else TagFor(item, ms[0]) + TagsOf(item, ms[1..])
  }

  predicate Shows(tags: seq<MacroTag>, m: Macro) {
    exists i :: 0 <= i < |tags| && tags[i].macro == m
  }

  predicate RankIncreasing(tags: seq<MacroTag>) {
    forall i, j :: 0 <= i < j < |tags| ==> Rank(tags[i].macro) < Rank(tags[j].macro)
  }

  predicate MacrosRankIncreasing(ms: seq<Macro>) {
    forall i, j :: 0 <= i < j < |ms| ==> Rank(ms[i]) < Rank(ms[j])
  }

  /** Each tag is for one of the macros asked for and carries its field's number. */
  lemma {:induction false} TagsOfValues(item: JsValue, ms: seq<Macro>)
    ensures |TagsOf(item, ms)| <= |ms|
    ensures forall i :: 0 <= i < |TagsOf(item, ms)| ==>
      TagsOf(item, ms)[i].macro in ms && Prop(item, MacroField(TagsOf(item, ms)[i].macro)) == Num(TagsOf(item, ms)[i].per100g)
  {
    if ms != [] {
      TagsOfValues(item, ms[1..]);
      var head, rest := TagFor(item, ms[0]), TagsOf(item, ms[1..]);
      var r := head + rest;
      forall i | 0 <= i < |r| ensures r[i].macro in ms && Prop(item, MacroField(r[i].macro)) == Num(r[i].per100g) {
        if i >= |head| {
          assert r[i] == rest[i - |head|];
          assert rest[i - |head|].macro in ms[1..];
        }
      }
    }
  }

  /** A macro asked for is shown exactly when its field is a number. */
  lemma {:induction false} TagsOfShows(item: JsValue, ms: seq<Macro>, m: Macro)
    requires m in ms
    ensures Shows(TagsOf(item, ms), m) <==> Prop(item, MacroField(m)).Num?
  {
    TagsOfValues(item, ms);
    var head, rest := TagFor(item, ms[0]), TagsOf(item, ms[1..]);
    var r := head + rest;
    if Prop(item, MacroField(m)).Num? {
      if m == ms[0] {
        assert r[0].macro == m;
      } else {
        TagsOfShows(item, ms[1..], m);
        var i :| 0 <= i < |rest| && rest[i].macro == m;
        assert r[|head| + i].macro == m;
      }
    }
  }

  /** Tags come in the order of the macros asked for. */
  lemma {:induction false} TagsOfOrder(item: JsValue, ms: seq<Macro>)
    requires MacrosRankIncreasing(ms)
    ensures RankIncreasing(TagsOf(item, ms))
  {
    if ms != [] {
      var head, rest := TagFor(item, ms[0]), TagsOf(item, ms[1..]);
      assert MacrosRankIncreasing(ms[1..]);
      TagsOfOrder(item, ms[1..]);
      assert forall k :: 0 <= k < |ms[1..]| ==> Rank(ms[0]) < Rank(ms[1..][k]) by {
        forall k | 0 <= k < |ms[1..]| ensures Rank(ms[0]) < Rank(ms[1..][k]) {
          assert ms[1..][k] == ms[k + 1];
        }
      }
      TagsOfRanksAbove(item, ms[1..], Rank(ms[0]));
      if head != [] {
        ConsRankIncreasing(head[0], rest);
        assert head == [head[0]];
      }
    }
  }

  /** Tags for macros all ranked above `lo` are all ranked above `lo`. */
  lemma TagsOfRanksAbove(item: JsValue, ms: seq<Macro>, lo: int)
    requires forall k :: 0 <= k < |ms| ==> lo < Rank(ms[k])
    ensures forall i :: 0 <= i < |TagsOf(item, ms)| ==> lo < Rank(TagsOf(item, ms)[i].macro)
  {
    TagsOfValues(item, ms);
  }

  lemma ConsRankIncreasing(t: MacroTag, rest: seq<MacroTag>)
    requires RankIncreasing(rest)
    requires forall i :: 0 <= i < |rest| ==> Rank(t.macro) < Rank(rest[i].macro)
    ensures RankIncreasing([t] + rest)
  {
    var r := [t] + rest;
    forall i, j | 0 <= i < j < |r| ensures Rank(r[i].macro) < Rank(r[j].macro) {
      assert r[j] == rest[j - 1];
      if i > 0 {
        assert r[i] == rest[i - 1];
      }
    }
  }

  /**
   * The tag row: a tag for a macro exactly when `typeof` its field is
   * "number" (null or absent shows nothing), carrying that number, in the
   * order calories, protein, carbs, fat.
   */
  function Tags(item: JsValue): (r: seq<MacroTag>)
    ensures |r| <= 4
    ensures forall m :: Shows(r, m) <==> Prop(item, MacroField(m)).Num?
    ensures forall i :: 0 <= i < |r| ==> Prop(item, MacroField(r[i].macro)) == Num(r[i].per100g)
    ensures RankIncreasing(r)
  {
    AllMacrosOrdered();
    TagsOfValues(item, MacroOrder);
    TagsOfOrder(item, MacroOrder);
    forall m ensures Shows(TagsOf(item, MacroOrder), m) <==> Prop(item, MacroField(m)).Num? {
      TagsOfShows(item, MacroOrder, m);
    }
    TagsOf(item, MacroOrder)
  }

  lemma AllMacrosOrdered()
    ensures forall m :: m in MacroOrder
    ensures MacrosRankIncreasing(MacroOrder)
  {
    forall m ensures m in MacroOrder {
      match m
      case Calories => assert MacroOrder[0] == m;
      case Protein => assert MacroOrder[1] == m;
      case Carbs => assert MacroOrder[2] == m;
      case Fat => assert MacroOrder[3] == m;
    }
  }

  /** ASCII upper-casing of one character: a lower-case letter becomes its capital, anything else is kept. */
  function UpperChar(c: char): (r: char)
    ensures 'a' <= c <= 'z' ==> 'A' <= r <= 'Z' && r as int - 'A' as int == c as int - 'a' as int
    ensures !('a' <= c <= 'z') ==> r == c
    ensures !('a' <= r <= 'z')
  {
    if 'a' <= c <= 'z' then (c as int - 'a' as int + 'A' as int) as char else c
  }

  /** ASCII upper-casing of a string: no lower-case ASCII letter is left, and every other character is kept. */
  function Upper(s: string): (r: string)
    ensures |r| == |s|
    ensures forall i :: 0 <= i < |r| ==> !('a' <= r[i] <= 'z')
    ensures forall i :: 0 <= i < |s| && !('a' <= s[i] <= 'z') ==> r[i] == s[i]
  {
    seq(|s|, i requires 0 <= i < |s| => UpperChar(s[i]))
  }

  /**
   * `item.name?.[0]?.toUpperCase() || "FO"`: the upper-cased first character
   * of a non-empty string name, "FO" when there is no first element, and
   * None when the first element has no `toUpperCase` to call.
   */
  function Avatar(name: JsValue): (r: Option<string>)
    ensures r.Some? ==> r.value != ""
    ensures name.Str? && name.s != "" ==> r == Some([UpperChar(name.s[0])])
    ensures IsNullish(name) || name.Bool? || name.Num? || name == Str("") ==> r == Some("FO")
  {
    var first := AtZero(name);
    assert name.Str? && name.s != "" ==> Upper(first.s) == [UpperChar(name.s[0])];
    if IsNullish(first) then Some("FO")
    else if first.Str? then Some(if Upper(first.s) == "" then "FO" else Upper(first.s))
    else None
  }

  /** One rendered result. */
  datatype Card = Card(avatar: string, name: JsValue, notes: Option<JsValue>, tags: seq<MacroTag>)

  /** What ClientResults renders. */
  datatype View = EmptyState | Cards(cards: seq<Card>)

  /** One result card; None when the item is null or undefined, or its avatar throws. */
  function RenderItem(item: JsValue): (r: Option<Card>)
    ensures IsNullish(item) ==> r.None?
    ensures !IsNullish(item) && Avatar(Prop(item, "name")).Some? ==> r.Some?
    ensures r.Some? ==> Avatar(Prop(item, "name")) == Some(r.value.avatar)
    ensures r.Some? ==> r.value.tags == Tags(item) && r.value.name == Prop(item, "name")
    ensures r.Some? ==> (r.value.notes.Some? <==> Truthy(Prop(item, "notes")))
  {
    match Member(item, "name")
    case None => None
    case Some(name) =>
      match Avatar(name)
      case None => None
      case Some(avatar) =>
        var notes := Prop(item, "notes");
        Some(Card(avatar, name, if Truthy(notes) then Some(notes) else None, Tags(item)))
  }

  /** `results.map(...)`: one card per item in order, or None when one of them throws. */
  function RenderAll(items: seq<JsValue>): (r: Option<seq<Card>>)
    ensures r.Some? <==> forall i :: 0 <= i < |items| ==> RenderItem(items[i]).Some?
    ensures r.Some? ==> |r.value| == |items|
    ensures r.Some? ==> forall i :: 0 <= i < |items| ==> Some(r.value[i]) == RenderItem(items[i])
  {
    if items == [] then Some([])
    else
      match RenderItem(items[0])
      case None => None
      case Some(card) =>
        match RenderAll(items[1..])
        case None => None
        case Some(rest) => Some([card] + rest)
  }

  /**
   * ClientResults: the empty-state message when the results are falsy or of
   * length 0, one card per item for any other array, and None (a render
   * error) when `map` is missing or an item throws.
   */
  function ClientResults(results: JsValue): (r: Option<View>)
    ensures r == Some(EmptyState) <==> !Truthy(results) || Length(results) == Num(0.0)
    ensures r.Some? && r.value.Cards? ==> results.Arr? && |r.value.cards| == |results.elems| > 0
    ensures Truthy(results) && Length(results) != Num(0.0) && results.Arr? && RenderAll(results.elems).Some? ==>
      r == Some(Cards(RenderAll(results.elems).value))
    ensures r.Some? && r.value.Cards? ==> forall i :: 0 <= i < |results.elems| ==> Some(r.value.cards[i]) == RenderItem(results.elems[i])
  {
    if !Truthy(results) || Length(results) == Num(0.0) then Some(EmptyState)
    else if !results.Arr? then None
    else
      match RenderAll(results.elems)
      case None => None
      case Some(cards) => Some(Cards(cards))
  }

  /** The initial and the cleared results show the empty state. */
  lemma EmptyListShowsEmptyState()
    ensures ClientResults(Arr([])) == Some(EmptyState)
  {
  }
}
