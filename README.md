# Cucina diet app — decision logic in Dafny

Cucina is a nutrition-tracking web application. Users fill in a profile, search foods whose macros a hosted
Llama 4 model estimates, and ask the model for a day's meal plan. This project models the sequential
decision logic under its pages and route handlers:

- the calorie-target rule. The settings page and the survey page compute the same target, and the settings
  page saves it in the profile;
- the settings page's load-time defaulting and its saving/saved flags. It redirects to `/survey` when no
  profile is stored;
- the survey page's summary;
- the home page's search card: the query guard, the request body, and the loading/error/results transitions
  around one request. Also its result list: the empty state, the avatar letter and the macro tags;
- the two model proxies, `POST /api/meal-plan` and `POST /api/llama-food`. Each is an early-return chain of
  statuses (500 auth, 400 input, 502 upstream, 500 unparsable reply, 200). Each builds an ordered list of
  chat messages with `.filter(Boolean)` and reads the model's reply through a fallback chain;
- the Open Food Facts proxy, `GET /api/off-search`: query validation, the fixed request, and the per-product
  normalisation with `count`;
- access-token resolution, `getAccessToken`. A service-account key is used for minting first, then a
  manually configured token; with neither, resolution fails.

All JavaScript used by these pieces is modelled explicitly in `Js`. That covers JSON-shaped values,
truthiness, `||`, `??`, and optional chaining `?.`, which never throws. A plain property read throws on
`null`/`undefined`. `.length` counts UTF-16 code units, and `trim` removes ECMAScript white space and line
terminators. A route handler is a pure function. It returns an `Exchange`: the request it sent upstream, if
any, and its reply. The reply is a JSON response with a status, or `Uncaught` when an exception escapes the
handler (for example, a request body of `null`). `JSON.parse`, `JSON.stringify`, `fetch`, `req.json()` and
the auth library's minting are function parameters. The pages are classes whose fields are the React
state; each handler is a method with a `modifies` clause.

Some consequences of the code as written:

- `/api/llama-food` reads only `GCP_ACCESS_TOKEN` (`app/api/llama-food/route.js:11-22`). It never calls
  `getAccessToken`, so a service-account key is ignored there.
- `getAccessToken` hands the parsed service-account key to the auth library as it is
  (`lib/gcpAuth.js:16-17`).
- The nine goal/activity combinations give seven distinct targets (`app/settings/page.js:66-71`):
  "lose"+"high" and "maintain"+"low" both give 1850, and "maintain"+"high" and "gain"+"low" both give 2150
  (`Calories.TargetDoesNotDetermineProfile`).
- The survey page only puts its summary into component state (`app/survey/page.js:43-51`). It saves nothing.
- Neither proxy checks the number or the labels of the meals or items the model returns
  (`app/api/meal-plan/route.js:124-126`, `Llama.FinishPassesListThrough`).

## Model

| member | source | states |
|---|---|---|
| Js.Truthy | app/settings/page.js:45 | ToBoolean: null and undefined are falsy, and every array and object is truthy |
| Js.Prop | app/api/off-search/route.js:54-57 | `v?.key` gives undefined on anything that is not an object, null and undefined included |
| Js.AtZero | app/page.js:204 | `v?.[0]` gives undefined on null/undefined and on "", the one-character string of the first character on any other string, and the first element of a non-empty array |
| Js.Length | app/page.js:191 | `.length` of a string is 0 exactly for "", and of an array is its number of elements, 0 exactly for [] |
| Js.Or | app/settings/page.js:50-57 | `a \|\| b` is `a` when `a` is truthy and `b` otherwise, so a truthy fallback makes the result truthy |
| Js.Coalesce | app/api/off-search/route.js:54-57 | `a ?? b` is `a` unless it is null/undefined, so a non-nullish fallback makes the result non-nullish |
| Js.Member | app/api/meal-plan/route.js:23 | a plain property read throws exactly on null/undefined and otherwise reads what `?.` reads |
| Js.Utf16Length | app/page.js:125 | `.length` counts UTF-16 code units: at least one and at most two per character, and 0 only for "" |
| Js.TrimStart | app/page.js:125 | drops leading white space: what remains is a suffix that starts with a non-space, and all that was dropped is white space |
| Js.TrimEnd | app/page.js:125 | drops trailing white space: what remains is a prefix that ends with a non-space, and all that was dropped is white space |
| Js.LeadingSpace | app/page.js:125 | the length of the longest white-space prefix: every character before it is white space and the one at it, if any, is not |
| Js.Trim | app/page.js:125 | `trim()` gives the slice of the string between its leading and trailing white space, and that slice starts and ends with a non-space |
| Js.TrimEmpty | app/api/llama-food/route.js:25-28 | a string trims to "" exactly when it is all white space |
| Js.TrimIdempotent | app/page.js:125-136 | trimming twice is trimming once |
| Js.Join | app/api/off-search/route.js:19-29 | `join` starts with the first piece, followed by the separator when there is a second piece; Js.SplitJoin shows the pieces read back |
| Js.Split | app/api/off-search/route.js:19-29 | the decoder that reads a separated list back (the code never calls `split`): at least one piece, none holding the separator |
| Js.SplitJoin | app/api/off-search/route.js:19-29 | reading back a join of separator-free pieces gives the pieces, in order, so the comma-joined field list is unambiguous |
| Calories.GoalAdjust | app/settings/page.js:67 | the goal adjustment is -300, 0 or 300 |
| Calories.ActivityAdjust | app/settings/page.js:68-69 | the activity adjustment is -150, 0 or 150 |
| Calories.TargetCalories | app/settings/page.js:66-71 | the target is between 1550 and 2450, on the 150-kcal grid from 1550 |
| Calories.GoalEffect | app/settings/page.js:67-71 | the goal moves the target by -300 for "lose", +300 for "gain" and 0 for any other value |
| Calories.TargetsAreExactlyTheGrid | app/survey/page.js:36-41 | a number is a reachable target exactly when it is one of the seven values 1550, 1700, …, 2450 |
| Calories.TargetDoesNotDetermineProfile | app/settings/page.js:66-71 | "lose"+"high" and "maintain"+"low" give the same target, 1850, and "maintain"+"high" and "gain"+"low" the same target, 2150 |
| Calories.BaseTargetIffNeutral | app/settings/page.js:66-71 | the target is 2000 exactly when neither the goal nor the activity adjusts it; "maintain"+"moderate" gives 2000 |
| Calories.TargetMonotoneInGoal | app/settings/page.js:67-71 | for a fixed activity, "lose" < any other goal < "gain" |
| Settings.LoadedForm | app/settings/page.js:44-57 | with no truthy stored profile there is no form; otherwise each field is the stored one when truthy and its default (lose, No preference, "", "", "", moderate, medium, sometimes) when not |
| Settings.Profile | app/settings/page.js:73-83 | the saved profile object has exactly the nine keys |
| Settings.ProfileShape | app/settings/page.js:73-83 | the saved profile has exactly the nine keys; the eight form fields are copied unchanged and only targetCalories is derived |
| Settings.ProfileField | app/settings/page.js:73-83 | the profile key of each form field holds that field |
| Settings.ProfileHasNineKeys | app/settings/page.js:73-83 | the profile's key set has nine elements |
| Settings.ReloadAfterSave | app/settings/page.js:50-57 | loading a saved profile gives back every truthy field and the default for every falsy one, so the form comes back exactly when each field is truthy or already its default |
| Settings.LoadSaveLoad | app/settings/page.js:50-85 | saving a loaded form and loading it again gives the same form |
| Settings.SettingsPage.constructor | app/settings/page.js:32-41 | the form starts at the defaults, and the flags start false |
| Settings.SettingsPage.LoadExisting | app/settings/page.js:43-58 | with no stored profile the page redirects to /survey and sets no field; otherwise the form becomes the loaded form |
| Settings.SettingsPage.Submit | app/settings/page.js:60-87 | the profile of the current form, with its recomputed target, is saved; then saving is false and saved is true |
| Survey.Summary | app/survey/page.js:43-51 | the summary object has exactly the seven keys |
| Survey.SummaryShape | app/survey/page.js:36-51 | the summary has exactly seven keys (no cookingTime or mealPrep), copies the six fields, and its target is one of the seven grid values |
| Survey.SameTargetAsSettings | app/survey/page.js:36-41 | for the same goal and activity, the survey's target equals the one the settings page saves |
| Survey.SurveyPage.constructor | app/survey/page.js:22-29 | the form starts at its initial values, saving is false and the summary is null |
| Survey.SurveyPage.Submit | app/survey/page.js:31-54 | the summary of the current form is set, and saving is false afterwards |
| GcpAuth.GetAccessToken | lib/gcpAuth.js:12-33 | a resolved token is always truthy; resolution fails as "not configured" exactly when neither the key nor the manual token is set |
| GcpAuth.KeyTakesPrecedence | lib/gcpAuth.js:13-24 | with a key set, the manual token is never consulted, and a resolved token is the one minted from the parsed key |
| GcpAuth.EmptyMintedTokenFails | lib/gcpAuth.js:19-22 | a key whose minting yields a falsy token is an error, not a fallback to the manual token |
| GcpAuth.ManualTokenUnchanged | lib/gcpAuth.js:26-32 | without a key, a set manual token is returned unchanged |
| GcpAuth.OnlyCloudPlatformScope | lib/gcpAuth.js:3-17 | minting asks only for the cloud-platform scope: two minting oracles that agree there give the same result |
| Llama.Present | app/api/llama-food/route.js:64-73 | `.filter(Boolean)` keeps no more entries than the literal has |
| Llama.PresentKeepsExactly | app/api/meal-plan/route.js:68-85 | the filter keeps exactly the messages present in the literal |
| Llama.PresentOfThree | app/api/llama-food/route.js:64-73 | filtering a three-entry literal concatenates the entries that are present, in order |
| Llama.PresentOfFour | app/api/meal-plan/route.js:68-85 | filtering a four-entry literal concatenates the entries that are present, in order |
| Llama.ChatUrl | app/api/meal-plan/route.js:33 | the URL is https on the configured host, names the project and then the region, and ends in the chat-completions path |
| Llama.ProfileMessage | app/api/meal-plan/route.js:70-73 | a system message whose content is the header line followed by the profile's JSON |
| Llama.ParseContent | app/api/meal-plan/route.js:113-122 | only string content can fail to parse; any other content is used as it is |
| Llama.ReplyContent | app/api/meal-plan/route.js:108-111 | the content is `message.content` when that is not nullish, else `message` when that is not nullish, else ""; it is never nullish |
| Llama.ListField | app/api/meal-plan/route.js:124 | reading the list throws exactly on a null/undefined parsed value; an array is taken whole and anything else gives [] |
| Llama.Finish | app/api/meal-plan/route.js:97-126 | a non-OK upstream answer is 502 with the route's message; every status is 200, 500 or 502, and 200 exactly when a payload is returned |
| Llama.FinishParsing | app/api/llama-food/route.js:96-110 | string content that fails to parse is 500 "Model did not return valid JSON"; content that is not a string is used as it is |
| Llama.FinishPassesListThrough | app/api/meal-plan/route.js:113-126 | an array under the key is returned whole, whatever its length or entries, and anything else gives [] |
| MealPlan.TodayItems | app/api/meal-plan/route.js:24 | todayItems is the body's array when it is one, and [] otherwise |
| MealPlan.TodayMessage | app/api/meal-plan/route.js:74-79 | a system message whose content is the header line followed by today's items as a JSON array |
| MealPlan.Messages | app/api/meal-plan/route.js:65-86 | the messages are the system prompt, the profile, today's foods only when there are any, and the user request last: 4 or 3 of them |
| MealPlan.OnlyLastIsUser | app/api/meal-plan/route.js:65-86 | the last message is the user's and every one before it is a system message |
| MealPlan.HandlePost | app/api/meal-plan/route.js:10-127 | every status is 200, 400, 500 or 502; a 400 sends nothing; a sent request has the configured URL and model, `stream: false` and a truthy bearer token |
| MealPlan.AuthFailureFirst | app/api/meal-plan/route.js:11-20 | a token failure is a 500 before the body is read, whatever the body and the upstream, and nothing is sent |
| MealPlan.MissingProfile | app/api/meal-plan/route.js:23-31 | a missing or falsy profile is a 400, and no upstream call is made |
| MealPlan.RequestSent | app/api/meal-plan/route.js:33-95 | with a token and a profile, exactly the request with that token, the model, `stream: false` and the built messages is sent, and the reply is the shared tail's |
| MealPlan.NonArrayTodayItems | app/api/meal-plan/route.js:24-79 | a todayItems that is not an array counts as none, and the payload then has three messages |
| MealPlan.LabelSentenceNamesAll | app/api/meal-plan/route.js:54 | the enumeration of the meals names each of Breakfast, Lunch, Dinner and Snack |
| MealPlan.PromptsNameAllLabels | app/api/meal-plan/route.js:54-83 | both the system rules and the user message name all four labels |
| LlamaFood.Query | app/api/llama-food/route.js:25 | a string query is trimmed; a falsy query gives ""; a truthy non-string throws |
| LlamaFood.Messages | app/api/llama-food/route.js:61-74 | the messages are the system prompt, the profile only when it is truthy, and the query last: 3 or 2 of them |
| LlamaFood.HandlePost | app/api/llama-food/route.js:13-115 | every status is 200, 400, 500 or 502; a 400 sends nothing; a sent request has the configured URL and model, `stream: false`, and the configured token as bearer |
| LlamaFood.MissingTokenFirst | app/api/llama-food/route.js:11-22 | without GCP_ACCESS_TOKEN the reply is a 500, whatever the body, which is not read; nothing is sent |
| LlamaFood.QueryGuard | app/api/llama-food/route.js:25-30 | an empty trimmed query is a 400 with nothing sent, exactly; any non-empty trimmed query, however short, is sent as the last message |
| LlamaFood.ProfileMessageOnlyWithProfile | app/api/llama-food/route.js:26-74 | the profile message is sent exactly when the body's profile is truthy |
| OffSearch.QueryParam | app/api/off-search/route.js:6-7 | `searchParams.get("q") \|\| ""`: the parameter as given, and "" exactly when it is absent or empty |
| OffSearch.QueryRejected | app/api/off-search/route.js:9 | a query is rejected exactly when its trim is shorter than two UTF-16 code units; the emptiness test adds nothing |
| OffSearch.Request | app/api/off-search/route.js:16-37 | the request goes to the search endpoint with the fixed User-Agent and no caching, carries the raw query as search_text and page size "20", and its fields parameter reads back as the six names in order |
| OffSearch.Respond | app/api/off-search/route.js:39-61 | every status is 200 or 502; 502 exactly for a non-OK response; a 200 carries a count equal to its number of items |
| OffSearch.Nutrient | app/api/off-search/route.js:54-57 | a macro is null exactly when it is null or absent, and is otherwise the stored value |
| OffSearch.Normalise | app/api/off-search/route.js:49-58 | the name is always truthy: it is "Unnamed product" when falsy; a falsy brand or categories becomes "", a falsy image null, the code is copied, and each macro is the Nutrient of its Open Food Facts key (null only when null or absent) |
| OffSearch.NormaliseAll | app/api/off-search/route.js:48-59 | one item per product, in order, exactly when no product is null or undefined |
| OffSearch.HandleGet | app/api/off-search/route.js:5-62 | every status is 200, 400 or 502; nothing is sent exactly when the query is rejected; count equals the number of items |
| OffSearch.ShortQueryRejected | app/api/off-search/route.js:7-14 | a missing query, or one whose trim is shorter than 2, is a 400 with no upstream call |
| OffSearch.RequestParameters | app/api/off-search/route.js:16-29 | search_text is the raw, untrimmed query, page_size is "20", and fields lists exactly the six names in order |
| OffSearch.ItemsMirrorProducts | app/api/off-search/route.js:46-61 | a missing products gives count 0 and no items; an array gives items of the same length and order, with count equal to that length |
| OffSearch.UpstreamFailure | app/api/off-search/route.js:39-44 | a non-OK response from Open Food Facts is a 502 |
| OffSearch.ZeroMacroKept | app/api/off-search/route.js:54-57 | a stored 0 is kept rather than made null |
| Home.TooShort | app/page.js:125 | the client rejects a query exactly when its trim is shorter than two UTF-16 code units |
| Home.SearchBody | app/page.js:136 | the body has the one key `query`, holding the trimmed query, which a second trim leaves unchanged |
| Home.SearchOutcome | app/page.js:138-146 | the request yields new results exactly when the response is OK and its body is non-null JSON; missing items gives [] |
| Home.SearchCard.constructor | app/page.js:118-121 | the query and the error start "", loading starts false and the results start [] |
| Home.SearchCard.SetQuery | app/page.js:166 | the input sets the query and nothing else |
| Home.SearchCard.StartSearch | app/page.js:123-137 | a query whose trim is shorter than 2 sets "Type at least 2 characters." and sends nothing; otherwise the error is cleared, loading is set and the body carries the trimmed query |
| Home.SearchCard.FinishSearch | app/page.js:138-149 | on success the results are replaced; on failure they are kept and the error message is set; loading ends either way |
| Home.ClientQueryReachesModel | app/page.js:125-137 | a query the client accepts passes the route's guard, and the model receives the instructions and the trimmed query |
| Home.TagsOfValues | app/page.js:216-235 | each tag is for a macro asked for and carries that field's number |
| Home.TagsOfShows | app/page.js:216-235 | a macro asked for is shown exactly when its field is a number |
| Home.TagsOfOrder | app/page.js:216-235 | tags come in the order of the macros asked for |
| Home.Tags | app/page.js:216-235 | at most four tags; a tag is shown exactly when its field is a number (null or absent shows nothing), carries that number, and the order is calories, protein, carbs, fat |
| Home.AllMacrosOrdered | app/page.js:216-235 | the tag order lists every macro once, in increasing rank |
| Home.Upper | app/page.js:204 | ASCII upper-casing: no lower-case ASCII letter is left, every other character is kept, and so is the length |
| Home.Avatar | app/page.js:204 | the avatar is the upper-cased first character of a non-empty string name, and "FO" for a missing, empty, boolean or numeric name; it is never empty |
| Home.RenderItem | app/page.js:201-235 | a null item throws; any other item whose name has an avatar gives a card, which carries that avatar, the item's name and tags, and shows notes exactly when they are truthy |
| Home.RenderAll | app/page.js:201 | one card per item, in order, exactly when no item throws |
| Home.ClientResults | app/page.js:190-242 | the empty state is shown exactly when the results are falsy or of length 0; a non-empty array whose items all render shows their cards, and any cards shown are the rendering of the elements, one per element in order |
| Home.EmptyListShowsEmptyState | app/page.js:191-196 | an empty results list shows the empty state |

## Left out

- I/O is not modelled: the network, `fetch`, `NextResponse.json`, `req.json()`, `res.json()` and
  `res.text()`. Their outcomes are inputs (`Http.Upstream`, an optional body) and the response is a value.
  Error logging through `console.error` is not modelled.
- `JSON.parse` and `JSON.stringify` are oracles: the JSON grammar is not modelled.
- The google-auth-library client (`new GoogleAuth`, `getClient`, `getAccessToken`) is an oracle over the
  credentials and scopes it is given.
- `lib/profileStorage.js` is not part of this model. `loadProfile` becomes the value handed to
  `Settings.SettingsPage.LoadExisting`, and `saveProfile` the `savedProfile` field.
- The environment-variable defaults of the endpoint, region, project and model are `Llama.Config`, passed
  in. `GCP_SERVICE_ACCOUNT_KEY` and `GCP_ACCESS_TOKEN` are `GcpAuth.Env` or a parameter.
- JSX rendering, styling, `router.push` to `/` and the one-second `setTimeout` are not modelled. The
  redirect to `/survey` is the `redirectedToSurvey` flag.
- Form edits other than the search input (option pickers and text inputs of the survey and settings pages)
  are not modelled. React's batching of state updates is also not modelled: each handler is one atomic
  method.
- Home.Tags: `Math.round` and `toFixed` formatting is floating point; a tag carries the raw number.
- NaN is not modelled, so no number is falsy except 0.
- Prompt wording: apart from the sentence that names the four meals, both system prompts are paraphrased.
  Only the user message of `/api/meal-plan` is kept verbatim.
- Home.Upper: upper-cases ASCII letters only; `toUpperCase` maps all of Unicode, and can make a string longer ("ß" becomes "SS").
- Home.Avatar: upper-cases ASCII letters only, through Home.Upper.
- Home.Avatar: `?.[0]` takes the first code point, not the first UTF-16 code unit.
- Home.RenderItem: the rendered text of `name` and `notes` is not modelled, and neither is the React key.
  React throws when `{item.name}` is a plain object or `{item.notes}` is a truthy object
  (`app/page.js:209-211`); the model still returns a card then.
- Home.SearchCard.FinishSearch: the `await` between the request and its outcome is not modelled. A second
  submit while loading (the button is disabled) is not modelled either.
- The other pages and components of the application (the log, the daily totals, the meal-plan page) are
  not part of this model.
