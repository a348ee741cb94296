# Recipe Assistant: a verified model of its message routing

This project models the logic of `recipe_assist.py`, a chat front-end that
accepts a user message and does one of three things. It refuses a blank message.
It asks a language model whether the message is about food. If it is not, it
declines politely. If it is, it asks the model for a structured call to a
recipe-search function and sends that call's arguments to the Spoonacular
`complexSearch` endpoint.

The model covers:

- how `search_recipes` builds its query parameters (fixed defaults, truthy
  keyword arguments, lists joined with commas);
- how `is_recipe_query` reads the classifier's reply (`reply.lower().strip() == "true"`);
- how `process_message` routes a message and wraps its errors.

The Mistral chat calls and the HTTP request are not modelled as calls. Their
outcomes are inputs:

- the classifier's reply, or the message of the exception it raised;
- the tool-enabled completion;
- the search endpoint, as a function `fetch` from URL and parameters to a
  response body or a failure.

Files:

- `Wrappers.dfy`: `Option` and `Result`, standing for `None` and raised exceptions.
- `PyStr.dfy`: the Python string operations used, over the ASCII range: `isspace`,
  `lower`, `strip`, `','.join`, and `split` as the inverse of
  `join`.
- `RecipeSearch.dfy`: the keyword-argument values, Python
  truthiness, the parameter specification `SearchParams`, and the loop `BuildParams`
  proved against it.
- `RecipeAssistant.dfy`: the reply test, `is_recipe_query` and `search_recipes`
  with their error wrapping.
- `Router.dfy`: `process_message`.

The keyword arguments are a Python dictionary. `SearchParams` takes it as a `map`.
`BuildParams` walks `kwargs.items()` as a sequence of pairs with distinct keys, and
`MapOf` turns such a sequence into its dictionary.

## Model

| member | source | states |
|---|---|---|
| PyStr.IsSpace | recipe_assist.py:37 | `isspace()` below code point 128 holds for exactly tab, line feed, vertical tab, form feed, carriage return, the four separators 28-31 and the space |
| PyStr.LowerChar | recipe_assist.py:37 | `lower()` on one character: upper-case ASCII letters move to lower case, every other character is unchanged, and whitespace stays whitespace |
| PyStr.Lower | recipe_assist.py:37 | `lower()` keeps the length and lowers each character in place |
| PyStr.SkipSpace | recipe_assist.py:37 | the forward scan of `strip()` stops at the first character that is not whitespace, having passed only whitespace |
| PyStr.SkipSpaceBack | recipe_assist.py:37 | the backward scan of `strip()` stops just after the last character that is not whitespace, never going below where the forward scan stopped, having passed only whitespace |
| PyStr.Strip | recipe_assist.py:37 | `strip()` is no longer than its input and starts and ends with non-whitespace |
| PyStr.StripSplit | recipe_assist.py:37 | the input is leading whitespace, then the stripped text, then trailing whitespace |
| PyStr.StripUnique | recipe_assist.py:37 | text padded with whitespace on both sides, with no whitespace at its own ends, is exactly what `strip()` returns |
| PyStr.StripIdempotent | recipe_assist.py:37 | stripping twice gives the same as stripping once |
| PyStr.Join | recipe_assist.py:53 | joining no elements gives `""`; joining one element gives that element |
| PyStr.JoinPair | recipe_assist.py:53 | two elements are joined with the separator between them |
| PyStr.SplitJoin | recipe_assist.py:53 | when no element contains a comma, splitting the comma-joined string at commas gives back the original non-empty list |
| RecipeSearch.Truthy | recipe_assist.py:51 | the falsy values are exactly None, `False`, `0`, `""` and `[]` |
| RecipeSearch.Serialize | recipe_assist.py:52-55 | a stored value is never a list: a list is stored as its comma-joined string, anything else unchanged |
| RecipeSearch.Defaults | recipe_assist.py:43-48 | the parameters start with exactly the four keys `apiKey`, `addRecipeInformation`, `fillIngredients` and `number`, the key under `apiKey` |
| RecipeSearch.Overrides | recipe_assist.py:50-55 | the stored arguments are exactly the truthy ones, each serialised |
| RecipeSearch.MapOf | recipe_assist.py:50 | the dictionary behind `kwargs.items()` has exactly the listed keys |
| RecipeSearch.SearchParams | recipe_assist.py:43-55 | the keys are the four defaults plus the keys with truthy values; a truthy list is sent comma-joined; any other truthy value is sent unchanged, also where it replaces a default; a default that no truthy argument overrides keeps its fixed value |
| RecipeSearch.BuildParams | recipe_assist.py:43-55 | the dict-mutating loop over `kwargs.items()` produces exactly `SearchParams` of the dictionary those items make up |
| RecipeSearch.MapOfAt | recipe_assist.py:50 | with distinct keys, each listed pair is found in the dictionary, with its own value |
| RecipeSearch.SearchParamsStep | recipe_assist.py:50-55 | one round of the loop (a new key: skip it if falsy, otherwise store its serialised value) matches adding that key to the dictionary |
| RecipeSearch.MapOfExact | recipe_assist.py:50 | the dictionary holds every listed pair and nothing else |
| RecipeSearch.SameDictionary | recipe_assist.py:50 | two listings of the same pairs with distinct keys make the same dictionary |
| RecipeSearch.OrderIndependent | recipe_assist.py:43-55 | the parameters do not depend on the order of the keyword arguments |
| RecipeSearch.DefaultsKept | recipe_assist.py:43-48 | with no argument named like a default, `apiKey`, `addRecipeInformation`, `fillIngredients` and `number` are the key, `True`, `True` and `5` |
| RecipeSearch.FalsyIgnored | recipe_assist.py:51 | a falsy argument (None, `False`, `0`, `""`, `[]`) has the same effect as leaving the argument out |
| RecipeSearch.TruthyOverrides | recipe_assist.py:54-55 | a truthy value that is not a list is stored unchanged under its key, replacing any default |
| RecipeSearch.FalsyExamples | recipe_assist.py:50-51 | `number=0` leaves `number` at 5; `intolerances=[]` is not sent |
| RecipeSearch.JoinedListExample | recipe_assist.py:52-53 | `["chicken", "rice"]` is sent as `"chicken,rice"` |
| RecipeSearch.SingleListExample | recipe_assist.py:52-53 | a one-element list is sent as that element |
| RecipeAssistant.Normalize | recipe_assist.py:37 | `reply.lower().strip()` is no longer than the reply, has no whitespace at either end and is its own lower-case form |
| RecipeAssistant.IsRecipeReply | recipe_assist.py:37 | a reply counts as yes exactly when it is `true` in any letter case with only whitespace around it (both directions) |
| RecipeAssistant.NormalizeIdempotent | recipe_assist.py:37 | `strip(lower(.))` applied twice gives the same as applied once |
| RecipeAssistant.IsRecipeReplyNormalized | recipe_assist.py:37 | the reply test gives the same answer on `strip(lower(reply))` as on `reply` |
| RecipeAssistant.PaddedTrueIsRecipe | recipe_assist.py:37 | a reply that is `true` in any letter case, with only whitespace around it, normalises to `"true"` |
| RecipeAssistant.PadsBeneathLower | recipe_assist.py:37 | where the lower-cased reply has only whitespace at its ends, the reply itself does too |
| RecipeAssistant.RecipeIsPaddedTrue | recipe_assist.py:37 | a reply that normalises to `"true"` has that shape, and the lemma returns where `true` starts and ends |
| RecipeAssistant.TrueReplyShape | recipe_assist.py:37 | the normalised reply is `"true"` exactly when the reply has the padded-`true` shape |
| RecipeAssistant.UpperCasePaddedExample | recipe_assist.py:37 | `"  TRUE\n"` counts as yes |
| RecipeAssistant.RejectedExamples | recipe_assist.py:37 | `"true."`, `"yes"` and `""` do not count as yes |
| RecipeAssistant.IsRecipeQuery | recipe_assist.py:28-39 | it succeeds exactly when the chat call succeeds, with yes exactly when the normalised reply is `"true"`; a failure is re-raised as `"Error determining recipe query: "` followed by the original message |
| RecipeAssistant.SearchRecipes | recipe_assist.py:41-62 | the endpoint receives `SearchParams` of the arguments; its body is returned unchanged; a request exception is re-raised behind `"Error fetching recipes: "`; any other exception passes through unchanged |
| Router.FirstArguments | recipe_assist.py:90-91 | no tool-call list gives the `TypeError` of subscripting `None`, an empty one the `IndexError`; otherwise the result is the decoded arguments of the first call |
| Router.RecipeBranch | recipe_assist.py:84-93 | the recipe branch succeeds exactly when the completion succeeds, the first call's arguments decode, they do not name `self`, and the search succeeds; it then returns the model's text, the search results and `True`; otherwise it fails with the message of the first step that failed, and arguments naming `self` fail with the `TypeError` of the method call |
| Router.Route | recipe_assist.py:75-98 | a blank message raises `ValueError("Message cannot be empty.")`; a classifier failure is raised as `"Error processing message: "` followed by `is_recipe_query`'s own message; a rejected message gets the decline triple; for an accepted one the recipe branch's reply is returned, or its error message raised behind `"Error processing message: "` |
| Router.ProcessMessage | recipe_assist.py:75-98 | a `ValueError("Message cannot be empty.")` exactly for blank messages; every other error is an `Exception` whose message is `"Error processing message: "` followed by the inner message, which is `is_recipe_query`'s when the classifier failed and the recipe branch's otherwise; a reply whose flag is `False` is the decline triple; any reply means the classifier answered, and the flag is `True` exactly when that answer was yes |
| Router.ProcessMessageAsWritten | recipe_assist.py:84-89 | with `tools` undefined, the only successful reply is the decline triple |
| Router.BlankRejected | recipe_assist.py:77-78 | a blank message raises the unwrapped `ValueError`, whatever the classifier, the model and the endpoint would do |
| Router.NonRecipeDeclined | recipe_assist.py:94-96 | a message the classifier rejects gets `(decline text, None, False)`, whatever the model and the endpoint would do |
| Router.RecipeSearched | recipe_assist.py:82-93 | a food message whose first tool call decodes to arguments not naming `self`, and whose search succeeds, returns the model's text, the results fetched for `SearchParams` of that call's arguments, and `True` |
| Router.SelfArgumentRejected | recipe_assist.py:92-98 | arguments holding the key `self` clash with the bound method's `self`: the search is not sent and the call fails with the wrapped `TypeError` |
| Router.RecipeFlagIff | recipe_assist.py:75-98 | the flag is `True` exactly when the message is not blank, the classifier says yes and the whole recipe branch succeeds |
| Router.EmptyToolCallsWrapped | recipe_assist.py:90-98 | a food message whose answer holds an empty tool-call list fails with `"Error processing message: list index out of range"`; there is no fallback to plain chat |
| Router.NoToolCallsWrapped | recipe_assist.py:90-98 | a food message whose answer has no tool-call list fails with the wrapped `TypeError` message; there is no fallback to plain chat |
| Router.FirstCallOnly | recipe_assist.py:90 | only the arguments of the first tool call matter: its name and any later calls do not change the result |
| Router.AsWrittenNeverSearches | recipe_assist.py:87 | as written, no message gets a recipe reply; every message classified as food ends in `"Error processing message: name 'tools' is not defined"` |

## Left out

- `chat` (recipe_assist.py:17-26): it is nothing but a foreign chat call, and `process_message` does not use it.
- The Mistral chat calls (recipe_assist.py:33-36, 84-89) and the classifier prompt text (recipe_assist.py:31-32) are not modelled. Their outcomes are inputs: a reply or an error message for the classifier, and a `ChatMessage` or an error message for the tool-enabled completion. A classifier reply whose `content` is `None` falls in the error case.
- `requests.get`, `raise_for_status` and `response.json()` (recipe_assist.py:57-62) are the `fetch` parameter. The response body is an opaque type parameter.
- `get_recipe_details` (recipe_assist.py:64-73): it is HTTP I/O plus URL formatting, and the routing never uses it.
- `json.loads` of the tool-call arguments (recipe_assist.py:91) is not modelled. Its outcome is `ToolCall.arguments`: a decoded dictionary, or the decoder's error message. Arguments that decode to something other than an object, and so make `**` fail, count as that error case.
- The tool schema `tools` (recipe_assist.py:87) is referenced but never defined. `ProcessMessage` assumes it is declared; `ProcessMessageAsWritten` models the `NameError` (see Findings). The schema's content is not modelled.
- `main()` (recipe_assist.py:100-157) is not modelled: Streamlit layout, API-key entry, the session message log and recipe cards.
- `lstrip()` and `rstrip()` are not used by the code and are not modelled.
- `lower()` and `strip()` are modelled on code points below 128 only. Non-ASCII case mappings and non-ASCII whitespace are not modelled.
- `Value` covers None, booleans, integers, strings and lists of strings. Floats, nested objects and lists with non-string elements are not modelled. For such lists, `join` would raise `TypeError`.
- RecipeSearch.BuildParams: does not model the insertion order of the `params` dictionary, which fixes the order of the query string. `map` is unordered.
- RecipeSearch.BuildParams: requires distinct keys, as a Python dictionary's `items()` always has.
- Exception objects are reduced to their kind and message. Tracebacks and exception chaining are not modelled.
- The code takes the first tool call and ignores the rest (`Router.FirstCallOnly`). It always sends `addRecipeInformation`, `fillIngredients` and `number`, whatever the arguments.

## Findings

| source | as written | input that shows it | evidently intended | confidence | as-written member | corrected member |
|---|---|---|---|---|---|---|
| recipe_assist.py:87 | the tool-enabled chat call passes `tools=tools`, but no `tools` is defined or imported in the module, so evaluating the call raises `NameError` | any non-blank message the classifier answers `true` to, e.g. "chicken and rice" | `tools` is the declared schema of the recipe-search function, and the branch returns the search results with flag `True` | high, not executed | Router.AsWrittenNeverSearches | Router.RecipeSearched |
