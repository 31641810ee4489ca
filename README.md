# Travel planner tools — a Dafny model

This project models the tool functions of an LLM-driven trip planner. The
assistant gives a language model a catalogue of fifteen tools. These tools
search the web, fetch weather, format a daily plan or a final instruction, and
do small calculations. Everything the tools depend on is an input of the model:
the search clients (SerpAPI, Google Serper, DuckDuckGo), the weather service and
the configuration. The model covers:

- `common.dfy` (`Common`): optional values, how a tool call ends (a returned
  value or an escaping exception), and Python truthiness of an optional string.
- `text.dfy` (`Text`): the Python string operations the tools use. These are
  `str(int)`, `split`, `join`, `split(' ')[0]` and the slice `s[:n]`.
- `search.dfy` (`Search`): the four search tools. Each tries its real-time
  providers in a fixed order and accepts an answer only when it is truthy and
  longer than 50 characters. An accepted answer is returned behind a fixed
  prefix. When no provider is accepted, the tool returns what DuckDuckGo gives.
  Python's local `serp_result` is modelled as unbound or bound. The fallback
  policy is also stated independently as `FallbackChain`, and each tool is
  proved equal to a chain.
- `weather.dfy` (`Weather`): `get_current_weather`, with its `'N/A'` defaults,
  and `get_weather_forecast`. The forecast is a stride-8 loop over the reply's
  list, proved against a specification of the entries it visits.
- `planning.dfy` (`Planning`): `create_daily_plan` and its 400-character
  excerpt, `complete_travel_plan` and its nine numbered sections, and the
  `days <= 0` guard of `calculate_daily_budget`.
- `setup.dfy` (`Setup`): `ToolsSetup.__init__` as a class whose constructor
  fills the two optional search-client slots, and the catalogue that
  `build_tools` returns.

A Python dictionary that is `None` or empty is falsy. Both are modelled as
`None`, and a `Some` reply stands for a non-empty dictionary. Temperatures are
carried as the text Python prints for them.

One might expect a search tool always to answer, since DuckDuckGo is its last
resort. As written, however, the DuckDuckGo call is not guarded
(toolsSetUp.py:66, 81, 96, 144). A DuckDuckGo client that raises therefore makes
the tool raise. The model follows the code here: see `Search.DuckDuckGo`.

## Model

| member | source | states |
|---|---|---|
| `Search.TryProvider` | toolsSetUp.py:73-79 | a provider stage returns exactly when the slot is set, `run` returns, and the answer is truthy and longer than 50 characters; it returns the prefix followed by the answer; when it falls through, its variable is unbound or holds an implausible answer |
| `Search.DuckDuckGo` | toolsSetUp.py:66 | the unguarded DuckDuckGo call: its answer, or the tool raises when the client raises |
| `Search.FallbackChain` | toolsSetUp.py:46-66 | reference policy: the first accepting provider answers behind its prefix, and DuckDuckGo answers when none accepts |
| `Search.TrySerperMeasuringSerp` | toolsSetUp.py:58-64 | the Serper stage as written returns exactly when Serper's answer is truthy and the SerpAPI stage's variable is bound to an answer of more than 50 characters; what it returns is the prefix and Serper's answer |
| `Search.SearchAttractions` | toolsSetUp.py:46-66 | as written, equals the chain of SerpAPI alone, whatever Serper answers; it raises exactly when SerpAPI is rejected and DuckDuckGo raises |
| `Search.SearchRestaurants` | toolsSetUp.py:69-81 | equals the chain of SerpAPI alone: "Latest restaurant results: " or DuckDuckGo; it raises exactly when SerpAPI is rejected and DuckDuckGo raises |
| `Search.SearchTransportation` | toolsSetUp.py:84-96 | equals the chain of Serper alone: "Latest transport data: " or DuckDuckGo; it raises exactly when Serper is rejected and DuckDuckGo raises |
| `Search.SearchHotels` | toolsSetUp.py:124-144 | as written, equals the chain of SerpAPI alone, whatever Serper answers; it raises exactly when SerpAPI is rejected and DuckDuckGo raises |
| `Search.SerperStageNeverReturns` | toolsSetUp.py:58-64 | after the SerpAPI stage falls through, the Serper stage that measures `serp_result` never returns |
| `Search.AttractionsOutcomes` | toolsSetUp.py:50-66 | a plausible SerpAPI answer is returned behind "Latest search results: "; in every other case the result is exactly DuckDuckGo's |
| `Search.HotelsOutcomes` | toolsSetUp.py:128-144 | a plausible SerpAPI answer is returned behind "Real-time hotel data: "; in every other case the result is exactly DuckDuckGo's |
| `Search.SerperAnswerIgnored` | toolsSetUp.py:58-66 | concrete case: no SerpAPI and a 61-character Serper answer; as written the tool returns DuckDuckGo's answer, and the intended version returns Serper's |
| `Search.HotelsSerperAnswerIgnored` | toolsSetUp.py:136-144 | the same concrete case for hotels, with a 66-character Serper answer |
| `Search.SearchAttractionsIntended` | toolsSetUp.py:58-62 | corrected attractions tool: equals the two-provider chain SerpAPI then Serper |
| `Search.SearchHotelsIntended` | toolsSetUp.py:136-140 | corrected hotels tool: equals the two-provider chain SerpAPI then Serper |
| `Search.IntendedFallsBackToSerper` | toolsSetUp.py:58-62 | whenever SerpAPI is rejected (no client, `run` raised, None, "" or at most 50 characters) and Serper answers plausibly, the corrected tool returns Serper's answer |
| `Weather.GetCurrentWeather` | toolsSetUp.py:99-106 | a falsy reply gives "Could not fetch weather for {city}"; a missing temperature or description reads "N/A" (an absent `weather` key defaults to `[{}]`); an empty `weather` list raises |
| `Weather.CurrentWeatherFailureDistinct` | toolsSetUp.py:105-106 | a weather report never equals the failure text |
| `Weather.Sampled` | toolsSetUp.py:114-115 | the visited entries are the list's entries at indices 0, 8, 16, ..., in order, and there are as many as `range(0, min(len, days*8), 8)` has |
| `Weather.ForecastReport` | toolsSetUp.py:112-121 | the failure text exactly when the reply is falsy or has no `list`; a raise exactly when some visited entry is malformed; otherwise the header followed by the visited entries' lines joined by newlines |
| `Weather.GetWeatherForecast` | toolsSetUp.py:109-121 | the loop's result equals the specified report: the failure text for a falsy reply or a missing `list`, a raise for a malformed visited entry, otherwise the header and one line per visited entry joined by newlines |
| `Weather.ForecastLineCount` | toolsSetUp.py:114 | no lines when `days <= 0`, at most `days` lines, and exactly `days` lines when the list holds at least `days * 8` entries |
| `Weather.DefaultForecastLineCount` | toolsSetUp.py:109-114 | with the default `days = 5` and at least 40 entries, the forecast has exactly five lines |
| `Weather.SampledCoversStride` | toolsSetUp.py:114-115 | every multiple of 8 below `min(len, days*8)` is visited |
| `Weather.ForecastLineDate` | toolsSetUp.py:116-119 | a line starts with its date; the date is the prefix of `dt_txt` up to its first space and holds no space |
| `Weather.ForecastLinesRecoverable` | toolsSetUp.py:119-120 | when at least one entry is visited, every visited entry is well formed and no line contains a newline, splitting the report after the header on newlines gives back exactly the visited entries' lines, in order |
| `Text.IntTextRoundTrip` | toolsSetUp.py:238 | the day number and trip length print as decimal text that reads back to the same integer |
| `Text.SplitJoinRoundTrip` | toolsSetUp.py:120 | splitting a newline join gives back its parts when no part contains a newline |
| `Text.BeforeFirstSpaceIsPrefix` | toolsSetUp.py:116 | `split(' ')[0]` is a prefix without spaces that ends at the first space or at the end |
| `Text.Prefix` | toolsSetUp.py:240 | `s[:n]` is the prefix of length `min(len(s), n)` |
| `Planning.CreateDailyPlan` | toolsSetUp.py:236-241 | the plan starts with the day, city and weather head and is at most 400 characters longer than the head and the fixed tail; an attractions text of at most 400 characters is embedded whole, followed by "..." and the tips |
| `Planning.DailyPlanExcerpt` | toolsSetUp.py:236-241 | the plan embeds exactly the first `min(len, 400)` characters of the attractions text, right before "..." |
| `Planning.DailyPlanLengthBounded` | toolsSetUp.py:240 | the attractions text adds at most 400 characters to the plan |
| `Planning.CompleteTravelPlan` | toolsSetUp.py:243-267 | the instruction starts with the sentence naming the trip length and city and ends with the formatting request |
| `Planning.SectionsInOrder` | toolsSetUp.py:254-267 | sections 1 to 9 stand at consecutive offsets of the instruction, each numbered and in the fixed order |
| `Planning.CalculateDailyBudget` | toolsSetUp.py:198-211 | raises ValueError "Days must be greater than zero." exactly when `days <= 0`; otherwise the result times `days` is the total |
| `Setup.BuildTools` | toolsSetUp.py:269-275 | fifteen tools, pairwise distinct, starting with `search_attractions` and ending with `complete_travel_plan` |
| `Setup.CatalogueComplete` | toolsSetUp.py:269-275 | every tool of the model is in the catalogue |
| `Setup.ToolNameInjective` | toolsSetUp.py:45-243 | distinct tools have distinct function names |
| `Setup.CatalogueNamesDistinct` | toolsSetUp.py:269-275 | the catalogue's names are pairwise distinct |
| `Setup.ProviderSlot` | toolsSetUp.py:20-35 | a slot holds a client exactly when its key is truthy and the wrapper's constructor did not raise |
| `Setup.ToolsSetup.constructor` | toolsSetUp.py:13-40 | both slots are set as `ProviderSlot` says, and the tools are the catalogue |
| `Setup.RestaurantsWithoutSerpApi` | toolsSetUp.py:29-35 | with no SerpAPI key, or a wrapper that raised, restaurant search answers exactly what DuckDuckGo answers |

## Findings

| source | as written | input that shows it | evidently intended | confidence | as-written member | corrected member |
|---|---|---|---|---|---|---|
| toolsSetUp.py:61 | `if serper_result and len(serp_result) > 50` | no SerpAPI key; Serper answers 61 characters; DuckDuckGo answers "ddg": the tool returns "ddg" | test `len(serper_result)` and return "Current search data: " followed by Serper's answer | high (not executed) | `Search.SerperAnswerIgnored` | `Search.SearchAttractionsIntended` |
| toolsSetUp.py:139 | `if serper_result and len(serp_result) > 50` | the same input for `search_hotels`, with a 66-character Serper answer: the tool returns "ddg" | test `len(serper_result)` and return "Latest hotel availability: " followed by Serper's answer | high (not executed) | `Search.HotelsSerperAnswerIgnored` | `Search.SearchHotelsIntended` |

## Left out

- The agent loop, its routing between model and tools, and the step limit of 12 are not modelled. They belong to the graph library that main.py configures (main.py:71-84, 95), and that library is not part of this model. The Streamlit interface in main.py is also left out.
- The weather, currency, SerpAPI, Serper and DuckDuckGo clients and the language model are foreign calls. Their answers, including whether they raise, are inputs. Whether a wrapper's constructor raises is an input of `Setup.ToolsSetup.constructor`.
- `add`, `multiply` and `calculate_total_cost` are float arithmetic with `round(…, 2)`. Floating point is not modelled.
- `estimate_hotel_cost` calls the tool object `multiply` rather than a plain function. What that does depends on the tool library's calling convention, which is not part of this model.
- `get_exchange_rate` and `convert_currency` call instance methods through the class. Their arguments shift onto `self`, so they cannot succeed, and they are not modelled.
- Planning.CalculateDailyBudget: the result is the exact real quotient. Float division and rounding to two places are not modelled.
- Weather.GetCurrentWeather: replies whose `main` or `weather` entries are not dictionaries or lists, and the resulting type errors, are not modelled. Temperatures are taken as already-printed text.
- Weather.GetWeatherForecast: a visited entry missing `dt_txt`, `main.temp` or `weather[0].description` raises one error, `MissingField`. The model does not say which key was missing or whether it was a KeyError or an IndexError.
- Tool docstrings, parameter schemas and the binding of tools to the model are not modelled. The catalogue is modelled by tool and name only. The defaults `days = 5` and `budget_range = "mid-range"` are constants, used by `Weather.DefaultForecastLineCount` and `Search.HotelsSerperAnswerIgnored`.
- A search provider's `run` is modelled as returning an optional string. Non-string answers are not modelled.
