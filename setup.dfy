/** `ToolsSetup`: the object that holds the optional real-time search clients
    and the catalogue of tools handed to the language model. The weather,
    currency and DuckDuckGo clients and the language model are foreign and
    are not fields of this model. */
module Setup {
  import opened Common
  import Search

  /** The two search keys read from the environment (None when unset). */
  datatype Config = Config(serpapiKey: Option<string>, serperApiKey: Option<string>)

  /** The tools `build_tools` returns. */
  datatype Tool =
    | SearchAttractions | SearchRestaurants | SearchTransportation
    | GetCurrentWeather | GetWeatherForecast | SearchHotels
    | EstimateHotelCost | Add | Multiply | CalculateTotalCost
    | CalculateDailyBudget | GetExchangeRate | ConvertCurrency
    | CreateDailyPlan | CompleteTravelPlan

  /** The name under which a tool is offered to the model: its Python function name. */
  function ToolName(t: Tool): string
  {
    match t
    case SearchAttractions => "search_attractions"
    case SearchRestaurants => "search_restaurants"
    case SearchTransportation => "search_transportation"
    case GetCurrentWeather => "get_current_weather"
    case GetWeatherForecast => "get_weather_forecast"
    case SearchHotels => "search_hotels"
    case EstimateHotelCost => "estimate_hotel_cost"
    case Add => "add"
    case Multiply => "multiply"
    case CalculateTotalCost => "calculate_total_cost"
    case CalculateDailyBudget => "calculate_daily_budget"
    case GetExchangeRate => "get_exchange_rate"
    case ConvertCurrency => "convert_currency"
    case CreateDailyPlan => "create_daily_plan"
    case CompleteTravelPlan => "complete_travel_plan"
  }

  /** `build_tools`: fifteen tools with distinct names, every tool once, in
      the listed order. */
  function BuildTools(): (tools: seq<Tool>)
    ensures |tools| == 15
    ensures tools[0] == SearchAttractions && tools[14] == CompleteTravelPlan
    ensures forall i, j :: 0 <= i < j < |tools| ==> tools[i] != tools[j]
  {
    [ SearchAttractions, SearchRestaurants, SearchTransportation,
      GetCurrentWeather, GetWeatherForecast, SearchHotels,
      EstimateHotelCost, Add, Multiply, CalculateTotalCost,
      CalculateDailyBudget, GetExchangeRate, ConvertCurrency,
      CreateDailyPlan, CompleteTravelPlan ]
  }

  /** Every tool is in the catalogue. */
  lemma CatalogueComplete(t: Tool)
    ensures t in BuildTools()
  {
  }

  /** Distinct tools are offered under distinct names. */
  lemma ToolNameInjective(a: Tool, b: Tool)
    requires ToolName(a) == ToolName(b)
    ensures a == b
  {
  }

  /** The catalogue's names are pairwise distinct, so a name resolves to one tool. */
  lemma CatalogueNamesDistinct(i: nat, j: nat)
    requires i < j < |BuildTools()|
    ensures ToolName(BuildTools()[i]) != ToolName(BuildTools()[j])
  {
  }

  /** The provider slot `__init__` sets up: a client when the key is truthy
      and constructing the wrapper did not raise, None otherwise. */
  function ProviderSlot(key: Option<string>, wrapperRaises: bool): (slot: Option<Search.SearchClient>)
    ensures slot.Some? <==> Truthy(key) && !wrapperRaises
    ensures slot.Some? ==> slot.value.apiKey == key.value
  {
    if Truthy(key) && !wrapperRaises then Some(Search.SearchClient(key.value)) else None
  }

  class ToolsSetup {
    var serperSearch: Option<Search.SearchClient>
    var serpSearch: Option<Search.SearchClient>
    var tools: seq<Tool>

    /** `ToolsSetup.__init__`: each slot gets a client when its key is set
        and the wrapper's constructor does not raise (the raise is caught);
        then the tools are built. Whether a wrapper raises is an input. */
    constructor (config: Config, serperWrapperRaises: bool, serpWrapperRaises: bool)
      ensures serperSearch == ProviderSlot(config.serperApiKey, serperWrapperRaises)
      ensures serpSearch == ProviderSlot(config.serpapiKey, serpWrapperRaises)
      ensures tools == BuildTools()
    {
      if Truthy(config.serperApiKey) {
        if serperWrapperRaises {
          serperSearch := None;
        } else {
          serperSearch := Some(Search.SearchClient(config.serperApiKey.value));
        }
      } else {
        serperSearch := None;
      }
      if Truthy(config.serpapiKey) {
        if serpWrapperRaises {
          serpSearch := None;
        } else {
          serpSearch := Some(Search.SearchClient(config.serpapiKey.value));
        }
      } else {
        serpSearch := None;
      }
      tools := BuildTools();
    }
  }

  /** With no SerpAPI key configured, `search_restaurants` answers exactly
      what DuckDuckGo answers. */
  lemma RestaurantsWithoutSerpApi(config: Config, serpWrapperRaises: bool, city: string, p: Search.Providers)
    requires !Truthy(config.serpapiKey) || serpWrapperRaises
    ensures Search.SearchRestaurants(city, ProviderSlot(config.serpapiKey, serpWrapperRaises), p)
         == Search.DuckDuckGo(p, Search.RestaurantsQuery(city))
  {
  }
}
