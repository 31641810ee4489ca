/** The four web-search tools of `ToolsSetup.build_tools`. Each tries the
    optional real-time providers (SerpAPI, Google Serper) in a fixed order,
    accepts a provider's answer only when it is truthy and longer than 50
    characters, returns it behind a fixed prefix, and otherwise returns what
    the DuckDuckGo search gives for the same query. The clients themselves
    are foreign: what they answer for a query is an input of the model. */
module Search {
  import opened Common

  /** Answers shorter than this many characters (or equal to it) are rejected. */
  const MinResultLength := 50

  /** A configured SerpAPI or Serper wrapper, held in an optional slot of `ToolsSetup`. */
  datatype SearchClient = SearchClient(apiKey: string)

  /** What one call of a provider's `run(query)` does. */
  datatype RunOutcome = Threw | Returned(result: Option<string>)

  /** The outside world as seen by the search tools: the answer of each client
      to each query. `duckDuckGo` gives None when the client raises. */
  datatype Providers = Providers(
    serpApi: string -> RunOutcome,
    serper: string -> RunOutcome,
    duckDuckGo: string -> Option<string>)

  /** The state of a Python local such as `serp_result` after a stage:
      never assigned (the provider slot was empty or `run` raised), or bound. */
  datatype Local = Unbound | Bound(value: Option<string>)

  /** How one provider stage ends: with a `return`, or by falling through
      with its result variable in the given state. */
  datatype Stage = Returns(text: string) | FallsThrough(result: Local)

  /** The test `r and len(r) > 50`. */
  predicate Plausible(r: Option<string>)
  {
    Truthy(r) && |r.value| > MinResultLength
  }

  const AttractionsSerpPrefix := "Latest search results: "
  const AttractionsSerperPrefix := "Current search data: "
  const RestaurantsSerpPrefix := "Latest restaurant results: "
  const TransportSerperPrefix := "Latest transport data: "
  const HotelsSerpPrefix := "Real-time hotel data: "
  const HotelsSerperPrefix := "Latest hotel availability: "

  function AttractionsQuery(city: string): string
  {
    "top attractions activities things to do in " + city
  }

  function RestaurantsQuery(city: string): string
  {
    "best restaurants food places to eat in " + city
  }

  function TransportQuery(city: string): string
  {
    "transportation options getting around " + city + " public transport taxi uber"
  }

  function HotelsQuery(city: string, budgetRange: string): string
  {
    budgetRange + " hotels accommodation " + city + " price per night booking availability"
  }

  /** The default of `search_hotels`' `budget_range` parameter. */
  const DefaultBudgetRange := "mid-range"

  /** A provider stage whose length test reads its own result variable:
      `if slot: try: x = slot.run(q); if x and len(x) > 50: return prefix + x
       except Exception: pass`. */
  function TryProvider(slot: Option<SearchClient>, run: string -> RunOutcome, query: string, prefix: string): (st: Stage)
    ensures st.Returns? <==> slot.Some? && run(query).Returned? && Plausible(run(query).result)
    ensures st.Returns? ==> st.text == prefix + run(query).result.value
    ensures st.FallsThrough? && st.result.Bound? ==> !Plausible(st.result.value)
  {
    if slot.None? then FallsThrough(Unbound)
    else match run(query)
      case Threw => FallsThrough(Unbound)
      case Returned(r) => if Truthy(r) && |r.value| > MinResultLength then Returns(prefix + r.value) else FallsThrough(Bound(r))
  }

  /** The Serper stage of `search_attractions` and `search_hotels` as written:
      it assigns `serper_result` but its length test reads `serp_result`, the
      variable of the SerpAPI stage before it. Reading an unbound local raises
      UnboundLocalError and `len(None)` raises TypeError; both are swallowed by
      the stage's `except Exception`. */
  function TrySerperMeasuringSerp(slot: Option<SearchClient>, run: string -> RunOutcome, query: string, prefix: string,
                                  serpResult: Local): (st: Stage)
    ensures st.Returns? <==>
      && slot.Some? && run(query).Returned? && Truthy(run(query).result)
      && serpResult.Bound? && serpResult.value.Some? && |serpResult.value.value| > MinResultLength
    ensures st.Returns? ==> st.text == prefix + run(query).result.value
  {
    if slot.None? then FallsThrough(Unbound)
    else match run(query)
      case Threw => FallsThrough(Unbound)
      case Returned(r) =>
        if !Truthy(r) then FallsThrough(Bound(r))
        else match serpResult
          case Unbound => FallsThrough(Bound(r))
          case Bound(None) => FallsThrough(Bound(r))
          case Bound(Some(s)) => if |s| > MinResultLength then Returns(prefix + r.value) else FallsThrough(Bound(r))
  }

  /** The unguarded last line `return self.search_tool.invoke(query)`. */
  function DuckDuckGo(p: Providers, query: string): (r: Outcome<string>)
    ensures r.Raised? <==> p.duckDuckGo(query).None?
    ensures r.Raised? ==> r.error == SearchFailed
    ensures r.Ok? ==> r.value == p.duckDuckGo(query).value
  {
    match p.duckDuckGo(query)
    case None => Raised(SearchFailed)
    case Some(t) => Ok(t)
  }

  // ---------------------------------------------------------------------------
  // Reference definition of the fallback policy

  /** One link of a fallback chain: an optional client, what it answers, and
      the prefix put in front of an accepted answer. */
  datatype Candidate = Candidate(slot: Option<SearchClient>, run: string -> RunOutcome, prefix: string)

  /** The candidate is configured, its `run` returns, and the answer is plausible. */
  predicate Accepts(c: Candidate, query: string)
  {
    c.slot.Some? && c.run(query).Returned? && Plausible(c.run(query).result)
  }

  /** The fallback policy stated on its own: the first candidate that accepts
      answers (behind its prefix); when none does, DuckDuckGo answers. */
  function FallbackChain(cs: seq<Candidate>, p: Providers, query: string): (r: Outcome<string>)
    ensures forall i :: 0 <= i < |cs| && Accepts(cs[i], query) && (forall j :: 0 <= j < i ==> !Accepts(cs[j], query))
              ==> r == Ok(cs[i].prefix + cs[i].run(query).result.value)
    ensures (forall i :: 0 <= i < |cs| ==> !Accepts(cs[i], query)) ==> r == DuckDuckGo(p, query)
    decreases |cs|
  {
    if |cs| == 0 then DuckDuckGo(p, query)
    else if Accepts(cs[0], query) then Ok(cs[0].prefix + cs[0].run(query).result.value)
    else
      var r := FallbackChain(cs[1..], p, query);
      assert forall i :: 1 <= i < |cs| ==> cs[i] == cs[1..][i - 1];
      r
  }

  // ---------------------------------------------------------------------------
  // The four tools

  /** `search_attractions` as written. */
  function SearchAttractions(city: string, serpSlot: Option<SearchClient>, serperSlot: Option<SearchClient>, p: Providers): (r: Outcome<string>)
    ensures r == FallbackChain([Candidate(serpSlot, p.serpApi, AttractionsSerpPrefix)], p, AttractionsQuery(city))
    ensures r.Raised? <==> !Accepts(Candidate(serpSlot, p.serpApi, AttractionsSerpPrefix), AttractionsQuery(city)) && p.duckDuckGo(AttractionsQuery(city)).None?
  {
    var query := AttractionsQuery(city);
    var serp := TryProvider(serpSlot, p.serpApi, query, AttractionsSerpPrefix);
    if serp.Returns? then Ok(serp.text)
    else
      var serper := TrySerperMeasuringSerp(serperSlot, p.serper, query, AttractionsSerperPrefix, serp.result);
      match serper
      case Returns(text) => Ok(text)
      case FallsThrough(_) => DuckDuckGo(p, query)
  }

  /** `search_restaurants`: SerpAPI only. */
  function SearchRestaurants(city: string, serpSlot: Option<SearchClient>, p: Providers): (r: Outcome<string>)
    ensures r == FallbackChain([Candidate(serpSlot, p.serpApi, RestaurantsSerpPrefix)], p, RestaurantsQuery(city))
    ensures r.Raised? <==> !Accepts(Candidate(serpSlot, p.serpApi, RestaurantsSerpPrefix), RestaurantsQuery(city)) && p.duckDuckGo(RestaurantsQuery(city)).None?
  {
    var query := RestaurantsQuery(city);
    var serp := TryProvider(serpSlot, p.serpApi, query, RestaurantsSerpPrefix);
    if serp.Returns? then Ok(serp.text) else DuckDuckGo(p, query)
  }

  /** `search_transportation`: Serper only, testing its own result. */
  function SearchTransportation(city: string, serperSlot: Option<SearchClient>, p: Providers): (r: Outcome<string>)
    ensures r == FallbackChain([Candidate(serperSlot, p.serper, TransportSerperPrefix)], p, TransportQuery(city))
    ensures r.Raised? <==> !Accepts(Candidate(serperSlot, p.serper, TransportSerperPrefix), TransportQuery(city)) && p.duckDuckGo(TransportQuery(city)).None?
  {
    var query := TransportQuery(city);
    var serper := TryProvider(serperSlot, p.serper, query, TransportSerperPrefix);
    if serper.Returns? then Ok(serper.text) else DuckDuckGo(p, query)
  }

  /** `search_hotels` as written; `budgetRange` defaults to `DefaultBudgetRange`. */
  function SearchHotels(city: string, budgetRange: string, serpSlot: Option<SearchClient>, serperSlot: Option<SearchClient>, p: Providers): (r: Outcome<string>)
    ensures r == FallbackChain([Candidate(serpSlot, p.serpApi, HotelsSerpPrefix)], p, HotelsQuery(city, budgetRange))
    ensures r.Raised? <==> !Accepts(Candidate(serpSlot, p.serpApi, HotelsSerpPrefix), HotelsQuery(city, budgetRange)) && p.duckDuckGo(HotelsQuery(city, budgetRange)).None?
  {
    var query := HotelsQuery(city, budgetRange);
    var serp := TryProvider(serpSlot, p.serpApi, query, HotelsSerpPrefix);
    if serp.Returns? then Ok(serp.text)
    else
      var serper := TrySerperMeasuringSerp(serperSlot, p.serper, query, HotelsSerperPrefix, serp.result);
      match serper
      case Returns(text) => Ok(text)
      case FallsThrough(_) => DuckDuckGo(p, query)
  }

  // ---------------------------------------------------------------------------
  // Properties

  /** When the SerpAPI stage has fallen through, its variable is unbound or
      holds an answer of at most 50 characters, so the Serper stage that
      measures it can never return. */
  lemma SerperStageNeverReturns(slot: Option<SearchClient>, run: string -> RunOutcome, query: string, prefix: string, serpResult: Local)
    requires serpResult.Bound? ==> !Plausible(serpResult.value)
    ensures TrySerperMeasuringSerp(slot, run, query, prefix, serpResult).FallsThrough?
  {
  }

  /** A configured SerpAPI answer of more than 50 non-empty characters is
      returned behind "Latest search results: "; otherwise (no client, `run`
      raised, None, or too short) the tool answers exactly what DuckDuckGo
      answers, whatever Serper would have said. */
  lemma AttractionsOutcomes(city: string, serpSlot: Option<SearchClient>, serperSlot: Option<SearchClient>, p: Providers)
    ensures var q := AttractionsQuery(city);
      var r := SearchAttractions(city, serpSlot, serperSlot, p);
      && ((serpSlot.Some? && p.serpApi(q).Returned? && Plausible(p.serpApi(q).result))
          ==> r == Ok(AttractionsSerpPrefix + p.serpApi(q).result.value))
      && (!(serpSlot.Some? && p.serpApi(q).Returned? && Plausible(p.serpApi(q).result))
          ==> r == DuckDuckGo(p, q))
  {
  }

  /** Same shape for `search_hotels`. */
  lemma HotelsOutcomes(city: string, budgetRange: string, serpSlot: Option<SearchClient>, serperSlot: Option<SearchClient>, p: Providers)
    ensures var q := HotelsQuery(city, budgetRange);
      var r := SearchHotels(city, budgetRange, serpSlot, serperSlot, p);
      && ((serpSlot.Some? && p.serpApi(q).Returned? && Plausible(p.serpApi(q).result))
          ==> r == Ok(HotelsSerpPrefix + p.serpApi(q).result.value))
      && (!(serpSlot.Some? && p.serpApi(q).Returned? && Plausible(p.serpApi(q).result))
          ==> r == DuckDuckGo(p, q))
  {
  }

  // ---------------------------------------------------------------------------
  // The evidently intended Serper stage

  /** `search_attractions` with the Serper stage testing `serper_result`. */
  function SearchAttractionsIntended(city: string, serpSlot: Option<SearchClient>, serperSlot: Option<SearchClient>, p: Providers): (r: Outcome<string>)
    ensures r == FallbackChain([Candidate(serpSlot, p.serpApi, AttractionsSerpPrefix),
                                Candidate(serperSlot, p.serper, AttractionsSerperPrefix)], p, AttractionsQuery(city))
  {
    var query := AttractionsQuery(city);
    var serp := TryProvider(serpSlot, p.serpApi, query, AttractionsSerpPrefix);
    if serp.Returns? then Ok(serp.text)
    else
      var serper := TryProvider(serperSlot, p.serper, query, AttractionsSerperPrefix);
      if serper.Returns? then Ok(serper.text) else DuckDuckGo(p, query)
  }

  /** `search_hotels` with the Serper stage testing `serper_result`. */
  function SearchHotelsIntended(city: string, budgetRange: string, serpSlot: Option<SearchClient>, serperSlot: Option<SearchClient>, p: Providers): (r: Outcome<string>)
    ensures r == FallbackChain([Candidate(serpSlot, p.serpApi, HotelsSerpPrefix),
                                Candidate(serperSlot, p.serper, HotelsSerperPrefix)], p, HotelsQuery(city, budgetRange))
  {
    var query := HotelsQuery(city, budgetRange);
    var serp := TryProvider(serpSlot, p.serpApi, query, HotelsSerpPrefix);
    if serp.Returns? then Ok(serp.text)
    else
      var serper := TryProvider(serperSlot, p.serper, query, HotelsSerperPrefix);
      if serper.Returns? then Ok(serper.text) else DuckDuckGo(p, query)
  }

  /** Whenever SerpAPI is rejected (no client, `run` raised, None, "" or an
      answer of at most 50 characters) and Serper answers plausibly, the
      intended tool returns Serper's answer, never SerpAPI's or DuckDuckGo's. */
  lemma IntendedFallsBackToSerper(city: string, serpSlot: Option<SearchClient>, serperSlot: Option<SearchClient>, p: Providers)
    requires var q := AttractionsQuery(city);
      && !Accepts(Candidate(serpSlot, p.serpApi, AttractionsSerpPrefix), q)
      && Accepts(Candidate(serperSlot, p.serper, AttractionsSerperPrefix), q)
    ensures SearchAttractionsIntended(city, serpSlot, serperSlot, p)
         == Ok(AttractionsSerperPrefix + p.serper(AttractionsQuery(city)).result.value)
  {
  }

  /** A concrete run showing the defect: no SerpAPI key, a Serper answer of
      61 characters, DuckDuckGo answering "ddg". As written the tool returns
      "ddg"; the intended tool returns the Serper answer. */
  lemma SerperAnswerIgnored()
    ensures var long := "Doge's Palace, St Mark's Basilica, Rialto Bridge, Grand Canal";
      var p := Providers(q => Threw, q => Returned(Some(long)), q => Some("ddg"));
      && |long| > MinResultLength
      && SearchAttractions("Venice", None, Some(SearchClient("key")), p) == Ok("ddg")
      && SearchAttractionsIntended("Venice", None, Some(SearchClient("key")), p) == Ok(AttractionsSerperPrefix + long)
  {
  }

  /** The same defect in `search_hotels`: no SerpAPI key, a long Serper
      answer of 66 characters, DuckDuckGo answering "ddg". */
  lemma HotelsSerperAnswerIgnored()
    ensures var long := "Hotel Danieli 420 EUR, Ca' Sagredo 260 EUR, Hotel Ai Reali 190 EUR";
      var p := Providers(q => Threw, q => Returned(Some(long)), q => Some("ddg"));
      && |long| > MinResultLength
      && SearchHotels("Venice", DefaultBudgetRange, None, Some(SearchClient("key")), p) == Ok("ddg")
      && SearchHotelsIntended("Venice", DefaultBudgetRange, None, Some(SearchClient("key")), p) == Ok(HotelsSerperPrefix + long)
  {
  }
}
