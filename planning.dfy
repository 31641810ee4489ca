/** The planning tools of `ToolsSetup.build_tools` that only format text or
    guard their input: `create_daily_plan`, `complete_travel_plan` and the
    guard of `calculate_daily_budget`. */
module Planning {
  import opened Common
  import opened Text

  /** A slice of the middle part of a three-way concatenation. */
  lemma SliceOfMiddle(a: string, b: string, c: string, i: nat, j: nat)
    requires i <= j <= |b|
    ensures (a + b + c)[|a| + i..|a| + j] == b[i..j]
  {
  }

  // ---------------------------------------------------------------------------
  // create_daily_plan

  /** How much of the attractions text a daily plan embeds. */
  const ExcerptLength := 400

  const Ellipsis := "..."
  const DailyPlanTips := "\nTips: Plan indoor activities if weather is poor."

  /** Everything of a daily plan before the attractions excerpt. */
  function DailyPlanHead(city: string, dayNumber: int, weather: string): string
  {
    "Day " + IntText(dayNumber) + " in " + city + ":\n" + "Weather: " + weather + "\n" + "Recommended activities: "
  }

  /** `create_daily_plan`. */
  function CreateDailyPlan(city: string, dayNumber: int, attractions: string, weather: string): (plan: string)
    ensures DailyPlanHead(city, dayNumber, weather) <= plan
    ensures |plan| <= |DailyPlanHead(city, dayNumber, weather)| + ExcerptLength + |Ellipsis| + |DailyPlanTips|
    ensures |attractions| <= ExcerptLength ==>
      plan[|DailyPlanHead(city, dayNumber, weather)|..] == attractions + Ellipsis + DailyPlanTips
  {
    DailyPlanHead(city, dayNumber, weather) + Prefix(attractions, ExcerptLength) + Ellipsis + DailyPlanTips
  }

  /** The plan embeds exactly the first min(|attractions|, 400) characters of
      the attractions text, right after the head and right before "...". */
  lemma DailyPlanExcerpt(city: string, dayNumber: int, attractions: string, weather: string)
    ensures var plan := CreateDailyPlan(city, dayNumber, attractions, weather);
      var o := |DailyPlanHead(city, dayNumber, weather)|;
      var m := if |attractions| < ExcerptLength then |attractions| else ExcerptLength;
      && |plan| == o + m + |Ellipsis| + |DailyPlanTips|
      && plan[o..o + m] == attractions[..m]
      && plan[o + m..o + m + 3] == "..."
  {
  }

  /** However long the attractions text, it adds at most 400 characters. */
  lemma DailyPlanLengthBounded(city: string, dayNumber: int, attractions: string, weather: string)
    ensures |CreateDailyPlan(city, dayNumber, attractions, weather)|
         <= |DailyPlanHead(city, dayNumber, weather)| + ExcerptLength + |Ellipsis| + |DailyPlanTips|
  {
  }

  // ---------------------------------------------------------------------------
  // complete_travel_plan

  /** The nine section headings, in the order the instruction lists them. */
  const PlanSections: seq<string> := [
    "\U{1F30D} Destination and Duration",
    "\U{1F324}\U{FE0F} Weather Forecast Summary",
    "\U{1F3D9}\U{FE0F} Top Attractions",
    "\U{1F37D}\U{FE0F} Recommended Restaurants",
    "\U{1F697} Transportation Tips",
    "\U{1F6CF}\U{FE0F} Hotel Info and Estimated Cost",
    "\U{1F4C5} Full Day-wise Itinerary",
    "\U{1F4B0} Total Trip Expense and Currency Conversion",
    "\U{2728} Final Trip Summary"
  ]

  const PlanClosing := "\nEnsure everything is well-formatted, friendly, and easy to follow."

  /** Line `k + 1` of a numbered list: "{k+1}. {heading}\n". */
  function NumberedLine(k: nat, heading: string): (line: string)
    requires k < 9
    ensures |line| >= 3 && line[0] == DigitChar(k + 1) && line[1..3] == ". "
  {
    [DigitChar(k + 1)] + ". " + heading + "\n"
  }

  /** The headings as a list numbered from 1, one line each. */
  function NumberedList(headings: seq<string>): string
    requires |headings| <= 9
    decreases |headings|
  {
    if |headings| == 0 then ""
    else NumberedList(headings[..|headings| - 1]) + NumberedLine(|headings| - 1, headings[|headings| - 1])
  }

  function PlanIntro(city: string, days: int): string
  {
    "Assemble a complete travel plan for a " + IntText(days) + "-day trip to " + city + ". "
    + "Include these sections in order:\n"
  }

  /** `complete_travel_plan`: it depends on nothing but `city` and `days`. */
  function CompleteTravelPlan(city: string, days: int): (plan: string)
    ensures PlanIntro(city, days) <= plan
    ensures |plan| >= |PlanClosing| && plan[|plan| - |PlanClosing|..] == PlanClosing
  {
    PlanIntro(city, days) + NumberedList(PlanSections) + PlanClosing
  }

  /** Where line `k + 1` of the numbered list starts in the instruction. */
  function SectionOffset(city: string, days: int, k: nat): nat
    requires k <= |PlanSections|
  {
    |PlanIntro(city, days)| + |NumberedList(PlanSections[..k])|
  }

  /** The list of the first k headings starts the list of all of them. */
  lemma {:induction false} NumberedListPrefix(headings: seq<string>, k: nat)
    requires k <= |headings| <= 9
    ensures NumberedList(headings[..k]) <= NumberedList(headings)
    decreases |headings| - k
  {
    if k < |headings| {
      var shorter := headings[..|headings| - 1];
      assert shorter[..k] == headings[..k];
      NumberedListPrefix(shorter, k);
    } else {
      assert headings[..k] == headings;
    }
  }

  /** Line k + 1 sits right after the lines of the first k headings. */
  lemma NumberedLineInList(headings: seq<string>, k: nat)
    requires k < |headings| <= 9
    ensures |NumberedList(headings[..k])| + |NumberedLine(k, headings[k])| == |NumberedList(headings[..k + 1])|
    ensures |NumberedList(headings[..k + 1])| <= |NumberedList(headings)|
    ensures NumberedList(headings)[|NumberedList(headings[..k])|..|NumberedList(headings[..k + 1])|]
         == NumberedLine(k, headings[k])
  {
    NumberedListPrefix(headings, k + 1);
    var upto := headings[..k + 1];
    assert upto[..k] == headings[..k];
    assert NumberedList(upto) == NumberedList(headings[..k]) + NumberedLine(k, headings[k]);
    assert NumberedList(headings)[..|NumberedList(upto)|] == NumberedList(upto);
  }

  /** Section k + 1 stands, numbered, at its offset; each section starts where
      the one before it ends, so the nine appear exactly once each, in order. */
  lemma SectionsInOrder(city: string, days: int, k: nat)
    requires k < |PlanSections|
    ensures var plan := CompleteTravelPlan(city, days);
      var line := NumberedLine(k, PlanSections[k]);
      var o := SectionOffset(city, days, k);
      && o + |line| == SectionOffset(city, days, k + 1) <= |plan|
      && plan[o..o + |line|] == line
  {
    NumberedLineInList(PlanSections, k);
    var intro := PlanIntro(city, days);
    var all := NumberedList(PlanSections);
    SliceOfMiddle(intro, all, PlanClosing, |NumberedList(PlanSections[..k])|, |NumberedList(PlanSections[..k + 1])|);
  }

  // ---------------------------------------------------------------------------
  // calculate_daily_budget

  const DaysError := "Days must be greater than zero."

  /** `calculate_daily_budget`: raises ValueError unless `days > 0`; otherwise
      the total spread evenly over the days. */
  function CalculateDailyBudget(totalCost: real, days: int): (r: Outcome<real>)
    ensures r.Raised? <==> days <= 0
    ensures r.Raised? ==> r.error == InvalidDays(DaysError)
    ensures r.Ok? ==> r.value * (days as real) == totalCost
  {
    if days <= 0 then Raised(InvalidDays(DaysError))
    else Ok(totalCost / (days as real))
  }
}
