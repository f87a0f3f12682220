/** The results screen: a health state drawn per visit, the per-state
    suggestion table, three suggestions drawn from it with a percentage each,
    the click routing, and the two effects that read the incoming payload.

    The random draws are parameters: `k` for `Math.floor(Math.random() * n)`,
    and an index permutation for the shuffle by a random comparator. */
module Results {
  import opened Routing

  datatype HealthState = Poor | Good | Healthy

  const HEALTH_STATES: seq<HealthState> := [Poor, Good, Healthy]

  datatype PercentRange = PercentRange(min: int, max: int)

  /** One entry of a state's `suggestions` object: its key and its metric. */
  datatype Entry = Entry(text: string, metric: string)

  datatype Config = Config(title: string, subtitle: string, percentRange: PercentRange, suggestions: seq<Entry>)

  /** A displayed suggestion: `{ text, percentage, ...config }`. */
  datatype Suggestion = Suggestion(text: string, percentage: int, metric: string)

  const APPOINTMENT_LABEL := "Change your appointment preferences"
  const INSURANCE_LABEL := "Update your insurances"

  /** `getRandomPercentage(min, max)`, given the draw
      `k = Math.floor(Math.random() * (max - min + 1))`, which lies in [0, max - min]. */
  function RandomPercentage(min: int, max: int, k: int): (r: int)
    requires 0 <= k <= max - min
    ensures min <= r <= max
  {
    k + min
  }

  /** Every value of the inclusive range is the outcome of exactly one draw. */
  lemma RandomPercentageCoversRange(min: int, max: int, v: int)
    requires min <= v <= max
    ensures exists k :: 0 <= k <= max - min && RandomPercentage(min, max, k) == v
    ensures forall k :: 0 <= k <= max - min && RandomPercentage(min, max, k) == v ==> k == v - min
  {
    assert RandomPercentage(min, max, v - min) == v;
  }

  /** `getRandomHealthState()`, given the draw `k = Math.floor(Math.random() * 3)`. */
  function RandomHealthState(k: int): (h: HealthState)
    requires 0 <= k < |HEALTH_STATES|
    ensures h == Poor <==> k == 0
    ensures h == Good <==> k == 1
    ensures h == Healthy <==> k == 2
  {
    HEALTH_STATES[k]
  }

  /** Each of the three health states is drawn by exactly one `k`, so a
      uniform draw gives each state a third of the time. */
  lemma EveryHealthStateDrawable(h: HealthState)
    ensures exists k :: 0 <= k < |HEALTH_STATES| && RandomHealthState(k) == h
    ensures forall k1, k2 ::
              (0 <= k1 < |HEALTH_STATES| && 0 <= k2 < |HEALTH_STATES| &&
               RandomHealthState(k1) == h && RandomHealthState(k2) == h) ==> k1 == k2
  {
    match h
    case Poor => assert RandomHealthState(0) == h;
    case Good => assert RandomHealthState(1) == h;
    case Healthy => assert RandomHealthState(2) == h;
  }

  predicate DistinctTexts(es: seq<Entry>) {
    forall i, j :: 0 <= i < |es| && 0 <= j < |es| && i != j ==> es[i].text != es[j].text
  }

  /** A usable table entry: a non-empty range, at least four suggestions, each
      with its own label and a non-empty metric. */
  predicate WellFormed(c: Config) {
    && c.percentRange.min <= c.percentRange.max
    && |c.suggestions| >= 4
    && DistinctTexts(c.suggestions)
    && forall e :: e in c.suggestions ==> e.text != "" && e.metric != ""
  }

  const POOR_CONFIG := Config(
    "Oh no... your appointments haven't been going too well",
    "Don't worry, here's what you can do:",
    PercentRange(10, 70),
    [ Entry("Refine your patient preferences", "patient match"),
      Entry(APPOINTMENT_LABEL, "appointment quality"),
      Entry(INSURANCE_LABEL, "insurance coverage"),
      Entry("Send more appointment reminders", "appointment attendance") ])

  const GOOD_CONFIG := Config(
    "You're doing well, but there's room for improvement",
    "Here are some ways to boost your performance:",
    PercentRange(10, 15),
    [ Entry("Fine-tune your availability", "number of new patients"),
      Entry("Optimize your availability", "booking rate"),
      Entry(APPOINTMENT_LABEL, "appointment quality"),
      Entry(INSURANCE_LABEL, "insurance coverage"),
      Entry("Send more appointment reminders", "appointment attendance"),
      Entry("Update your practice information", "profile views") ])

  const HEALTHY_CONFIG := Config(
    "Great job! Your practice is doing better than similar practices in your area",
    "Here are some ways to grow even further:",
    PercentRange(5, 10),
    [ Entry("Enroll in Sponsored Results", "patients reached"),
      Entry("Let patients book free appointments through your website", "conversion rate"),
      Entry(APPOINTMENT_LABEL, "number of appointments"),
      Entry("Collect more forms upfront", "the patients you can see"),
      Entry(INSURANCE_LABEL, "insurance coverage") ])

  lemma PoorConfigWellFormed() ensures WellFormed(POOR_CONFIG) {}
  lemma GoodConfigWellFormed() ensures WellFormed(GOOD_CONFIG) {}
  lemma HealthyConfigWellFormed() ensures WellFormed(HEALTHY_CONFIG) {}

  /** `SUGGESTIONS_CONFIG[healthState]` */
  function ConfigFor(h: HealthState): (c: Config)
    ensures WellFormed(c)
    ensures c.percentRange.min >= 5
  {
    match h
    case Poor => PoorConfigWellFormed(); POOR_CONFIG
    case Good => GoodConfigWellFormed(); GOOD_CONFIG
    case Healthy => HealthyConfigWellFormed(); HEALTHY_CONFIG
  }

  /** `order` lists every index below `n` once: the order a shuffle leaves the entries in. */
  predicate IsIndexPermutation(order: seq<int>, n: nat) {
    && |order| == n
    && (forall i :: 0 <= i < n ==> 0 <= order[i] < n)
    && (forall i, j :: 0 <= i < j < n ==> order[i] != order[j])
  }

  function Min(a: int, b: int): int {
    if a <= b then a else b
  }

  /** The memoised `suggestions`: the entries shuffled into `order`, the first
      three kept, each with its own percentage draw. */
  function SelectSuggestions(c: Config, order: seq<int>, draws: seq<int>): (r: seq<Suggestion>)
    requires IsIndexPermutation(order, |c.suggestions|)
    requires |draws| == Min(3, |c.suggestions|)
    requires forall i :: 0 <= i < |draws| ==> 0 <= draws[i] <= c.percentRange.max - c.percentRange.min
    ensures |r| == Min(3, |c.suggestions|)
    ensures forall i :: 0 <= i < |r| ==> Entry(r[i].text, r[i].metric) == c.suggestions[order[i]]
    ensures forall i :: 0 <= i < |r| ==> Entry(r[i].text, r[i].metric) in c.suggestions
    ensures forall i :: 0 <= i < |r| ==> c.percentRange.min <= r[i].percentage <= c.percentRange.max
    ensures DistinctTexts(c.suggestions) ==>
              forall i, j :: 0 <= i < |r| && 0 <= j < |r| && i != j ==> r[i].text != r[j].text
  {
    var shuffled := seq(|order|, i requires 0 <= i < |order| => c.suggestions[order[i]]);
    var selected := shuffled[..Min(3, |shuffled|)];
    seq(|selected|, i requires 0 <= i < |selected| =>
      Suggestion(selected[i].text,
                 RandomPercentage(c.percentRange.min, c.percentRange.max, draws[i]),
                 selected[i].metric))
  }

  /** Whatever the draws, a well-formed table entry (every health state's is)
      shows exactly three suggestions, with distinct labels, each a configured
      label with its configured metric and a percentage in the entry's range. */
  lemma ThreeDistinctSuggestions(c: Config, order: seq<int>, draws: seq<int>)
    requires WellFormed(c)
    requires IsIndexPermutation(order, |c.suggestions|)
    requires |draws| == 3
    requires forall i :: 0 <= i < 3 ==> 0 <= draws[i] <= c.percentRange.max - c.percentRange.min
    ensures var r := SelectSuggestions(c, order, draws);
            && |r| == 3
            && (forall i, j :: 0 <= i < 3 && 0 <= j < 3 && i != j ==> r[i].text != r[j].text)
            && (forall i :: 0 <= i < 3 ==> Entry(r[i].text, r[i].metric) in c.suggestions)
            && (forall i :: 0 <= i < 3 ==> c.percentRange.min <= r[i].percentage <= c.percentRange.max)
  {
  }

  /** `handleSuggestionClick`: two labels route to their screens with the
      suggestion's impact; every other label is inert. */
  function SuggestionClick(s: Suggestion): (nav: Nav)
    ensures nav.Go? <==> s.text == APPOINTMENT_LABEL || s.text == INSURANCE_LABEL
    ensures s.text == APPOINTMENT_LABEL ==> nav.Go? && nav.path == APPOINTMENT_PREFERENCES_PATH
    ensures s.text == INSURANCE_LABEL ==> nav.Go? && nav.path == INSURANCE_UPDATE_PATH
    ensures nav.Go? ==> nav.state.Keys == {"impactMetric", "impactPercentage"}
    ensures nav.Go? ==> nav.state["impactMetric"] == Str(s.metric) && nav.state["impactPercentage"] == Num(s.percentage)
  {
    var impact := map["impactMetric" := Str(s.metric), "impactPercentage" := Num(s.percentage)];
    if s.text == APPOINTMENT_LABEL then Go(APPOINTMENT_PREFERENCES_PATH, impact)
    else if s.text == INSURANCE_LABEL then Go(INSURANCE_UPDATE_PATH, impact)
    else Stay
  }

  datatype Section = Insurances | Appointments | Complete

  /** The section the progress effect selects for a payload. */
  function SectionFor(state: Option<State>): (s: Section)
    ensures s == Complete <==>
              Truthy(Lookup(state, "completedInsurances")) && Truthy(Lookup(state, "completedAppointments"))
    ensures s == Appointments <==>
              Truthy(Lookup(state, "completedInsurances")) && !Truthy(Lookup(state, "completedAppointments"))
    ensures s == Insurances <==> !Truthy(Lookup(state, "completedInsurances"))
    ensures state.None? ==> s == Insurances
  {
    if Truthy(Lookup(state, "completedInsurances")) && Truthy(Lookup(state, "completedAppointments")) then Complete
    else if Truthy(Lookup(state, "completedInsurances")) then Appointments
    else Insurances
  }

  /** Whether the toast effect fires: the payload says it comes from one of the two saves. */
  predicate ToastTriggered(state: Option<State>)
    ensures ToastTriggered(state) ==> state.Some? && "from" in state.value
    ensures ToastTriggered(state) <==>
              Lookup(state, "from") == Str(INSURANCE_SAVE) || Lookup(state, "from") == Str(APPOINTMENT_SAVE)
  {
    var from := Lookup(state, "from");
    from == Str(INSURANCE_SAVE) || from == Str(APPOINTMENT_SAVE)
  }

  class ResultsScreen {
    const location: Option<State>
    /** Drawn once per mount. */
    const healthState: HealthState
    /** Memoised on the config, so fixed for the mount. */
    const suggestions: seq<Suggestion>
    var section: Section
    var showToast: bool

    /** Mounting: the draws are taken and the state fields start at their defaults. */
    constructor (state: Option<State>, k: int, order: seq<int>, draws: seq<int>)
      requires 0 <= k < |HEALTH_STATES|
      requires IsIndexPermutation(order, |ConfigFor(HEALTH_STATES[k]).suggestions|)
      requires |draws| == 3
      requires forall i :: 0 <= i < 3 ==>
                 0 <= draws[i] <= ConfigFor(HEALTH_STATES[k]).percentRange.max - ConfigFor(HEALTH_STATES[k]).percentRange.min
      ensures location == state && healthState == RandomHealthState(k)
      ensures suggestions == SelectSuggestions(ConfigFor(healthState), order, draws)
      ensures |suggestions| == 3
      ensures section == Insurances && !showToast
    {
      location := state;
      healthState := RandomHealthState(k);
      suggestions := SelectSuggestions(ConfigFor(RandomHealthState(k)), order, draws);
      section := Insurances;
      showToast := false;
    }

    /** `SUGGESTIONS_CONFIG[healthState]`, the entry the suggestions were drawn from. */
    function CurrentConfig(): (c: Config)
      ensures WellFormed(c)
      ensures c.percentRange.min >= 5
    {
      ConfigFor(healthState)
    }

    /** The progress effect, run whenever the payload changes. */
    method SectionEffect()
      modifies this`section
      ensures section == SectionFor(location)
    {
      if Truthy(Lookup(location, "completedInsurances")) && Truthy(Lookup(location, "completedAppointments")) {
        section := Complete;
      } else if Truthy(Lookup(location, "completedInsurances")) {
        section := Appointments;
      } else {
        section := Insurances;
      }
    }

    /** The toast effect: it only ever opens the toast. */
    method ToastEffect()
      modifies this`showToast
      ensures ToastTriggered(location) ==> showToast
      ensures !ToastTriggered(location) ==> showToast == old(showToast)
    {
      var from := Lookup(location, "from");
      if from == Str(INSURANCE_SAVE) || from == Str(APPOINTMENT_SAVE) {
        showToast := true;
      }
    }

    /** The toast's close and auto-hide. */
    method CloseToast()
      modifies this`showToast
      ensures !showToast
    {
      showToast := false;
    }

    /** A click on the `i`th displayed suggestion. */
    function Click(i: int): (nav: Nav)
      requires 0 <= i < |suggestions|
      ensures nav.Go? <==> suggestions[i].text == APPOINTMENT_LABEL || suggestions[i].text == INSURANCE_LABEL
      ensures nav.Go? ==> "impactPercentage" in nav.state && nav.state["impactPercentage"] == Num(suggestions[i].percentage)
    {
      SuggestionClick(suggestions[i])
    }
  }
}
