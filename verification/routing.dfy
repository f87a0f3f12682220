/** Values and navigation payloads that the wizard's screens pass to each other.

    A navigation payload (`location.state`) is an untyped JavaScript object: it
    is modelled as a map from field names to JavaScript values, and an absent
    payload (a screen reached by typing its path) as `None`. */
module Routing {

  datatype Option<+T> = None | Some(value: T)

  /** A JavaScript value as it can occur in a payload or a settings record.
      Numbers are integers: every number the wizard produces is one. */
  datatype Value =
    | Undefined
    | Null
    | Bool(b: bool)
    | Num(n: int)
    | Str(s: string)
    | Arr(items: seq<Value>)

  /** JavaScript truthiness (`if (v)`, `v && ...`): the falsy values are
      exactly undefined, null, false, 0 and the empty string; arrays are
      objects, so truthy even when empty. */
  function Truthy(v: Value): (r: bool)
    ensures !r <==> v in {Undefined, Null, Bool(false), Num(0), Str("")}
  {
    match v
    case Undefined => false
    case Null => false
    case Bool(b) => b
    case Num(n) => n != 0
    case Str(s) => s != ""
    case Arr(_) => true
  }

  type State = map<string, Value>

  /** Where a handler sends the browser: nowhere, or to a path with a payload. */
  datatype Nav = Stay | Go(path: string, state: State)

  const RESULTS_PATH := "/results"
  const APPOINTMENT_PREFERENCES_PATH := "/appointment-preferences"
  const INSURANCE_UPDATE_PATH := "/insurance-update"

  /** The `from` tags the two Save handlers put on the payload. */
  const INSURANCE_SAVE := "insurance-save"
  const APPOINTMENT_SAVE := "appointment-save"

  /** The fields of `location.state || {}`. */
  function Fields(state: Option<State>): State {
    match state
    case None => map[]
    case Some(m) => m
  }

  /** `location.state?.key`, equally a field destructured from `location.state || {}`:
      a missing payload or a missing field reads as `undefined`. */
  function Lookup(state: Option<State>, key: string): (v: Value)
    ensures state.None? ==> v == Undefined
    ensures key in Fields(state) ==> v == Fields(state)[key]
    ensures key !in Fields(state) ==> v == Undefined
  {
    if key in Fields(state) then Fields(state)[key] else Undefined
  }

  /** The Save handlers of both preference screens: navigate to the results
      screen with `{ ...location.state, from: tag }`. */
  function SaveAndReturn(incoming: Option<State>, tag: string): (nav: Nav)
    ensures nav.Go? && nav.path == RESULTS_PATH
    ensures nav.state.Keys == Fields(incoming).Keys + {"from"}
    ensures nav.state["from"] == Str(tag)
    ensures forall k :: k in Fields(incoming) && k != "from" ==> nav.state[k] == Fields(incoming)[k]
  {
    Go(RESULTS_PATH, Fields(incoming)["from" := Str(tag)])
  }

  /** What `{impactMetric && impactPercentage && (<banner/>)}` renders: the
      banner when both are truthy; otherwise the first falsy operand, which
      React prints only when it is a number (so a percentage of 0 hides the
      banner but leaves the text "0" behind). */
  datatype Banner = ImpactShown(metric: Value, percentage: Value) | StrayText(shown: Value) | Hidden

  function ImpactBanner(state: Option<State>): (b: Banner)
    ensures b.ImpactShown? <==> Truthy(Lookup(state, "impactMetric")) && Truthy(Lookup(state, "impactPercentage"))
    ensures b.ImpactShown? ==> b.metric == Lookup(state, "impactMetric") && b.percentage == Lookup(state, "impactPercentage")
    ensures b.StrayText? <==> Lookup(state, "impactMetric") == Num(0)
                              || (Truthy(Lookup(state, "impactMetric")) && Lookup(state, "impactPercentage") == Num(0))
    ensures b.StrayText? ==> b.shown == Num(0)
    ensures state.None? ==> b == Hidden
  {
    var metric := Lookup(state, "impactMetric");
    var percentage := Lookup(state, "impactPercentage");
    if !Truthy(metric) then
      (if metric.Num? then StrayText(metric) else Hidden)
    else if !Truthy(percentage) then
      (if percentage.Num? then StrayText(percentage) else Hidden)
    else
      ImpactShown(metric, percentage)
  }
}
