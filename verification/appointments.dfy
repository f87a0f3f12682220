/** The appointment-preferences screen: one `settings` record that the form's
    handlers replace field by field, and its Save. Field values are JavaScript
    values, since the handlers store whatever the control reports. */
module Appointments {
  import opened Routing

  datatype Field = BufferTime | MaxDailyAppointments | AllowWeekends | PreferredTimeSlots

  datatype Settings = Settings(bufferTime: Value, maxDailyAppointments: Value, allowWeekends: Value, preferredTimeSlots: Value)
  {
    /** `settings[field]` */
    function Get(f: Field): Value {
      match f
      case BufferTime => bufferTime
      case MaxDailyAppointments => maxDailyAppointments
      case AllowWeekends => allowWeekends
      case PreferredTimeSlots => preferredTimeSlots
    }

    /** `{ ...settings, [field]: v }` */
    function With(f: Field, v: Value): (s: Settings)
      ensures s.Get(f) == v
      ensures forall g :: g != f ==> s.Get(g) == Get(g)
    {
      match f
      case BufferTime => this.(bufferTime := v)
      case MaxDailyAppointments => this.(maxDailyAppointments := v)
      case AllowWeekends => this.(allowWeekends := v)
      case PreferredTimeSlots => this.(preferredTimeSlots := v)
    }
  }

  const INITIAL_SETTINGS := Settings(Num(15), Num(8), Bool(false), Arr([Str("morning")]))

  /** The part of a change event's target the handler reads. */
  datatype EventTarget = EventTarget(kind: string, checked: bool, value: Value)

  /** `event.target.type === 'checkbox' ? event.target.checked : event.target.value` */
  function EventPayload(target: EventTarget): (v: Value)
    ensures target.kind == "checkbox" ==> v == Bool(target.checked)
    ensures target.kind != "checkbox" ==> v == target.value
  {
    if target.kind == "checkbox" then Bool(target.checked) else target.value
  }

  /** A slider's declared `min`, `max` and `step`. */
  datatype Slider = Slider(min: int, max: int, step: nat)

  const BUFFER_TIME_SLIDER := Slider(0, 30, 5)
  const MAX_DAILY_APPOINTMENTS_SLIDER := Slider(4, 12, 1)

  /** A value the slider can report: within its bounds, on a step from `min`. */
  predicate OnSlider(v: Value, sl: Slider) {
    v.Num? && sl.min <= v.n <= sl.max && sl.step > 0 && (v.n - sl.min) % sl.step == 0
  }

  /** The slider bound to a field, if any. */
  function SliderFor(f: Field): Option<Slider> {
    match f
    case BufferTime => Some(BUFFER_TIME_SLIDER)
    case MaxDailyAppointments => Some(MAX_DAILY_APPOINTMENTS_SLIDER)
    case _ => None
  }

  /** Both slider-bound fields hold values their sliders can show. */
  predicate SlidersInRange(s: Settings) {
    OnSlider(s.bufferTime, BUFFER_TIME_SLIDER) && OnSlider(s.maxDailyAppointments, MAX_DAILY_APPOINTMENTS_SLIDER)
  }

  /** The initial settings lie on both sliders. */
  lemma InitialSettingsInRange()
    ensures SlidersInRange(INITIAL_SETTINGS)
    ensures INITIAL_SETTINGS.Get(BufferTime) == Num(15) && INITIAL_SETTINGS.Get(MaxDailyAppointments) == Num(8)
    ensures INITIAL_SETTINGS.Get(AllowWeekends) == Bool(false)
    ensures INITIAL_SETTINGS.Get(PreferredTimeSlots) == Arr([Str("morning")])
  {
  }

  /** A slider change reported by a field's own slider keeps every slider-bound field in range. */
  lemma SliderChangeKeepsRange(s: Settings, f: Field, v: int)
    requires SlidersInRange(s)
    requires SliderFor(f).Some? && OnSlider(Num(v), SliderFor(f).value)
    ensures SlidersInRange(s.With(f, Num(v)))
    ensures var n := s.With(f, Num(v)).bufferTime.n; 0 <= n <= 30 && n % 5 == 0
    ensures var n := s.With(f, Num(v)).maxDailyAppointments.n; 4 <= n <= 12
  {
    match f
    case BufferTime =>
      assert s.With(f, Num(v)).maxDailyAppointments == s.maxDailyAppointments;
    case MaxDailyAppointments =>
      assert s.With(f, Num(v)).bufferTime == s.bufferTime;
  }

  class AppointmentPreferencesScreen {
    /** `location.state` as received on mount. */
    const incoming: Option<State>
    var settings: Settings

    constructor (state: Option<State>)
      ensures incoming == state
      ensures settings == INITIAL_SETTINGS
      ensures SlidersInRange(settings)
    {
      incoming := state;
      settings := INITIAL_SETTINGS;
    }

    /** `handleChange(field)(event)`: the named field takes the checkbox state
        or the control's value; every other field is unchanged. */
    method HandleChange(field: Field, target: EventTarget)
      modifies this`settings
      ensures settings.Get(field) == EventPayload(target)
      ensures forall g :: g != field ==> settings.Get(g) == old(settings).Get(g)
    {
      settings := settings.With(field, EventPayload(target));
    }

    /** `handleSliderChange(field)(event, newValue)`: only the named field changes. */
    method HandleSliderChange(field: Field, newValue: int)
      modifies this`settings
      ensures settings.Get(field) == Num(newValue)
      ensures forall g :: g != field ==> settings.Get(g) == old(settings).Get(g)
      ensures (old(SlidersInRange(settings)) && SliderFor(field).Some? && OnSlider(Num(newValue), SliderFor(field).value))
              ==> SlidersInRange(settings)
    {
      if SlidersInRange(settings) && SliderFor(field).Some? && OnSlider(Num(newValue), SliderFor(field).value) {
        SliderChangeKeepsRange(settings, field, newValue);
      }
      settings := settings.With(field, Num(newValue));
    }

    /** `handleSave`: back to the results screen with the received payload,
        its `from` overwritten with `'appointment-save'`. */
    function Save(): (nav: Nav)
      ensures nav.Go? && nav.path == RESULTS_PATH
      ensures nav.state.Keys == Fields(incoming).Keys + {"from"}
      ensures nav.state["from"] == Str(APPOINTMENT_SAVE)
      ensures forall k :: k in Fields(incoming) && k != "from" ==> nav.state[k] == Fields(incoming)[k]
    {
      SaveAndReturn(incoming, APPOINTMENT_SAVE)
    }

    /** The impact banner under the heading. */
    function ImpactNotice(): (b: Banner)
      ensures b.ImpactShown? <==> Truthy(Lookup(incoming, "impactMetric")) && Truthy(Lookup(incoming, "impactPercentage"))
      ensures b.ImpactShown? ==> b.metric == Lookup(incoming, "impactMetric") && b.percentage == Lookup(incoming, "impactPercentage")
      ensures b.StrayText? <==> Lookup(incoming, "impactMetric") == Num(0)
                                || (Truthy(Lookup(incoming, "impactMetric")) && Lookup(incoming, "impactPercentage") == Num(0))
      ensures incoming.None? ==> b == Hidden
    {
      ImpactBanner(incoming)
    }
  }
}
