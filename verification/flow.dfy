/** Facts about the wizard's round trip: results screen → preference screen →
    Save → results screen, following the payload from screen to screen. */
module Flow {
  import opened Routing
  import opened Results

  /** A routed suggestion reaches its screen with a visible impact banner:
      its metric is a non-empty label and its percentage is positive, as in
      every health state's table entry (whose minimum is at least 5). */
  lemma {:induction false} ClickedSuggestionShowsBanner(c: Config, order: seq<int>, draws: seq<int>, i: int)
    requires WellFormed(c) && c.percentRange.min > 0
    requires IsIndexPermutation(order, |c.suggestions|)
    requires |draws| == 3
    requires forall j :: 0 <= j < 3 ==> 0 <= draws[j] <= c.percentRange.max - c.percentRange.min
    requires 0 <= i < 3
    ensures var s := SelectSuggestions(c, order, draws)[i];
            var nav := SuggestionClick(s);
            nav.Go? ==> ImpactBanner(Some(nav.state)) == ImpactShown(Str(s.metric), Num(s.percentage))
  {
    var s := SelectSuggestions(c, order, draws)[i];
    assert Entry(s.text, s.metric) in c.suggestions;
  }

  /** Saving on either preference screen returns to the results screen with
      the impact fields it received intact and a `from` tag that opens the
      toast. No screen ever sets the completion flags, so the progress section
      stays on insurances. */
  lemma SaveReturnsWithToast(incoming: Option<State>, tag: string)
    requires tag == INSURANCE_SAVE || tag == APPOINTMENT_SAVE
    requires "completedInsurances" !in Fields(incoming)
    ensures var nav := SaveAndReturn(incoming, tag);
            && ToastTriggered(Some(nav.state))
            && SectionFor(Some(nav.state)) == Insurances
            && Lookup(Some(nav.state), "impactMetric") == Lookup(incoming, "impactMetric")
            && Lookup(Some(nav.state), "impactPercentage") == Lookup(incoming, "impactPercentage")
  {
    var nav := SaveAndReturn(incoming, tag);
    assert "completedInsurances" !in nav.state;
  }

  /** The whole round trip from a routed suggestion: its payload has no
      completion flags, so the results screen comes back on the insurances
      section, with the toast open and the impact carried through. */
  lemma {:induction false} RoundTrip(s: Suggestion, tag: string)
    requires tag == INSURANCE_SAVE || tag == APPOINTMENT_SAVE
    requires SuggestionClick(s).Go?
    ensures var back := SaveAndReturn(Some(SuggestionClick(s).state), tag);
            && ToastTriggered(Some(back.state))
            && SectionFor(Some(back.state)) == Insurances
            && back.state["impactMetric"] == Str(s.metric)
            && back.state["impactPercentage"] == Num(s.percentage)
  {
    var there := SuggestionClick(s);
    SaveReturnsWithToast(Some(there.state), tag);
  }

  /** A preference screen reached without a payload still saves cleanly: the
      result carries only the `from` tag. */
  lemma SaveWithoutPayload(tag: string)
    ensures SaveAndReturn(None, tag).state == map["from" := Str(tag)]
  {
  }
}
