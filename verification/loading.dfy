/** The loading screen: a message index advanced by a repeating timer and
    clamped at the last message, a one-shot timer that moves on to the results
    screen, and the teardown that cancels both.

    Time is discrete: one `Tick` is one `MESSAGE_DURATION`, the period of the
    repeating timer; the one-shot timer's delay is a whole number of periods. */
module Loading {
  import opened Routing

  const LOADING_MESSAGES: seq<string> := [
    "Looking at trends in your appointments",
    "Analyzing the types of patients who have booked with you",
    "Looking at trends"
  ]

  const LAST_INDEX := |LOADING_MESSAGES| - 1

  /** Milliseconds per message. */
  const MESSAGE_DURATION := 1800

  /** Milliseconds until the move to the results screen. */
  const NAVIGATION_DELAY := MESSAGE_DURATION * |LOADING_MESSAGES|

  /** The interval's updater `prev => prev < LOADING_MESSAGES.length - 1 ? prev + 1 : prev`. */
  function NextIndex(prev: int): (r: int)
    ensures r >= prev
    ensures r == prev <==> prev >= LAST_INDEX
    ensures 0 <= prev <= LAST_INDEX ==> 0 <= r <= LAST_INDEX
  {
    if prev < LAST_INDEX then prev + 1 else prev
  }

  /** The index after `k` interval ticks from the initial index 0. */
  function IndexAfter(k: nat): int {
    if k == 0 then 0 else NextIndex(IndexAfter(k - 1))
  }

  /** After `k` ticks the index is `min(k, 2)`: it climbs one per tick and then stays on the last message. */
  lemma {:induction false} IndexAfterTicks(k: nat)
    ensures IndexAfter(k) == if k < LAST_INDEX then k else LAST_INDEX
  {
    if k > 0 {
      IndexAfterTicks(k - 1);
    }
  }

  /** The index never decreases, and ticking on the last message changes nothing. */
  lemma {:induction false} IndexAfterMonotone(j: nat, k: nat)
    requires j <= k
    ensures IndexAfter(j) <= IndexAfter(k)
    ensures j >= LAST_INDEX ==> IndexAfter(k) == LAST_INDEX
  {
    IndexAfterTicks(j);
    IndexAfterTicks(k);
  }

  class LoadingScreen {
    var messageIndex: int
    /** Interval periods elapsed since mount. */
    var ticks: nat
    /** `messageTimer` is still registered. */
    var messageTimerActive: bool
    /** `navigationTimer` has neither fired nor been cleared. */
    var navigationTimerActive: bool
    /** The navigations this screen has made. */
    var navigations: seq<string>

    function ElapsedMs(): nat
      reads this
    {
      ticks * MESSAGE_DURATION
    }

    ghost predicate Valid()
      reads this
    {
      && 0 <= messageIndex <= LAST_INDEX
      && (messageTimerActive ==> messageIndex == IndexAfter(ticks))
      && (navigationTimerActive ==> navigations == [] && ElapsedMs() < NAVIGATION_DELAY)
      && (navigations == [] || (navigations == [RESULTS_PATH] && ElapsedMs() >= NAVIGATION_DELAY))
    }

    /** Mounting: index 0, both timers registered, nothing navigated yet. */
    constructor ()
      ensures Valid()
      ensures messageIndex == 0 && ticks == 0
      ensures messageTimerActive && navigationTimerActive && navigations == []
    {
      messageIndex := 0;
      ticks := 0;
      messageTimerActive := true;
      navigationTimerActive := true;
      navigations := [];
    }

    /** One period passes: the repeating timer, if still registered, advances
        the index; the one-shot timer, if still pending and now due, navigates
        to the results screen once. */
    method Tick()
      requires Valid()
      modifies this
      ensures Valid()
      ensures ticks == old(ticks) + 1
      ensures messageIndex == if old(messageTimerActive) then NextIndex(old(messageIndex)) else old(messageIndex)
      ensures messageTimerActive == old(messageTimerActive)
      ensures navigationTimerActive == (old(navigationTimerActive) && ElapsedMs() < NAVIGATION_DELAY)
      ensures navigations == if old(navigationTimerActive) && ElapsedMs() == NAVIGATION_DELAY
                             then old(navigations) + [RESULTS_PATH] else old(navigations)
    {
      ticks := ticks + 1;
      if messageTimerActive {
        messageIndex := NextIndex(messageIndex);
      }
      if navigationTimerActive && ticks * MESSAGE_DURATION == NAVIGATION_DELAY {
        navigations := navigations + [RESULTS_PATH];
        navigationTimerActive := false;
      }
    }

    /** The effect's cleanup: both timers are cleared. */
    method Teardown()
      requires Valid()
      modifies this`messageTimerActive, this`navigationTimerActive
      ensures Valid()
      ensures !messageTimerActive && !navigationTimerActive
    {
      messageTimerActive := false;
      navigationTimerActive := false;
    }

    /** `LOADING_MESSAGES[messageIndex]`, always a defined entry. */
    function CurrentMessage(): (m: string)
      requires Valid()
      reads this
      ensures m in LOADING_MESSAGES
    {
      LOADING_MESSAGES[messageIndex]
    }
  }

  /** Left alone, the screen navigates to the results screen exactly once, on
      the third tick (5400 ms), when the last message is showing. */
  method RunUndisturbed() returns (screen: LoadingScreen)
    ensures screen.Valid()
    ensures screen.ticks == 3 && screen.ElapsedMs() == 5400
    ensures screen.navigations == [RESULTS_PATH]
    ensures screen.messageIndex == LAST_INDEX
  {
    screen := new LoadingScreen();
    screen.Tick();
    assert screen.navigations == [];
    screen.Tick();
    assert screen.navigations == [];
    screen.Tick();
  }

  /** Torn down, the screen changes no more: later ticks neither move the index nor navigate. */
  method TickAfterTeardown(screen: LoadingScreen)
    requires screen.Valid() && !screen.messageTimerActive && !screen.navigationTimerActive
    modifies screen
    ensures screen.Valid()
    ensures screen.messageIndex == old(screen.messageIndex)
    ensures screen.navigations == old(screen.navigations)
  {
    screen.Tick();
  }
}
