/**
 * The storefront widget's trigger system: a delay timer, a scroll threshold, a time-on-page
 * counter and exit-intent detection race to mount the widget, and a single flag makes sure it is
 * mounted at most once. Timers and listeners become discrete events delivered to the object.
 */
module WidgetTriggers {
  import opened Wrappers

  /**
   * Trigger settings as parsed from the container's data attributes: a delay in seconds, a scroll
   * percentage, seconds on the page, and whether exit intent is watched.
   */
  datatype TriggerConfig = TriggerConfig(delay: int, scrollPercent: real, timeOnPage: int, exitIntent: bool)

  /** Every setting is exactly zero or off: the widget is mounted while the triggers are set up. */
  predicate MountsImmediately(c: TriggerConfig) {
    c.delay == 0 && c.scrollPercent == 0.0 && c.timeOnPage == 0 && !c.exitIntent
  }

  /**
   * Nothing is armed and the immediate mount does not apply either: a negative setting among
   * otherwise disabled ones.
   */
  predicate NeverArmed(c: TriggerConfig) {
    c.delay <= 0 && c.scrollPercent <= 0.0 && c.timeOnPage <= 0 && !c.exitIntent && !MountsImmediately(c)
  }

  /** The pixel distance from the top of the window within which a mouse move counts as exit intent. */
  const ExitIntentBand: real := 50.0

  /**
   * `(scrollTop / docHeight) * 100 >= threshold` in floating point, without the division: a
   * positive height compares products, a negative one flips the comparison, and a zero height
   * divides to +Infinity for a positive offset, to NaN for a zero one and to -Infinity below.
   */
  predicate ScrollReached(scrollTop: real, docHeight: real, threshold: real)
    ensures docHeight != 0.0 ==> (ScrollReached(scrollTop, docHeight, threshold) <==> (scrollTop / docHeight) * 100.0 >= threshold)
    ensures docHeight == 0.0 ==> (ScrollReached(scrollTop, docHeight, threshold) <==> scrollTop > 0.0)
  {
    if docHeight > 0.0 then
      PercentageWithoutDivision(scrollTop, docHeight, threshold);
      scrollTop * 100.0 >= threshold * docHeight
    else if docHeight < 0.0 then
      PercentageWithoutDivision(scrollTop, docHeight, threshold);
      scrollTop * 100.0 <= threshold * docHeight
    else scrollTop > 0.0
  }

  /** Multiplying the percentage test through by the height: the order flips for a negative one. */
  lemma PercentageWithoutDivision(scrollTop: real, docHeight: real, threshold: real)
    requires docHeight != 0.0
    ensures docHeight > 0.0 ==> (scrollTop * 100.0 >= threshold * docHeight <==> (scrollTop / docHeight) * 100.0 >= threshold)
    ensures docHeight < 0.0 ==> (scrollTop * 100.0 <= threshold * docHeight <==> (scrollTop / docHeight) * 100.0 >= threshold)
  {
    var q := scrollTop / docHeight;
    assert scrollTop == q * docHeight;
    assert scrollTop * 100.0 == (q * 100.0) * docHeight;
    if docHeight > 0.0 {
      MultiplyPreservesOrder(q * 100.0, threshold, docHeight);
    } else {
      MultiplyPreservesOrder(threshold, q * 100.0, -docHeight);
      assert threshold * -docHeight == -(threshold * docHeight);
      assert (q * 100.0) * -docHeight == -(scrollTop * 100.0);
    }
  }

  lemma MultiplyPreservesOrder(a: real, b: real, k: real)
    requires k > 0.0
    ensures a >= b <==> a * k >= b * k
  {
    if a >= b {
      assert (a - b) * k >= 0.0;
    } else {
      assert (b - a) * k > 0.0;
    }
  }

  /**
   * The closure state of `initializeTriggerSystem`. `mountCount` counts calls of `createWidget`;
   * the other fields are the flags and counter of the source plus which timers and listeners are
   * still registered.
   */
  class TriggerSystem {
    const config: TriggerConfig
    var widgetCreated: bool
    var mountCount: nat
    var delayPending: bool
    var scrollListening: bool
    var timerRunning: bool
    var timeSpent: int
    var exitListening: bool
    var exitIntentTriggered: bool

    /**
     * The widget is mounted at most once, exactly when the flag is set; mounting removes the scroll
     * and exit-intent listeners; exit intent only ever fires by mounting; the time counter stays
     * below the threshold while the interval runs and stops exactly on it.
     */
    ghost predicate Valid()
      reads this
    {
      && mountCount == (if widgetCreated then 1 else 0)
      && (widgetCreated ==> !scrollListening && !exitListening)
      && (exitIntentTriggered ==> widgetCreated && config.exitIntent)
      && (delayPending ==> config.delay > 0)
      && (scrollListening ==> config.scrollPercent > 0.0)
      && (exitListening ==> config.exitIntent)
      && (config.timeOnPage > 0 ==>
            if timerRunning then 0 <= timeSpent < config.timeOnPage else timeSpent == config.timeOnPage)
      && (config.timeOnPage <= 0 ==> !timerRunning && timeSpent == 0)
    }

    /** No timer or listener is left that could ever mount the widget. */
    predicate Dormant()
      reads this
    {
      !widgetCreated && !delayPending && !scrollListening && !timerRunning && !exitListening
    }

    /** `initializeTriggerSystem`: arm every configured trigger, or mount at once when none is. */
    constructor (config: TriggerConfig)
      ensures this.config == config && Valid()
      ensures widgetCreated <==> MountsImmediately(config)
      ensures delayPending <==> config.delay > 0
      ensures scrollListening <==> config.scrollPercent > 0.0
      ensures timerRunning <==> config.timeOnPage > 0
      ensures exitListening <==> config.exitIntent
      ensures timeSpent == 0 && !exitIntentTriggered
      ensures Dormant() <==> NeverArmed(config)
    {
      this.config := config;
      widgetCreated := false;
      mountCount := 0;
      delayPending := config.delay > 0;
      scrollListening := config.scrollPercent > 0.0;
      timerRunning := config.timeOnPage > 0;
      timeSpent := 0;
      exitListening := config.exitIntent;
      exitIntentTriggered := false;
      new;
      if MountsImmediately(config) {
        CreateWidgetOnce();
      }
    }

    /**
     * `createWidgetOnce`: the first call mounts the widget and removes the scroll and exit-intent
     * listeners; every later call changes nothing. Pending timers are left alone.
     */
    method CreateWidgetOnce()
      requires Valid()
      modifies this
      ensures Valid() && widgetCreated && mountCount == 1
      ensures old(widgetCreated) ==> unchanged(this)
      ensures !scrollListening && !exitListening
      ensures delayPending == old(delayPending) && timerRunning == old(timerRunning)
      ensures timeSpent == old(timeSpent) && exitIntentTriggered == old(exitIntentTriggered)
    {
      if !widgetCreated {
        widgetCreated := true;
        mountCount := mountCount + 1;
        scrollListening := false;
        exitListening := false;
      }
    }

    /** The `setTimeout` of the delay trigger fires. */
    method DelayElapsed()
      requires Valid()
      modifies this
      ensures Valid() && !delayPending
      ensures widgetCreated <==> old(widgetCreated) || old(delayPending)
      ensures timerRunning == old(timerRunning) && timeSpent == old(timeSpent)
      ensures exitIntentTriggered == old(exitIntentTriggered)
      ensures old(Dormant()) ==> Dormant()
      ensures scrollListening == (old(scrollListening) && !widgetCreated)
      ensures exitListening == (old(exitListening) && !widgetCreated)
    {
      if delayPending {
        delayPending := false;
        CreateWidgetOnce();
      }
    }

    /**
     * One second of the time-on-page interval: the counter goes up by one, and on the first tick
     * that reaches the threshold the interval clears itself and mounts the widget.
     */
    method Tick()
      requires Valid()
      modifies this
      ensures Valid()
      ensures timeSpent == old(timeSpent) + (if old(timerRunning) then 1 else 0)
      ensures timerRunning <==> old(timerRunning) && timeSpent < config.timeOnPage
      ensures widgetCreated <==> old(widgetCreated) || (old(timerRunning) && timeSpent >= config.timeOnPage)
      ensures delayPending == old(delayPending) && exitIntentTriggered == old(exitIntentTriggered)
      ensures old(Dormant()) ==> Dormant()
      ensures scrollListening == (old(scrollListening) && !widgetCreated)
      ensures exitListening == (old(exitListening) && !widgetCreated)
    {
      if timerRunning {
        timeSpent := timeSpent + 1;
        if timeSpent >= config.timeOnPage {
          timerRunning := false;
          CreateWidgetOnce();
        }
      }
    }

    /**
     * `seconds` ticks of the interval in a row: the counter advances by `seconds` unless it reaches
     * the threshold first, in which case it stops there and the widget is mounted.
     */
    method TickFor(seconds: nat)
      requires Valid()
      modifies this
      ensures Valid()
      ensures var reached := old(timerRunning) && old(timeSpent) + seconds >= config.timeOnPage;
        && timerRunning == (old(timerRunning) && !reached)
        && timeSpent == (if reached then config.timeOnPage
                         else old(timeSpent) + (if old(timerRunning) then seconds else 0))
        && widgetCreated == (old(widgetCreated) || reached)
      ensures scrollListening == (old(scrollListening) && !widgetCreated)
      ensures exitListening == (old(exitListening) && !widgetCreated)
      ensures delayPending == old(delayPending) && exitIntentTriggered == old(exitIntentTriggered)
    {
      var k := 0;
      while k < seconds
        invariant 0 <= k <= seconds
        invariant Valid()
        invariant var reached := old(timerRunning) && old(timeSpent) + k >= config.timeOnPage;
          && timerRunning == (old(timerRunning) && !reached)
          && timeSpent == (if reached then config.timeOnPage
                           else old(timeSpent) + (if old(timerRunning) then k else 0))
          && widgetCreated == (old(widgetCreated) || reached)
        invariant scrollListening == (old(scrollListening) && !widgetCreated)
        invariant exitListening == (old(exitListening) && !widgetCreated)
        invariant delayPending == old(delayPending) && exitIntentTriggered == old(exitIntentTriggered)
      {
        Tick();
        k := k + 1;
      }
    }

    /** A scroll event with the window's offset and scrollable height. */
    method Scroll(scrollTop: real, docHeight: real)
      requires Valid()
      modifies this
      ensures Valid()
      ensures widgetCreated <==> old(widgetCreated) || (old(scrollListening) && ScrollReached(scrollTop, docHeight, config.scrollPercent))
      ensures delayPending == old(delayPending) && timerRunning == old(timerRunning) && timeSpent == old(timeSpent)
      ensures exitIntentTriggered == old(exitIntentTriggered)
      ensures old(Dormant()) ==> Dormant()
      ensures scrollListening == (old(scrollListening) && !widgetCreated)
      ensures exitListening == (old(exitListening) && !widgetCreated)
    {
      if scrollListening && ScrollReached(scrollTop, docHeight, config.scrollPercent) {
        CreateWidgetOnce();
      }
    }

    /**
     * A `mouseout` event; `from` is the node name of the element the pointer moved to, absent when
     * it left the window. Leaving the window, or moving onto the root `HTML` element, is exit
     * intent, unless exit intent already fired or the widget is already mounted.
     */
    method MouseOut(from: Option<string>)
      requires Valid()
      modifies this
      ensures Valid()
      ensures var fires := old(exitListening) && !old(exitIntentTriggered) && !old(widgetCreated) &&
                           (from.None? || from.value == "HTML");
              (widgetCreated <==> old(widgetCreated) || fires) &&
              (exitIntentTriggered <==> old(exitIntentTriggered) || fires)
      ensures delayPending == old(delayPending) && timerRunning == old(timerRunning) && timeSpent == old(timeSpent)
      ensures old(Dormant()) ==> Dormant()
      ensures scrollListening == (old(scrollListening) && !widgetCreated)
      ensures exitListening == (old(exitListening) && !widgetCreated)
    {
      if exitListening && !exitIntentTriggered && !widgetCreated {
        if from.None? || from.value == "HTML" {
          CreateWidgetOnce();
          exitIntentTriggered := true;
        }
      }
    }

    /** A `mousemove` event at height `clientY`: within the top band it is exit intent, once. */
    method MouseMove(clientY: real)
      requires Valid()
      modifies this
      ensures Valid()
      ensures var fires := old(exitListening) && !old(exitIntentTriggered) && !old(widgetCreated) &&
                           clientY < ExitIntentBand;
              (widgetCreated <==> old(widgetCreated) || fires) &&
              (exitIntentTriggered <==> old(exitIntentTriggered) || fires)
      ensures delayPending == old(delayPending) && timerRunning == old(timerRunning) && timeSpent == old(timeSpent)
      ensures old(Dormant()) ==> Dormant()
      ensures scrollListening == (old(scrollListening) && !widgetCreated)
      ensures exitListening == (old(exitListening) && !widgetCreated)
    {
      if exitListening && !exitIntentTriggered && !widgetCreated {
        if clientY < ExitIntentBand {
          CreateWidgetOnce();
          exitIntentTriggered := true;
        }
      }
    }
  }
}
