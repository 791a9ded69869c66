/** Client runs of the manager: each drives one Manager through a sequence
    of calls and events and reports what an observer would see. */
module ToastScenarios {
  import opened ToastConfig
  import opened ToastManager

  /** "A" for 2 s at t = 0, then "B" for 5 s at t = 1 s: at t = 2 s the
      cancelled timer of "A" wakes and does nothing, "B" is still shown;
      at t = 6 s the timer of "B" dismisses it. */
  method ReplaceScenario() returns (presentingAt2: bool, textAt2: Option<string>, presentingAt6: bool)
    ensures presentingAt2 && textAt2 == Some("B")
    ensures !presentingAt6
  {
    var m := new Manager();
    m.Show("A", duration := 2000);
    var first := m.epoch;
    m.AdvanceClock(1000);
    m.Show("B", duration := 5000);
    var second := m.epoch;
    m.AdvanceClock(2000);
    m.FireTimer(first);
    presentingAt2 := m.isPresenting;
    textAt2 := if m.currentConfig.Some? then m.currentConfig.value.text else None;
    m.AdvanceClock(6000);
    m.FireTimer(second);
    presentingAt6 := m.isPresenting;
  }

  /** A show with empty text returns before the cancel, so the earlier
      toast's timer still dismisses that toast on time. */
  method EmptyTextKeepsTimer() returns (textBefore: Option<string>, presentingAfter: bool)
    ensures textBefore == Some("A")
    ensures !presentingAfter
  {
    var m := new Manager();
    m.Show("A", duration := 2000);
    var token := m.epoch;
    m.AdvanceClock(500);
    m.Show("", duration := 0);
    textBefore := if m.currentConfig.Some? then m.currentConfig.value.text else None;
    m.AdvanceClock(2000);
    m.FireTimer(token);
    presentingAfter := m.isPresenting;
  }

  /** A toast shown for d > 0 ms is presented just before d and gone at d. */
  method AutoDismissScenario(d: int) returns (before: bool, after: bool)
    requires d > 0
    ensures before && !after
  {
    var m := new Manager();
    m.Show("A", duration := d);
    var token := m.epoch;
    m.AdvanceClock(d - 1);
    before := m.isPresenting;
    m.AdvanceClock(d);
    m.FireTimer(token);
    after := m.isPresenting;
  }

  /** As written: "A" is dismissed at t = 0, "B" shown at t = 100 ms, and
      the clear scheduled by the dismiss runs at t = 300 ms.  The manager
      then reports a toast presented while holding no config. */
  method StompScenario() returns (presenting: bool, config: Option<Config>)
    ensures presenting && config.None?
  {
    var m := new Manager();
    m.Show("A");
    m.Dismiss();
    m.AdvanceClock(100);
    m.Show("B");
    m.AdvanceClock(300);
    m.FireClear();
    presenting, config := m.isPresenting, m.currentConfig;
  }

  /** As written, each dismiss schedules its own clear.  "A" is dismissed
      at t = 0 and again at t = 250 ms; the first clear runs at 300 ms, "B"
      is shown at 350 ms, and the second clear at 550 ms leaves the manager
      presenting with no config.  The same run with a single dismiss keeps
      "B". */
  method DoubleDismissScenario() returns (presenting: bool, config: Option<Config>,
                                          presentingOnce: bool, configOnce: Option<Config>)
    ensures presenting && config.None?
    ensures presentingOnce && configOnce == Some(WithImage("B"))
  {
    var m := new Manager();
    m.Show("A");
    m.Dismiss();
    m.AdvanceClock(250);
    m.Dismiss();
    m.AdvanceClock(300);
    m.FireClear();
    m.AdvanceClock(350);
    m.Show("B");
    m.AdvanceClock(550);
    m.FireClear();
    presenting, config := m.isPresenting, m.currentConfig;

    var once := new Manager();
    once.Show("A");
    once.Dismiss();
    once.AdvanceClock(250);
    once.AdvanceClock(300);
    once.FireClear();
    once.AdvanceClock(350);
    once.Show("B");
    once.AdvanceClock(550);
    presentingOnce, configOnce := once.isPresenting, once.currentConfig;
  }

  /** As written, a dismiss while nothing is shown still schedules a clear,
      which removes the config of a toast shown within the next 300 ms. */
  method IdleDismissScenario() returns (presenting: bool, config: Option<Config>)
    ensures presenting && config.None?
  {
    var m := new Manager();
    m.Dismiss();
    m.AdvanceClock(100);
    m.Show("B");
    m.AdvanceClock(300);
    m.FireClear();
    presenting, config := m.isPresenting, m.currentConfig;
  }

  /** The same run with the guarded clear keeps "B". */
  method GuardedScenario() returns (presenting: bool, config: Option<Config>)
    ensures presenting && config == Some(WithImage("B"))
  {
    var m := new Manager();
    m.Show("A");
    m.Dismiss();
    m.AdvanceClock(100);
    m.Show("B");
    m.AdvanceClock(300);
    m.FireClearGuarded();
    presenting, config := m.isPresenting, m.currentConfig;
  }
}
