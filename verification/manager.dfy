/** The presentation manager (Y_ToastManager): a single slot holding whether
    a toast is presented, its config, at most one armed auto-hide task, and
    the delayed clears that dismiss schedules.

    Time is discrete.  The tasks the source starts become events: an armed
    auto-hide task is a Timer that carries a token from a generation counter
    (epoch, incremented by every accepted show) and a deadline; a delayed
    clear is a PendingClear.  The scheduler may advance the clock only up to
    the next due event, and delivers TimerFired(token) and ClearFired at
    their deadlines.  A cancelled task's token is no longer armed, so its
    wake-up does nothing: cancellation always wins.

    The pure functions below (ShowStep, DismissStep, ...) specify each
    operation on a ManagerState value; the class Manager performs the same
    operations in place, and each of its methods is proved to agree with
    its step function. */
module ToastManager {
  import opened ToastConfig

  /** The delay between a dismiss and the clearing of the config (0.3 s). */
  const GraceMs: int := 300

  /** An armed auto-hide task. */
  datatype Timer = Timer(token: nat, deadline: int)

  /** A delayed clear, due at deadline, scheduled while the epoch was epoch. */
  datatype PendingClear = PendingClear(deadline: int, epoch: nat)

  /** The arguments of the manager's three show overloads. */
  datatype ShowRequest =
    | TextShow(text: string, image: Option<ImageType>, isFullScreen: bool, canTapRemove: bool, duration: int)
    | CustomImageShow(text: string, customImage: ViewToken, isFullScreen: bool, canTapRemove: bool, duration: int)
    | CustomContentShow(customContent: ViewToken, isFullScreen: bool, canTapRemove: bool, duration: int)

  /** The two text-based overloads return at once when the text is empty;
      the custom-content overload has no such guard. */
  predicate Rejected(req: ShowRequest) {
    !req.CustomContentShow? && req.text == ""
  }

  /** The config an overload builds from its arguments. */
  function ConfigOf(req: ShowRequest): (c: Config)
    ensures WellFormed(c)
    ensures c.isFullScreen == req.isFullScreen && c.canTapRemove == req.canTapRemove
    ensures c.duration == req.duration
    ensures !req.CustomContentShow? ==> c.text == Some(req.text)
    ensures req.TextShow? ==> c.image == req.image && c.customImage.None? && c.customContent.None?
    ensures req.CustomImageShow? ==> c.image.None? && c.customImage == Some(req.customImage) && c.customContent.None?
    ensures req.CustomContentShow? ==> c.customContent == Some(req.customContent)
  {
    match req
    case TextShow(text, image, fs, tap, d) => WithImage(text, image, fs, tap, d)
    case CustomImageShow(text, token, fs, tap, d) => WithCustomImage(text, token, fs, tap, d)
    case CustomContentShow(token, fs, tap, d) => WithCustomContent(token, fs, tap, d)
  }

  datatype ManagerState = ManagerState(
    now: int,
    isPresenting: bool,
    currentConfig: Option<Config>,
    autoHide: Option<Timer>,
    epoch: nat,
    clears: seq<PendingClear>)

  function Initial(): ManagerState {
    ManagerState(0, false, None, None, 0, [])
  }

  /** What the manager keeps consistent between calls. */
  predicate Inv(s: ManagerState) {
    // an armed timer belongs to the latest show, which is still presented
    && (s.autoHide.Some? ==>
          s.isPresenting && s.autoHide.value.token == s.epoch && s.now <= s.autoHide.value.deadline)
    // clears are due within one grace period, in the order they were scheduled
    && (forall i :: 0 <= i < |s.clears| ==>
          s.now <= s.clears[i].deadline <= s.now + GraceMs && s.clears[i].epoch <= s.epoch)
    && (forall i, j :: 0 <= i < j < |s.clears| ==> s.clears[i].deadline <= s.clears[j].deadline)
    && (s.currentConfig.Some? ==> WellFormed(s.currentConfig.value))
    // while presenting, every pending clear was scheduled before the latest show
    && (s.isPresenting ==> forall i :: 0 <= i < |s.clears| ==> s.clears[i].epoch < s.epoch)
    // when not presenting, either the slot is empty or a clear of the latest dismiss is pending
    && (!s.isPresenting ==>
          if |s.clears| == 0 then s.currentConfig.None? else s.clears[|s.clears| - 1].epoch == s.epoch)
  }

  /** The property the delayed clear was meant to keep: a presented toast has a config. */
  predicate Coherent(s: ManagerState) {
    s.isPresenting ==> s.currentConfig.Some?
  }

  /** showWithConfig, entered after the caller has cancelled the old task. */
  function Install(s: ManagerState, c: Config, duration: int): (r: ManagerState)
    ensures r.isPresenting && r.currentConfig == Some(c) && r.epoch > s.epoch
    ensures duration > 0 ==> r.autoHide == Some(Timer(r.epoch, s.now + duration))
    ensures duration <= 0 ==> r.autoHide == s.autoHide
    ensures r.now == s.now && r.clears == s.clears
  {
    var e := s.epoch + 1;
    s.(currentConfig := Some(c), isPresenting := true, epoch := e,
       autoHide := if duration > 0 then Some(Timer(e, s.now + duration)) else s.autoHide)
  }

  /** show: rejected text is a no-op; otherwise cancel the old task, install the new config. */
  function ShowStep(s: ManagerState, req: ShowRequest): (r: ManagerState)
    ensures Rejected(req) ==> r == s
    ensures !Rejected(req) ==> r.isPresenting && r.currentConfig == Some(ConfigOf(req))
    ensures !Rejected(req) ==> (r.autoHide.Some? <==> req.duration > 0)
  {
    if Rejected(req) then s else Install(s.(autoHide := None), ConfigOf(req), req.duration)
  }

  /** dismiss: cancel the task, stop presenting, schedule one delayed clear. */
  function DismissStep(s: ManagerState): (r: ManagerState)
    ensures !r.isPresenting && r.autoHide.None? && r.currentConfig == s.currentConfig
    ensures |r.clears| == |s.clears| + 1 && r.clears[..|s.clears|] == s.clears
    ensures r.clears[|s.clears|].deadline == s.now + GraceMs
  {
    s.(autoHide := None, isPresenting := false,
       clears := s.clears + [PendingClear(s.now + GraceMs, s.epoch)])
  }

  /** handleTap: dismiss when the current config allows it, else nothing. */
  function TapStep(s: ManagerState): (r: ManagerState)
    ensures r == s || r == DismissStep(s)
    ensures r == DismissStep(s) <==> s.currentConfig.Some? && s.currentConfig.value.canTapRemove
  {
    if s.currentConfig.Some? && s.currentConfig.value.canTapRemove then DismissStep(s) else s
  }

  /** An auto-hide task wakes up: only the armed one dismisses. */
  function TimerStep(s: ManagerState, token: nat): (r: ManagerState)
    ensures r == s || r == DismissStep(s)
    ensures r == DismissStep(s) <==> s.autoHide.Some? && s.autoHide.value.token == token
  {
    if s.autoHide.Some? && s.autoHide.value.token == token then DismissStep(s) else s
  }

  /** The delayed clear as written: it empties the slot unconditionally. */
  function ClearStep(s: ManagerState): (r: ManagerState)
    requires |s.clears| > 0
    ensures r.currentConfig.None? && r.clears == s.clears[1..]
    ensures r.isPresenting == s.isPresenting && r.autoHide == s.autoHide
  {
    s.(currentConfig := None, clears := s.clears[1..])
  }

  /** The delayed clear guarded as intended: it empties the slot only when
      no show has happened since the dismiss that scheduled it. */
  function GuardedClearStep(s: ManagerState): ManagerState
    requires |s.clears| > 0
  {
    s.(currentConfig := if s.clears[0].epoch == s.epoch then None else s.currentConfig,
       clears := s.clears[1..])
  }

  function TickStep(s: ManagerState, t: int): ManagerState {
    s.(now := t)
  }

  datatype Event =
    | ShowCall(req: ShowRequest)
    | DismissCall
    | TapCall
    | TimerFired(token: nat)
    | ClearFired
    | ClockAdvanced(time: int)

  /** Calls may come at any time; the scheduler delivers events only when due. */
  predicate Due(s: ManagerState, e: Event) {
    match e
    case TimerFired(token) =>
      s.autoHide.Some? && s.autoHide.value.token == token ==> s.now == s.autoHide.value.deadline
    case ClearFired =>
      |s.clears| > 0 && s.clears[0].deadline == s.now
    case ClockAdvanced(t) =>
      && s.now <= t
      && (s.autoHide.Some? ==> t <= s.autoHide.value.deadline)
      && (|s.clears| > 0 ==> t <= s.clears[0].deadline)
    case _ => true
  }

  /** Which delayed clear the run uses: the source's, or the guarded one. */
  datatype ClearPolicy = AsWritten | Guarded

  function Step(s: ManagerState, e: Event, p: ClearPolicy): ManagerState
    requires Due(s, e)
  {
    match e
    case ShowCall(req) => ShowStep(s, req)
    case DismissCall => DismissStep(s)
    case TapCall => TapStep(s)
    case TimerFired(token) => TimerStep(s, token)
    case ClearFired => if p == Guarded then GuardedClearStep(s) else ClearStep(s)
    case ClockAdvanced(t) => TickStep(s, t)
  }

  /** Runs a sequence of events; an event that is not yet due is dropped. */
  function Run(s: ManagerState, es: seq<Event>, p: ClearPolicy): ManagerState
    decreases |es|
  {
    if es == [] then s
    else Run(if Due(s, es[0]) then Step(s, es[0], p) else s, es[1..], p)
  }

  // ---------------------------------------------------------------------
  // Properties of single operations

  /** A text-based show with empty text changes nothing, not even the armed
      timer; the custom-content show is never rejected and always installs
      its config. */
  lemma RejectedShowIsNoOp(s: ManagerState, req: ShowRequest)
    ensures Rejected(req) ==> ShowStep(s, req) == s
    ensures req.CustomContentShow? ==>
      && !Rejected(req)
      && ShowStep(s, req).isPresenting
      && ShowStep(s, req).currentConfig == Some(ConfigOf(req))
  {
  }

  /** An accepted show installs the new config, presents it whatever the
      prior state, and arms a timer exactly when its duration is positive. */
  lemma ShowInstalls(s: ManagerState, req: ShowRequest)
    requires !Rejected(req)
    ensures var r := ShowStep(s, req);
      && r.isPresenting
      && r.currentConfig == Some(ConfigOf(req))
      && (r.autoHide.Some? <==> req.duration > 0)
      && (req.duration > 0 ==> r.autoHide.value == Timer(s.epoch + 1, s.now + req.duration))
      && r.clears == s.clears && r.now == s.now
  {
  }

  /** A timer armed before an accepted show can never cause a dismiss. */
  lemma ShowCancelsEarlierTimers(s: ManagerState, req: ShowRequest, token: nat)
    requires !Rejected(req) && token <= s.epoch
    ensures TimerStep(ShowStep(s, req), token) == ShowStep(s, req)
  {
  }

  /** dismiss leaves no timer, stops presenting, schedules one clear one
      grace period ahead.  A second dismiss, or one when idle, leaves the
      flag, the config and the timer as one dismiss does, but it still
      schedules one more clear (see ExtraDismissStompsReshow). */
  lemma DismissProperties(s: ManagerState)
    requires Inv(s)
    ensures var r := DismissStep(s);
      && r.autoHide.None? && !r.isPresenting && r.currentConfig == s.currentConfig
      && r.clears == s.clears + [PendingClear(s.now + GraceMs, s.epoch)]
    ensures var once, twice := DismissStep(s), DismissStep(DismissStep(s));
      (twice.isPresenting, twice.currentConfig, twice.autoHide)
        == (once.isPresenting, once.currentConfig, once.autoHide)
    ensures !s.isPresenting ==>
      var r := DismissStep(s);
      (r.isPresenting, r.currentConfig, r.autoHide) == (s.isPresenting, s.currentConfig, s.autoHide)
  {
  }

  /** handleTap is dismiss when the current config is tap-removable and
      otherwise nothing; isPresenting plays no part. */
  lemma TapIsDismissOrNothing(s: ManagerState)
    ensures s.currentConfig.None? ==> TapStep(s) == s
    ensures s.currentConfig.Some? && !s.currentConfig.value.canTapRemove ==> TapStep(s) == s
    ensures s.currentConfig.Some? && s.currentConfig.value.canTapRemove ==> TapStep(s) == DismissStep(s)
  {
  }

  /** The armed timer fires dismiss once; any other token does nothing. */
  lemma TimerFiresOnce(s: ManagerState, token: nat)
    ensures s.autoHide.Some? && s.autoHide.value.token == token ==> TimerStep(s, token) == DismissStep(s)
    ensures !(s.autoHide.Some? && s.autoHide.value.token == token) ==> TimerStep(s, token) == s
    ensures TimerStep(TimerStep(s, token), token) == TimerStep(s, token)
  {
  }

  /** As written, a show between a dismiss and its clear is stomped: the
      toast stays presented while its config is gone. */
  lemma ClearStompsReshow(s: ManagerState, req: ShowRequest)
    requires |s.clears| > 0 && !Rejected(req)
    ensures var r := ClearStep(ShowStep(s, req));
      r.isPresenting && r.currentConfig.None? && !Coherent(r)
  {
  }

  /** Guarded, the same clear leaves the newer config in place. */
  lemma GuardedClearKeepsReshow(s: ManagerState, req: ShowRequest)
    requires Inv(s) && |s.clears| > 0 && !Rejected(req)
    ensures var r := GuardedClearStep(ShowStep(s, req));
      r.isPresenting && r.currentConfig == Some(ConfigOf(req)) && Coherent(r)
  {
  }

  // ---------------------------------------------------------------------
  // Properties of runs

  lemma ShowKeepsInv(s: ManagerState, req: ShowRequest)
    requires Inv(s)
    ensures Inv(ShowStep(s, req))
  {
  }

  lemma DismissKeepsInv(s: ManagerState)
    requires Inv(s)
    ensures Inv(DismissStep(s))
  {
    var r := DismissStep(s);
    assert forall i :: 0 <= i < |s.clears| ==> r.clears[i] == s.clears[i];
  }

  lemma ClearKeepsInv(s: ManagerState, p: ClearPolicy)
    requires Inv(s) && Due(s, ClearFired)
    ensures Inv(Step(s, ClearFired, p))
  {
    var r := Step(s, ClearFired, p);
    assert r.clears == s.clears[1..];
    assert forall i :: 0 <= i < |r.clears| ==> r.clears[i] == s.clears[i + 1];
  }

  lemma TickKeepsInv(s: ManagerState, t: int)
    requires Inv(s) && Due(s, ClockAdvanced(t))
    ensures Inv(TickStep(s, t))
  {
    assert forall i :: 0 <= i < |s.clears| ==> s.clears[0].deadline <= s.clears[i].deadline;
  }

  lemma StepKeepsInv(s: ManagerState, e: Event, p: ClearPolicy)
    requires Inv(s) && Due(s, e)
    ensures Inv(Step(s, e, p))
  {
    match e
    case ShowCall(req) => ShowKeepsInv(s, req);
    case DismissCall => DismissKeepsInv(s);
    case TapCall => DismissKeepsInv(s);
    case TimerFired(token) => DismissKeepsInv(s);
    case ClearFired => ClearKeepsInv(s, p);
    case ClockAdvanced(t) => TickKeepsInv(s, t);
  }

  /** Every run from a consistent state ends in a consistent state. */
  lemma {:induction false} RunKeepsInv(s: ManagerState, es: seq<Event>, p: ClearPolicy)
    requires Inv(s)
    ensures Inv(Run(s, es, p))
    decreases |es|
  {
    if es != [] {
      var next := if Due(s, es[0]) then Step(s, es[0], p) else s;
      if Due(s, es[0]) {
        StepKeepsInv(s, es[0], p);
      }
      RunKeepsInv(next, es[1..], p);
    }
  }

  lemma GuardedStepKeepsCoherent(s: ManagerState, e: Event)
    requires Inv(s) && Coherent(s) && Due(s, e)
    ensures Coherent(Step(s, e, Guarded))
  {
  }

  /** With the guarded clear, no run ever shows a presented toast without a
      config. */
  lemma {:induction false} GuardedRunKeepsCoherent(s: ManagerState, es: seq<Event>)
    requires Inv(s) && Coherent(s)
    ensures Coherent(Run(s, es, Guarded))
    decreases |es|
  {
    if es != [] {
      var next := if Due(s, es[0]) then Step(s, es[0], Guarded) else s;
      if Due(s, es[0]) {
        StepKeepsInv(s, es[0], Guarded);
        GuardedStepKeepsCoherent(s, es[0]);
      }
      GuardedRunKeepsCoherent(next, es[1..]);
    }
  }

  function ShowCalls(reqs: seq<ShowRequest>): (es: seq<Event>)
    ensures |es| == |reqs|
    ensures forall i :: 0 <= i < |reqs| ==> es[i] == ShowCall(reqs[i])
  {
    seq(|reqs|, i requires 0 <= i < |reqs| => ShowCall(reqs[i]))
  }

  /** The index of the last request that is not rejected, or -1. */
  function LastAccepted(reqs: seq<ShowRequest>): (k: int)
    ensures -1 <= k < |reqs|
    ensures k >= 0 ==> !Rejected(reqs[k])
    ensures forall j :: k < j < |reqs| ==> Rejected(reqs[j])
    decreases |reqs|
  {
    if reqs == [] then -1
    else if !Rejected(reqs[|reqs| - 1]) then |reqs| - 1
    else LastAccepted(reqs[..|reqs| - 1])
  }

  /** After any sequence of shows, the slot holds the config of the last one
      that was accepted; if none was, nothing changed. */
  lemma {:induction false} LastShowWins(s: ManagerState, reqs: seq<ShowRequest>, p: ClearPolicy)
    ensures var r := Run(s, ShowCalls(reqs), p);
      var k := LastAccepted(reqs);
      if k >= 0 then r.isPresenting && r.currentConfig == Some(ConfigOf(reqs[k])) else r == s
    decreases |reqs|
  {
    if reqs != [] {
      var es := ShowCalls(reqs);
      var next := ShowStep(s, reqs[0]);
      assert es[0] == ShowCall(reqs[0]) && Due(s, es[0]);
      assert es[1..] == ShowCalls(reqs[1..]);
      assert Run(s, es, p) == Run(next, ShowCalls(reqs[1..]), p);
      LastShowWins(next, reqs[1..], p);
      var k, k' := LastAccepted(reqs), LastAccepted(reqs[1..]);
      assert forall j :: 0 <= j < |reqs| - 1 ==> reqs[1..][j] == reqs[j + 1];
      if k' >= 0 {
        assert k == k' + 1;
      } else if !Rejected(reqs[0]) {
        assert k == 0;
      } else {
        assert k == -1;
      }
    }
  }

  /** Events the program does not issue itself. */
  predicate Environmental(e: Event) {
    e.TimerFired? || e.ClearFired? || e.ClockAdvanced?
  }

  /** Either the timer is still armed and its deadline not passed, or it has
      fired and its deadline has been reached. */
  predicate TimerOutcome(s: ManagerState, timer: Timer) {
    || (s.isPresenting && s.autoHide == Some(timer) && s.now <= timer.deadline)
    || (!s.isPresenting && s.autoHide.None? && timer.deadline <= s.now)
  }

  lemma {:induction false} EnvironmentKeepsTimerOutcome(s: ManagerState, es: seq<Event>, p: ClearPolicy, timer: Timer)
    requires TimerOutcome(s, timer)
    requires forall i :: 0 <= i < |es| ==> Environmental(es[i])
    ensures TimerOutcome(Run(s, es, p), timer)
    decreases |es|
  {
    if es != [] {
      var next := if Due(s, es[0]) then Step(s, es[0], p) else s;
      assert TimerOutcome(next, timer) by {
        assert Environmental(es[0]);
      }
      assert forall i :: 0 <= i < |es[1..]| ==> es[1..][i] == es[i + 1];
      EnvironmentKeepsTimerOutcome(next, es[1..], p, timer);
    }
  }

  /** With no further calls, a toast shown for duration d > 0 is presented
      at every time before now + d and at no time after it. */
  lemma PresentedUntilDeadline(s: ManagerState, req: ShowRequest, es: seq<Event>, p: ClearPolicy)
    requires !Rejected(req) && req.duration > 0
    requires forall i :: 0 <= i < |es| ==> Environmental(es[i])
    ensures var r := Run(ShowStep(s, req), es, p);
      && (r.now < s.now + req.duration ==> r.isPresenting)
      && (r.now > s.now + req.duration ==> !r.isPresenting)
  {
    var timer := Timer(s.epoch + 1, s.now + req.duration);
    EnvironmentKeepsTimerOutcome(ShowStep(s, req), es, p, timer);
  }

  /** Either the one pending clear, due at t, has not run and the config is
      still c, or it has run at t and the slot is empty. */
  predicate ClearOutcome(s: ManagerState, c: Option<Config>, t: int) {
    && !s.isPresenting && s.autoHide.None?
    && (|| (|s.clears| == 1 && s.clears[0] == PendingClear(t, s.epoch)
            && s.currentConfig == c && s.now <= t)
        || (s.clears == [] && s.currentConfig.None? && t <= s.now))
  }

  lemma {:induction false} EnvironmentKeepsClearOutcome(s: ManagerState, es: seq<Event>, p: ClearPolicy,
                                                        c: Option<Config>, t: int)
    requires ClearOutcome(s, c, t)
    requires forall i :: 0 <= i < |es| ==> Environmental(es[i])
    ensures ClearOutcome(Run(s, es, p), c, t)
    decreases |es|
  {
    if es != [] {
      var next := if Due(s, es[0]) then Step(s, es[0], p) else s;
      assert ClearOutcome(next, c, t) by {
        assert Environmental(es[0]);
      }
      assert forall i :: 0 <= i < |es[1..]| ==> es[1..][i] == es[i + 1];
      EnvironmentKeepsClearOutcome(next, es[1..], p, c, t);
    }
  }

  /** With no further calls, the config survives a dismiss for the grace
      period, so the hiding animation still has it, and is gone after it. */
  lemma ConfigClearedAfterGrace(s: ManagerState, es: seq<Event>, p: ClearPolicy)
    requires s.clears == []
    requires forall i :: 0 <= i < |es| ==> Environmental(es[i])
    ensures var r := Run(DismissStep(s), es, p);
      && (r.now < s.now + GraceMs ==> r.currentConfig == s.currentConfig)
      && (r.now > s.now + GraceMs ==> r.currentConfig.None?)
  {
    EnvironmentKeepsClearOutcome(DismissStep(s), es, p, s.currentConfig, s.now + GraceMs);
  }

  /** A toast without a timer, and no clear that could remove it. */
  predicate StaysPresented(s: ManagerState, c: Config, p: ClearPolicy) {
    && s.isPresenting && s.currentConfig == Some(c) && s.autoHide.None?
    && (forall i :: 0 <= i < |s.clears| ==> s.clears[i].epoch < s.epoch)
    && (p == AsWritten ==> s.clears == [])
  }

  lemma {:induction false} EnvironmentKeepsPresented(s: ManagerState, es: seq<Event>, p: ClearPolicy, c: Config)
    requires StaysPresented(s, c, p)
    requires forall i :: 0 <= i < |es| ==> Environmental(es[i])
    ensures StaysPresented(Run(s, es, p), c, p)
    decreases |es|
  {
    if es != [] {
      var next := if Due(s, es[0]) then Step(s, es[0], p) else s;
      assert StaysPresented(next, c, p) by {
        assert Environmental(es[0]);
        if Due(s, es[0]) && es[0].ClearFired? {
          assert forall i :: 0 <= i < |next.clears| ==> next.clears[i] == s.clears[i + 1];
        }
      }
      assert forall i :: 0 <= i < |es[1..]| ==> es[1..][i] == es[i + 1];
      EnvironmentKeepsPresented(next, es[1..], p, c);
    }
  }

  /** A duration of 0 or less means no auto-hide: with no further calls, the
      toast stays presented with its config whatever time passes and
      whatever earlier timer wakes up, provided no clear of an earlier
      dismiss is pending (with the guarded clear, even if one is). */
  lemma ShownWithoutTimerStays(s: ManagerState, req: ShowRequest, es: seq<Event>, p: ClearPolicy)
    requires Inv(s) && !Rejected(req) && req.duration <= 0
    requires p == AsWritten ==> s.clears == []
    requires forall i :: 0 <= i < |es| ==> Environmental(es[i])
    ensures var r := Run(ShowStep(s, req), es, p);
      r.isPresenting && r.currentConfig == Some(ConfigOf(req)) && r.autoHide.None?
  {
    EnvironmentKeepsPresented(ShowStep(s, req), es, p, ConfigOf(req));
  }

  /** Each dismiss schedules its own clear, so a repeated dismiss leaves a
      clear behind that a single one would not.  After one dismiss and its
      clear, a new show keeps its config; after two dismisses and the first
      clear, the second clear stomps the new show. */
  lemma ExtraDismissStompsReshow(s: ManagerState, req: ShowRequest)
    requires s.clears == [] && !Rejected(req)
    ensures var once := ShowStep(ClearStep(DismissStep(s)), req);
      once.clears == [] && once.isPresenting && once.currentConfig == Some(ConfigOf(req))
    ensures var twice := ShowStep(ClearStep(DismissStep(DismissStep(s))), req);
      |twice.clears| == 1 && ClearStep(twice).isPresenting && ClearStep(twice).currentConfig.None?
  {
  }

  // ---------------------------------------------------------------------
  // The manager object

  class Manager {
    var now: int
    var isPresenting: bool
    var currentConfig: Option<Config>
    var autoHide: Option<Timer>
    var epoch: nat
    var clears: seq<PendingClear>

    function State(): ManagerState
      reads this
    {
      ManagerState(now, isPresenting, currentConfig, autoHide, epoch, clears)
    }

    ghost predicate Valid()
      reads this
    {
      Inv(State())
    }

    constructor ()
      ensures Valid() && State() == Initial()
    {
      now, isPresenting, currentConfig, autoHide, epoch, clears := 0, false, None, None, 0, [];
    }

    /** show(text:image:isFullScreen:canTapRemove:duration:) */
    method Show(text: string, image: Option<ImageType> := None, isFullScreen: bool := false,
                canTapRemove: bool := false, duration: int := 0)
      requires Valid()
      modifies this
      ensures Valid()
      ensures State() == ShowStep(old(State()), TextShow(text, image, isFullScreen, canTapRemove, duration))
    {
      if text == "" { return; }
      autoHide := None;
      var config := WithImage(text, image, isFullScreen, canTapRemove, duration);
      ShowWithConfig(config, duration);
    }

    /** show(text:customImage:isFullScreen:canTapRemove:duration:) */
    method ShowCustomImage(text: string, customImage: ViewToken, isFullScreen: bool := false,
                           canTapRemove: bool := false, duration: int := 0)
      requires Valid()
      modifies this
      ensures Valid()
      ensures State() == ShowStep(old(State()), CustomImageShow(text, customImage, isFullScreen, canTapRemove, duration))
    {
      if text == "" { return; }
      autoHide := None;
      var config := WithCustomImage(text, customImage, isFullScreen, canTapRemove, duration);
      ShowWithConfig(config, duration);
    }

    /** show(customContent:isFullScreen:canTapRemove:duration:) */
    method ShowCustomContent(customContent: ViewToken, isFullScreen: bool := false,
                             canTapRemove: bool := false, duration: int := 0)
      requires Valid()
      modifies this
      ensures Valid()
      ensures State() == ShowStep(old(State()), CustomContentShow(customContent, isFullScreen, canTapRemove, duration))
    {
      autoHide := None;
      var config := WithCustomContent(customContent, isFullScreen, canTapRemove, duration);
      ShowWithConfig(config, duration);
    }

    /** showWithConfig: install the config and arm a timer when duration > 0. */
    method ShowWithConfig(config: Config, duration: int)
      requires Valid() && autoHide.None? && WellFormed(config)
      modifies this
      ensures Valid()
      ensures State() == Install(old(State()), config, duration)
    {
      currentConfig := Some(config);
      isPresenting := true;
      epoch := epoch + 1;
      if duration > 0 {
        autoHide := Some(Timer(epoch, now + duration));
      }
    }

    method Dismiss()
      requires Valid()
      modifies this
      ensures Valid()
      ensures State() == DismissStep(old(State()))
    {
      autoHide := None;
      isPresenting := false;
      clears := clears + [PendingClear(now + GraceMs, epoch)];
    }

    method HandleTap()
      requires Valid()
      modifies this
      ensures Valid()
      ensures State() == TapStep(old(State()))
    {
      if currentConfig.None? || !currentConfig.value.canTapRemove {
        return;
      }
      Dismiss();
    }

    /** The auto-hide task with this token wakes up. */
    method FireTimer(token: nat)
      requires Valid() && Due(State(), TimerFired(token))
      modifies this
      ensures Valid()
      ensures State() == TimerStep(old(State()), token)
    {
      if autoHide.Some? && autoHide.value.token == token {
        Dismiss();
      }
    }

    /** The oldest delayed clear runs, as written. */
    method FireClear()
      requires Valid() && Due(State(), ClearFired)
      modifies this
      ensures Valid()
      ensures State() == ClearStep(old(State()))
    {
      StepKeepsInv(State(), ClearFired, AsWritten);
      currentConfig := None;
      clears := clears[1..];
    }

    /** The oldest delayed clear runs, guarded against a newer show. */
    method FireClearGuarded()
      requires Valid() && Due(State(), ClearFired)
      modifies this
      ensures Valid()
      ensures State() == GuardedClearStep(old(State()))
    {
      StepKeepsInv(State(), ClearFired, Guarded);
      if clears[0].epoch == epoch {
        currentConfig := None;
      }
      clears := clears[1..];
    }

    method AdvanceClock(t: int)
      requires Valid() && Due(State(), ClockAdvanced(t))
      modifies this
      ensures Valid()
      ensures State() == TickStep(old(State()), t)
    {
      StepKeepsInv(State(), ClockAdvanced(t), AsWritten);
      now := t;
    }
  }
}
