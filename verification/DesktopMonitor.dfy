// The launcher's watch over the desktop process: monitorDesktop and the retry
// loop around it.
module DesktopMonitor {
  import opened Options
  import SplashAnimation

  const SUCCESS := 0
  const READY_TIMEOUT := 70
  const DESKTOP_FAILED := 71
  const CANCELLED := 73
  const RETRY := -1

  type ProcessCode = n: nat | n < 0x1_0000_0000

  const SENTINEL: ProcessCode := 0xFFFF_FFFF

  // static_cast<int> of a DWORD.
  function AsInt(code: ProcessCode): int {
    if code < 0x8000_0000 then code else code - 0x1_0000_0000
  }

  datatype Milestone = DesktopReady | HandoffComplete

  // The part of SplashState that outlives one child.
  datatype Splash = Splash(window: bool, fading: bool, fadeEpoch: int, fadeComplete: bool, cancelRequested: bool)
  {
    // WM_TIMER at a time; without a window there are no messages.
    function Timer(at: Option<int>): Splash {
      if window && fading && at.Some? && SplashAnimation.FadeFrameAt(at.value - fadeEpoch).complete
      then this.(fadeComplete := true)
      else this
    }

    function Closed(clicked: bool): Splash {
      if window && clicked then this.(cancelRequested := true) else this
    }

    function ReadyAt(now: int): Splash {
      if window then this.(fading := true, fadeEpoch := now) else this.(fadeComplete := true)
    }
  }

  datatype Closing = ExitsItself | Forced | Declined

  // What one round of the loop meets: messages pumped, how a cancellation or a
  // dialog ends, timers served while a dialog is open, and the two handles.
  datatype Tick = Tick(
    now: int, later: int,
    timer: Option<int>, closeClicked: bool,
    closing: Closing, dialogTimer: Option<int>,
    readySignaled: bool, exited: Option<ProcessCode>, retryChosen: bool)

  datatype Reason =
    | UserCancelled
    | HandedOver
    | ExitedDuringFade(child: ProcessCode)
    | ExitedAfterHandoff(child: ProcessCode)
    | ExitedBeforeReady(child: ProcessCode)
    | StartupFailed(retry: bool)
    | TimedOut

  function ResultOf(r: Reason): int {
    match r
    case UserCancelled => CANCELLED
    case HandedOver => SUCCESS
    case ExitedDuringFade(code) => AsInt(code)
    case ExitedAfterHandoff(code) => AsInt(code)
    case ExitedBeforeReady(code) => AsInt(code)
    case StartupFailed(retry) => if retry then RETRY else DESKTOP_FAILED
    case TimedOut => READY_TIMEOUT
  }

  datatype LauncherOptions = LauncherOptions(readyTimeout: nat, waitForExit: bool)

  datatype Monitor = Monitor(
    splash: Splash, ready: bool, handoff: bool, observed: Option<ProcessCode>, deadline: int,
    emitted: seq<Milestone>)

  datatype Round = Goes(state: Monitor) | Returns(state: Monitor, reason: Reason)

  function Started(splash: Splash, o: LauncherOptions, now: int): Monitor {
    Monitor(splash, false, false, None, now + o.readyTimeout, [])
  }

  // ------------------------------------------------------------------ one round

  function Pumped(m: Monitor, t: Tick): Monitor {
    m.(splash := m.splash.Closed(t.closeClicked).Timer(t.timer))
  }

  // The end of requestSafeCancellation that does not end the loop.
  function Continued(m: Monitor, o: LauncherOptions, t: Tick): Monitor {
    m.(splash := m.splash.Timer(t.dialogTimer).(cancelRequested := false), deadline := t.later + o.readyTimeout)
  }

  function SawReady(m: Monitor, t: Tick): Monitor {
    if !m.ready && t.readySignaled then
      m.(ready := true, emitted := m.emitted + [DesktopReady], splash := m.splash.ReadyAt(t.now))
    else m
  }

  predicate HandsOver(m: Monitor) {
    m.ready && m.splash.fadeComplete && !m.handoff
  }

  function AfterHandoff(m: Monitor): Monitor {
    m.(handoff := true, emitted := m.emitted + [HandoffComplete])
  }

  function Waited(m: Monitor, o: LauncherOptions, t: Tick): Round {
    if m.observed == None && t.exited.Some? then
      var code := t.exited.value;
      if m.ready then
        if m.handoff then Returns(m, ExitedAfterHandoff(code)) else Goes(m.(observed := Some(code)))
      else if o.waitForExit then Returns(m, ExitedBeforeReady(code))
      else Returns(m, StartupFailed(t.retryChosen))
    else if !m.ready && t.now >= m.deadline then
      if o.waitForExit then Returns(m, TimedOut)
      else
        var shown := m.splash.Timer(t.dialogTimer);
        if t.retryChosen then Goes(m.(splash := shown, deadline := t.later + o.readyTimeout))
        else Goes(m.(splash := shown.(cancelRequested := true)))
    else Goes(m)
  }

  function HandedRound(m: Monitor, o: LauncherOptions, t: Tick): Round {
    if HandsOver(m) then
      var handed := AfterHandoff(m);
      if m.observed.Some? then Returns(handed, ExitedDuringFade(m.observed.value))
      else if !o.waitForExit then Returns(handed, HandedOver)
      else Waited(handed, o, t)
    else Waited(m, o, t)
  }

  function NextRound(m: Monitor, o: LauncherOptions, t: Tick): Round {
    var pumped := Pumped(m, t);
    if pumped.splash.cancelRequested && t.closing != Declined then Returns(pumped, UserCancelled)
    else
      var asked := if pumped.splash.cancelRequested then Continued(pumped, o, t) else pumped;
      HandedRound(SawReady(asked, t), o, t)
  }

  // The rounds up to the first that returns.
  function Watch(m: Monitor, o: LauncherOptions, ticks: seq<Tick>): Round
    decreases |ticks|
  {
    if ticks == [] then Goes(m)
    else
      var r := NextRound(m, o, ticks[0]);
      if r.Returns? then r else Watch(r.state, o, ticks[1..])
  }

  // ------------------------------------------------------------- within one run

  function Milestones(ready: bool, handoff: bool): seq<Milestone> {
    if !ready then [] else if !handoff then [DesktopReady] else [DesktopReady, HandoffComplete]
  }

  ghost predicate InOrder(m: Monitor) {
    m.emitted == Milestones(m.ready, m.handoff) && (m.handoff ==> m.ready)
  }

  // A remembered exit is one during the fade.
  ghost predicate Inv(m: Monitor) {
    InOrder(m) && (m.observed.Some? ==> m.ready && !m.handoff)
  }

  // How a run may end, given where it has got to.
  predicate Ends(m: Monitor, reason: Reason) {
    match reason
    case UserCancelled => true
    case HandedOver => m.handoff
    case ExitedDuringFade(_) => m.handoff
    case ExitedAfterHandoff(_) => m.handoff
    case _ => !m.ready
  }

  // An exit seen during the fade is the one reported.
  predicate KeepsExit(observed: Option<ProcessCode>, r: Round) {
    observed.Some? ==>
      match r
      case Goes(m) => m.observed == observed
      case Returns(_, reason) => reason == UserCancelled || reason == ExitedDuringFade(observed.value)
  }

  ghost predicate RoundFits(before: Monitor, r: Round) {
    && InOrder(r.state)
    && (before.ready ==> r.state.ready)
    && KeepsExit(before.observed, r)
    && (if r.Goes? then Inv(r.state) else Ends(r.state, r.reason))
  }

  lemma WaitedFits(m: Monitor, o: LauncherOptions, t: Tick)
    requires Inv(m) && (m.observed.Some? ==> !HandsOver(m))
    ensures RoundFits(m, Waited(m, o, t))
  {
  }

  lemma HandedFits(m: Monitor, o: LauncherOptions, t: Tick)
    requires Inv(m)
    ensures RoundFits(m, HandedRound(m, o, t))
  {
    if HandsOver(m) {
      if m.observed == None && o.waitForExit {
        WaitedFits(AfterHandoff(m), o, t);
      }
    } else {
      WaitedFits(m, o, t);
    }
  }

  lemma RoundKeepsInv(m: Monitor, o: LauncherOptions, t: Tick)
    requires Inv(m)
    ensures RoundFits(m, NextRound(m, o, t))
  {
    var pumped := Pumped(m, t);
    if !(pumped.splash.cancelRequested && t.closing != Declined) {
      var asked := if pumped.splash.cancelRequested then Continued(pumped, o, t) else pumped;
      HandedFits(SawReady(asked, t), o, t);
    }
  }

  lemma {:induction false} WatchFits(m: Monitor, o: LauncherOptions, ticks: seq<Tick>)
    requires Inv(m)
    ensures RoundFits(m, Watch(m, o, ticks))
    decreases |ticks|
  {
    if ticks != [] {
      RoundKeepsInv(m, o, ticks[0]);
      var r := NextRound(m, o, ticks[0]);
      if r.Goes? {
        WatchFits(r.state, o, ticks[1..]);
      }
    }
  }

  // desktop_ready and handoff_complete are emitted at most once each and in this
  // order, the second with a window only after the fade, and once the desktop is
  // ready a run ends only by cancellation, by the handoff or by the child's exit
  // around it.
  lemma MilestonesInOrder(splash: Splash, o: LauncherOptions, now: int, ticks: seq<Tick>)
    ensures var r := Watch(Started(splash, o, now), o, ticks);
            && r.state.emitted == Milestones(r.state.ready, r.state.handoff)
            && (r.Returns? && r.state.ready ==>
                  r.reason.UserCancelled? || (r.state.handoff
                    && (r.reason.HandedOver? || r.reason.ExitedDuringFade? || r.reason.ExitedAfterHandoff?)))
            && (HandoffComplete in r.state.emitted && Waits(splash) ==> ReadyAndFaded(ticks))
  {
    WatchFits(Started(splash, o, now), o, ticks);
    if Waits(splash) {
      HandoffWaitsForTheFade(Started(splash, o, now), o, ticks);
    }
  }

  lemma {:induction false} WatchSplits(m: Monitor, o: LauncherOptions, first: seq<Tick>, second: seq<Tick>)
    ensures Watch(m, o, first + second)
         == var r := Watch(m, o, first); if r.Returns? then r else Watch(r.state, o, second)
    decreases |first|
  {
    if first == [] {
      assert first + second == second;
    } else {
      assert (first + second)[0] == first[0] && (first + second)[1..] == first[1..] + second;
      var r := NextRound(m, o, first[0]);
      if r.Goes? {
        WatchSplits(r.state, o, first[1..], second);
      }
    }
  }

  // A child that exits during the fade: whatever follows, unless the user
  // cancels, the handoff is completed and the child's own code returned.
  lemma ExitInFadeIsHandedOn(splash: Splash, o: LauncherOptions, now: int, first: seq<Tick>, second: seq<Tick>,
                             code: ProcessCode)
    requires var r := Watch(Started(splash, o, now), o, first); r.Goes? && r.state.observed == Some(code)
    ensures var r := Watch(Started(splash, o, now), o, first + second);
            r.Returns? && r.reason != UserCancelled ==>
              r.state.emitted == [DesktopReady, HandoffComplete] && ResultOf(r.reason) == AsInt(code)
  {
    var m := Watch(Started(splash, o, now), o, first).state;
    WatchFits(Started(splash, o, now), o, first);
    WatchSplits(Started(splash, o, now), o, first, second);
    WatchFits(m, o, second);
  }

  // ----------------------------------------------------------------- the fade

  // In this round a timer message is served with the whole fade behind it.
  predicate ServedAfter(t: Tick, epoch: int) {
    || (t.timer.Some? && t.timer.value >= epoch + SplashAnimation.FADE_DURATION)
    || (t.dialogTimer.Some? && t.dialogTimer.value >= epoch + SplashAnimation.FADE_DURATION)
  }

  predicate FadesFrom(ticks: seq<Tick>, first: nat, epoch: int) {
    exists i :: first <= i < |ticks| && ServedAfter(ticks[i], epoch)
  }

  // Round i is the first to see that the desktop is ready.
  predicate FirstReady(ticks: seq<Tick>, i: nat)
    requires i < |ticks|
  {
    ticks[i].readySignaled && forall j :: 0 <= j < i ==> !ticks[j].readySignaled
  }

  predicate ReadyAndFaded(ticks: seq<Tick>) {
    exists i :: 0 <= i < |ticks| && FirstReady(ticks, i) && FadesFrom(ticks, i + 1, ticks[i].now)
  }

  predicate Fading(m: Monitor) {
    m.splash.window && m.splash.fading && m.ready && !m.handoff
  }

  // A splash window that still waits for the desktop.
  predicate Waits(splash: Splash) {
    splash.window && !splash.fading && !splash.fadeComplete
  }

  predicate Unfaded(m: Monitor) {
    Waits(m.splash) && !m.ready && !m.handoff
  }

  lemma FadingRound(m: Monitor, o: LauncherOptions, t: Tick)
    requires Fading(m)
    ensures var r := NextRound(m, o, t);
            && r.state.splash.window && r.state.splash.fading && r.state.ready
            && r.state.splash.fadeEpoch == m.splash.fadeEpoch
            && (r.state.handoff || r.state.splash.fadeComplete ==>
                  m.splash.fadeComplete || ServedAfter(t, m.splash.fadeEpoch))
  {
  }

  lemma UnfadedRound(m: Monitor, o: LauncherOptions, t: Tick)
    requires Unfaded(m)
    ensures var r := NextRound(m, o, t);
            && (r.state.ready ==> t.readySignaled && Fading(r.state) && !r.state.splash.fadeComplete
                                  && r.state.splash.fadeEpoch == t.now)
            && (!r.state.ready ==> Unfaded(r.state) && (r.Goes? ==> !t.readySignaled))
  {
  }

  lemma {:induction false} FadingWatch(m: Monitor, o: LauncherOptions, ticks: seq<Tick>)
    requires Fading(m) && !m.splash.fadeComplete
    ensures Watch(m, o, ticks).state.handoff ==> FadesFrom(ticks, 0, m.splash.fadeEpoch)
    ensures Watch(m, o, ticks).state.ready
    decreases |ticks|
  {
    if ticks != [] {
      FadingRound(m, o, ticks[0]);
      var r := NextRound(m, o, ticks[0]);
      if r.Goes? && !ServedAfter(ticks[0], m.splash.fadeEpoch) {
        FadingWatch(r.state, o, ticks[1..]);
        assert forall i :: 0 <= i < |ticks| - 1 ==> ticks[1..][i] == ticks[i + 1];
      } else if r.Goes? {
        ReadyStays(r.state, o, ticks[1..]);
      }
    }
  }

  lemma {:induction false} ReadyStays(m: Monitor, o: LauncherOptions, ticks: seq<Tick>)
    requires m.ready
    ensures Watch(m, o, ticks).state.ready
    decreases |ticks|
  {
    if ticks != [] && NextRound(m, o, ticks[0]).Goes? {
      ReadyStays(NextRound(m, o, ticks[0]).state, o, ticks[1..]);
    }
  }

  lemma FadesLater(t: Tick, ticks: seq<Tick>, first: nat, epoch: int)
    requires FadesFrom(ticks, first, epoch)
    ensures FadesFrom([t] + ticks, first + 1, epoch)
  {
    var j :| first <= j < |ticks| && ServedAfter(ticks[j], epoch);
    assert ServedAfter(([t] + ticks)[j + 1], epoch);
  }

  lemma FirstReadyLater(t: Tick, ticks: seq<Tick>, i: nat)
    requires !t.readySignaled && i < |ticks| && FirstReady(ticks, i)
    ensures FirstReady([t] + ticks, i + 1)
  {
    var all := [t] + ticks;
    assert forall j :: 1 <= j <= i + 1 ==> all[j] == ticks[j - 1];
  }

  lemma FadedLater(t: Tick, ticks: seq<Tick>)
    requires !t.readySignaled && ReadyAndFaded(ticks)
    ensures ReadyAndFaded([t] + ticks)
  {
    var i :| 0 <= i < |ticks| && FirstReady(ticks, i) && FadesFrom(ticks, i + 1, ticks[i].now);
    FirstReadyLater(t, ticks, i);
    FadesLater(t, ticks, i + 1, ticks[i].now);
    assert ([t] + ticks)[i + 1] == ticks[i];
  }

  lemma FadedHere(ticks: seq<Tick>)
    requires ticks != [] && ticks[0].readySignaled && FadesFrom(ticks[1..], 0, ticks[0].now)
    ensures ReadyAndFaded(ticks)
  {
    var j :| 0 <= j < |ticks[1..]| && ServedAfter(ticks[1..][j], ticks[0].now);
    assert ServedAfter(ticks[j + 1], ticks[0].now);
    assert FirstReady(ticks, 0);
  }

  // With a window the handoff waits for the fade: a timer has been served, in a
  // later round than the one that first saw the desktop ready, no sooner than the
  // fade takes. A desktop that never was ready leaves the splash as it was shown.
  lemma {:induction false} HandoffWaitsForTheFade(m: Monitor, o: LauncherOptions, ticks: seq<Tick>)
    requires Unfaded(m)
    ensures var r := Watch(m, o, ticks);
            && (r.state.handoff ==> ReadyAndFaded(ticks))
            && (!r.state.ready ==> Unfaded(r.state))
    decreases |ticks|
  {
    if ticks != [] {
      UnfadedRound(m, o, ticks[0]);
      var r := NextRound(m, o, ticks[0]);
      if r.Goes? && r.state.ready {
        FadingWatch(r.state, o, ticks[1..]);
        if Watch(m, o, ticks).state.handoff {
          FadedHere(ticks);
        }
      } else if r.Goes? {
        HandoffWaitsForTheFade(r.state, o, ticks[1..]);
        if Watch(m, o, ticks).state.handoff {
          FadedLater(ticks[0], ticks[1..]);
          assert [ticks[0]] + ticks[1..] == ticks;
        }
      }
    }
  }

  // ------------------------------------------------------------- the reasons

  // What the user and the clock alone decide: whether a cancellation is asked for,
  // when the desktop has to be ready, and whether it has been.
  datatype Clock = Clock(asked: bool, due: int, ready: bool)

  predicate Asks(window: bool, c: Clock, t: Tick) {
    c.asked || (window && t.closeClicked)
  }

  // A cancellation that was asked for and declined renews the time.
  function DueIn(window: bool, o: LauncherOptions, c: Clock, t: Tick): int {
    if Asks(window, c, t) then t.later + o.readyTimeout else c.due
  }

  predicate Overdue(window: bool, o: LauncherOptions, c: Clock, t: Tick) {
    !c.ready && !t.readySignaled && t.exited == None && t.now >= DueIn(window, o, c, t)
  }

  // One round that does not end the monitor. Where the launcher does not wait for
  // the desktop's exit a dialog says that it is overdue: to go on waiting renews
  // the time as well, and otherwise a cancellation is asked for.
  function Passed(window: bool, o: LauncherOptions, c: Clock, t: Tick): Clock {
    var ready := c.ready || t.readySignaled;
    if o.waitForExit || !Overdue(window, o, c, t) then Clock(false, DueIn(window, o, c, t), ready)
    else if t.retryChosen then Clock(false, t.later + o.readyTimeout, ready)
    else Clock(true, DueIn(window, o, c, t), ready)
  }

  function Elapsed(window: bool, o: LauncherOptions, c: Clock, ticks: seq<Tick>): Clock
    decreases |ticks|
  {
    if ticks == [] then c else Elapsed(window, o, Passed(window, o, c, ticks[0]), ticks[1..])
  }

  // In round k the desktop is overdue.
  predicate Late(window: bool, o: LauncherOptions, c: Clock, ticks: seq<Tick>, k: nat)
    requires k < |ticks|
  {
    Overdue(window, o, Elapsed(window, o, c, ticks[..k]), ticks[k])
  }

  // In round k the user asks to stop: by the close button, or by giving up in the
  // dialog of the round before, which showed that the desktop was overdue.
  predicate Wanted(window: bool, o: LauncherOptions, c: Clock, ticks: seq<Tick>, k: nat)
    requires k < |ticks|
  {
    || (window && ticks[k].closeClicked)
    || (if k == 0 then c.asked
        else !o.waitForExit && Late(window, o, c, ticks, k - 1) && !ticks[k - 1].retryChosen)
  }

  predicate Stopped(window: bool, o: LauncherOptions, c: Clock, ticks: seq<Tick>, k: nat)
    requires k < |ticks|
  {
    ticks[k].closing != Declined && Wanted(window, o, c, ticks, k)
  }

  ghost predicate Exits(ticks: seq<Tick>, code: ProcessCode) {
    exists i :: 0 <= i < |ticks| && ticks[i].exited == Some(code)
  }

  // What a reason claims of the rounds up to k, the last one: a child code was
  // read from the process, a time-out comes no sooner than the deadline as it then
  // is, and only where no dialog asks, and a cancellation was wanted and not
  // declined.
  ghost predicate Truthful(window: bool, o: LauncherOptions, c: Clock, ticks: seq<Tick>, k: nat, reason: Reason)
    requires k < |ticks|
  {
    match reason
    case ExitedDuringFade(code) => Exits(ticks[..k], code)
    case ExitedAfterHandoff(code) => o.waitForExit && ticks[k].exited == Some(code)
    case ExitedBeforeReady(code) => o.waitForExit && ticks[k].exited == Some(code)
    case StartupFailed(retry) => !o.waitForExit && ticks[k].exited.Some? && retry == ticks[k].retryChosen
    case HandedOver => !o.waitForExit
    case TimedOut => o.waitForExit && Late(window, o, c, ticks, k)
    case UserCancelled => Stopped(window, o, c, ticks, k)
  }

  function ClockOf(m: Monitor): Clock {
    Clock(m.splash.cancelRequested, m.deadline, m.ready)
  }

  lemma RoundKeepsTime(m: Monitor, o: LauncherOptions, t: Tick)
    requires Inv(m)
    ensures var r := NextRound(m, o, t);
            r.Goes? ==> ClockOf(r.state) == Passed(m.splash.window, o, ClockOf(m), t)
                        && r.state.splash.window == m.splash.window
  {
  }

  lemma RoundObserves(m: Monitor, o: LauncherOptions, t: Tick)
    requires Inv(m) && (m.handoff ==> o.waitForExit)
    ensures var r := NextRound(m, o, t);
            r.Goes? ==> (r.state.handoff ==> o.waitForExit)
                        && (r.state.observed == m.observed || r.state.observed == t.exited)
  {
  }

  lemma {:induction false} WatchKeepsTime(m: Monitor, o: LauncherOptions, ticks: seq<Tick>)
    requires Inv(m)
    ensures var r := Watch(m, o, ticks);
            r.Goes? ==> ClockOf(r.state) == Elapsed(m.splash.window, o, ClockOf(m), ticks)
                        && r.state.splash.window == m.splash.window
    decreases |ticks|
  {
    if ticks != [] {
      RoundKeepsInv(m, o, ticks[0]);
      RoundKeepsTime(m, o, ticks[0]);
      var r := NextRound(m, o, ticks[0]);
      if r.Goes? {
        WatchKeepsTime(r.state, o, ticks[1..]);
      }
    }
  }

  lemma {:induction false} WatchObserves(m: Monitor, o: LauncherOptions, ticks: seq<Tick>)
    requires Inv(m) && (m.handoff ==> o.waitForExit)
    ensures var r := Watch(m, o, ticks);
            r.Goes? ==> (r.state.handoff ==> o.waitForExit)
                        && (r.state.observed == m.observed
                            || (r.state.observed.Some? ==> Exits(ticks, r.state.observed.value)))
    decreases |ticks|
  {
    if ticks != [] {
      var t, r := ticks[0], NextRound(m, o, ticks[0]);
      RoundKeepsInv(m, o, t);
      RoundObserves(m, o, t);
      if r.Goes? {
        WatchObserves(r.state, o, ticks[1..]);
        assert forall i :: 0 <= i < |ticks| - 1 ==> ticks[1..][i] == ticks[i + 1];
      }
    }
  }

  // The round in which a run ends.
  lemma {:induction false} LastRound(m: Monitor, o: LauncherOptions, ticks: seq<Tick>) returns (k: nat)
    requires Watch(m, o, ticks).Returns?
    ensures k < |ticks| && Watch(m, o, ticks[..k]).Goes?
    ensures NextRound(Watch(m, o, ticks[..k]).state, o, ticks[k]) == Watch(m, o, ticks)
    decreases |ticks|
  {
    var r := NextRound(m, o, ticks[0]);
    if r.Returns? {
      k := 0;
      assert ticks[..0] == [];
    } else {
      var j := LastRound(r.state, o, ticks[1..]);
      k := j + 1;
      assert ticks[..k][0] == ticks[0] && ticks[..k][1..] == ticks[1..][..j];
    }
  }

  lemma OneMoreRound(m: Monitor, o: LauncherOptions, ticks: seq<Tick>, k: nat)
    requires k < |ticks|
    ensures var r := Watch(m, o, ticks[..k]);
            Watch(m, o, ticks[..k + 1]) == if r.Goes? then NextRound(r.state, o, ticks[k]) else r
  {
    assert ticks[..k + 1] == ticks[..k] + [ticks[k]];
    WatchSplits(m, o, ticks[..k], [ticks[k]]);
    var r := Watch(m, o, ticks[..k]);
    if r.Goes? {
      assert [ticks[k]][1..] == [];
      assert Watch(r.state, o, [ticks[k]]) == NextRound(r.state, o, ticks[k]);
    }
  }

  // A cancellation asked for when round k begins.
  lemma AskedBefore(m: Monitor, o: LauncherOptions, ticks: seq<Tick>, k: nat)
    requires Inv(m) && k < |ticks| && Watch(m, o, ticks[..k]).Goes?
    requires Watch(m, o, ticks[..k]).state.splash.cancelRequested
    ensures Wanted(m.splash.window, o, ClockOf(m), ticks, k)
  {
    if k == 0 {
      assert ticks[..0] == [];
    } else {
      OneMoreRound(m, o, ticks, k - 1);
      WatchFits(m, o, ticks[..k - 1]);
      WatchKeepsTime(m, o, ticks[..k - 1]);
      RoundKeepsTime(Watch(m, o, ticks[..k - 1]).state, o, ticks[k - 1]);
    }
  }

  lemma RoundIsTruthful(m: Monitor, o: LauncherOptions, t: Tick)
    requires Inv(m) && (m.handoff ==> o.waitForExit)
    ensures var r := NextRound(m, o, t);
            r.Returns? ==>
              match r.reason
              case ExitedDuringFade(code) => m.observed == Some(code)
              case ExitedAfterHandoff(code) => o.waitForExit && t.exited == Some(code)
              case ExitedBeforeReady(code) => o.waitForExit && t.exited == Some(code)
              case StartupFailed(retry) => !o.waitForExit && t.exited.Some? && retry == t.retryChosen
              case HandedOver => !o.waitForExit
              case TimedOut => o.waitForExit && Overdue(m.splash.window, o, ClockOf(m), t)
              case UserCancelled => t.closing != Declined && Asks(m.splash.window, ClockOf(m), t)
  {
  }

  // No run reports an exit that did not happen, a time-out before its time or a
  // cancellation nobody asked for.
  lemma ReasonsAreTruthful(splash: Splash, o: LauncherOptions, start: int, ticks: seq<Tick>) returns (k: nat)
    requires Watch(Started(splash, o, start), o, ticks).Returns?
    ensures k < |ticks| && Watch(Started(splash, o, start), o, ticks[..k]).Goes?
    ensures Watch(Started(splash, o, start), o, ticks[..k + 1]) == Watch(Started(splash, o, start), o, ticks)
    ensures Truthful(splash.window, o, Clock(splash.cancelRequested, start + o.readyTimeout, false), ticks, k,
                     Watch(Started(splash, o, start), o, ticks).reason)
  {
    var m := Started(splash, o, start);
    k := LastRound(m, o, ticks);
    var last := Watch(m, o, ticks[..k]).state;
    WatchFits(m, o, ticks[..k]);
    WatchKeepsTime(m, o, ticks[..k]);
    WatchObserves(m, o, ticks[..k]);
    RoundIsTruthful(last, o, ticks[k]);
    if last.splash.cancelRequested {
      AskedBefore(m, o, ticks, k);
    }
    OneMoreRound(m, o, ticks, k);
  }

  // --------------------------------------------------------- that a run does end

  predicate Wants(m: Monitor, t: Tick) {
    m.splash.cancelRequested || (m.splash.window && t.closeClicked)
  }

  predicate Cancels(m: Monitor, t: Tick) {
    Wants(m, t) && t.closing != Declined
  }

  predicate ReadyBy(m: Monitor, t: Tick) {
    m.ready || t.readySignaled
  }

  predicate Past(at: Option<int>, time: int) {
    at.Some? && at.value >= time
  }

  // The fade is over when this round comes to the handoff, or there is no window.
  predicate FadedBy(m: Monitor, t: Tick) {
    || m.splash.fadeComplete
    || (!m.splash.window && !m.ready && t.readySignaled)
    || (m.splash.window && m.splash.fading
        && (Past(t.timer, m.splash.fadeEpoch + 220)
            || (Wants(m, t) && Past(t.dialogTimer, m.splash.fadeEpoch + 220))))
  }

  predicate Results(r: Round, result: int) {
    r.Returns? && ResultOf(r.reason) == result
  }

  // The child's code as an int of 32 bits.
  predicate ResultsIn(r: Round, code: ProcessCode) {
    Results(r, if code <= 2147483647 then code else code - 4294967296)
  }

  lemma UnreadyRound(m: Monitor, o: LauncherOptions, t: Tick)
    requires Inv(m) && !Cancels(m, t) && !ReadyBy(m, t)
    ensures var r := NextRound(m, o, t);
            && r.state.emitted == []
            && match t.exited
               case Some(code) =>
                 if o.waitForExit then ResultsIn(r, code) else Results(r, if t.retryChosen then -1 else 71)
               case None =>
                 if o.waitForExit && Overdue(m.splash.window, o, ClockOf(m), t) then Results(r, 70) else r.Goes?
  {
  }

  lemma FadedRoundHands(m: Monitor, o: LauncherOptions, t: Tick)
    requires Inv(m) && !Cancels(m, t) && ReadyBy(m, t) && FadedBy(m, t) && !m.handoff
    ensures NextRound(m, o, t).state.emitted == [DesktopReady, HandoffComplete]
  {
  }

  lemma FadedRoundEnds(m: Monitor, o: LauncherOptions, t: Tick)
    requires Inv(m) && !Cancels(m, t) && ReadyBy(m, t) && FadedBy(m, t) && !m.handoff
    ensures var r := NextRound(m, o, t);
            if m.observed.Some? then ResultsIn(r, m.observed.value)
            else if !o.waitForExit then Results(r, 0)
            else if t.exited.Some? then ResultsIn(r, t.exited.value)
            else r.Goes?
  {
  }

  lemma FadingOn(m: Monitor, o: LauncherOptions, t: Tick)
    requires Inv(m) && !Cancels(m, t) && ReadyBy(m, t) && !FadedBy(m, t) && !m.handoff
    ensures var r := NextRound(m, o, t);
            && r.Goes? && r.state.emitted == [DesktopReady]
            && r.state.observed == if m.observed.Some? then m.observed else t.exited
  {
  }

  lemma HandedOn(m: Monitor, o: LauncherOptions, t: Tick)
    requires Inv(m) && !Cancels(m, t) && m.handoff
    ensures var r := NextRound(m, o, t);
            r.state.emitted == m.emitted && if t.exited.Some? then ResultsIn(r, t.exited.value) else r.Goes?
  {
  }

  // In numbers what a further round makes of a run that goes on: 73 for a
  // cancellation that is not declined; the handoff as soon as the desktop is
  // ready and the fade is over, with 0 where the launcher does not wait, and with
  // the child's code if that has exited meanwhile; that code also for an exit
  // after the handoff, and before readiness where the launcher waits; otherwise
  // such an exit gives 71, or -1 for a retry; 70 when the time for becoming ready
  // is over; and in no other case does it end.
  lemma RunsEndInTime(splash: Splash, o: LauncherOptions, start: int, ticks: seq<Tick>, t: Tick)
    requires Watch(Started(splash, o, start), o, ticks).Goes?
    ensures var m := Watch(Started(splash, o, start), o, ticks).state;
            var r := Watch(Started(splash, o, start), o, ticks + [t]);
            if Cancels(m, t) then Results(r, 73) && r.state.emitted == m.emitted
            else if !ReadyBy(m, t) then
              && r.state.emitted == []
              && match t.exited
                 case Some(code) =>
                   if o.waitForExit then ResultsIn(r, code) else Results(r, if t.retryChosen then -1 else 71)
                 case None =>
                   if o.waitForExit && Overdue(m.splash.window, o, ClockOf(m), t) then Results(r, 70) else r.Goes?
            else if m.handoff then
              r.state.emitted == m.emitted && if t.exited.Some? then ResultsIn(r, t.exited.value) else r.Goes?
            else if FadedBy(m, t) then
              && r.state.emitted == [DesktopReady, HandoffComplete]
              && (if m.observed.Some? then ResultsIn(r, m.observed.value)
                  else if !o.waitForExit then Results(r, 0)
                  else if t.exited.Some? then ResultsIn(r, t.exited.value)
                  else r.Goes?)
            else
              && r.Goes? && r.state.emitted == [DesktopReady]
              && r.state.observed == if m.observed.Some? then m.observed else t.exited
  {
    var first := Started(splash, o, start);
    var all := ticks + [t];
    OneMoreRound(first, o, all, |ticks|);
    assert all[..|ticks|] == ticks && all[..|ticks| + 1] == all;
    WatchFits(first, o, ticks);
    var m := Watch(first, o, ticks).state;
    if !Cancels(m, t) {
      if !ReadyBy(m, t) {
        UnreadyRound(m, o, t);
      } else if m.handoff {
        HandedOn(m, o, t);
      } else if FadedBy(m, t) {
        FadedRoundHands(m, o, t);
        FadedRoundEnds(m, o, t);
      } else {
        FadingOn(m, o, t);
      }
    }
  }

  // A timer message comes in a later round than the one that first saw the desktop
  // ready, with the whole fade behind it.
  predicate FadeServed(ticks: seq<Tick>) {
    exists i, j :: 0 <= i < j < |ticks| && FirstReady(ticks, i) && Past(ticks[j].timer, ticks[i].now + 220)
  }

  ghost predicate ServedFrom(ticks: seq<Tick>, first: nat, epoch: int) {
    exists j :: first <= j < |ticks| && Past(ticks[j].timer, epoch + 220)
  }

  lemma FadingGoesOn(m: Monitor, o: LauncherOptions, t: Tick)
    requires Inv(m) && m.splash.window && m.splash.fading && m.ready && NextRound(m, o, t).Goes?
    ensures var next := NextRound(m, o, t).state;
            && next.splash.window && next.splash.fading && next.ready
            && next.splash.fadeEpoch == m.splash.fadeEpoch
            && (m.handoff || Past(t.timer, m.splash.fadeEpoch + 220) ==> next.handoff)
  {
  }

  lemma {:induction false} FadingIsServed(m: Monitor, o: LauncherOptions, ticks: seq<Tick>)
    requires Inv(m) && m.splash.window && m.splash.fading && m.ready
    requires m.handoff || ServedFrom(ticks, 0, m.splash.fadeEpoch)
    ensures Watch(m, o, ticks).Goes? ==> Watch(m, o, ticks).state.handoff
    decreases |ticks|
  {
    if ticks != [] {
      RoundKeepsInv(m, o, ticks[0]);
      var r := NextRound(m, o, ticks[0]);
      if r.Goes? {
        FadingGoesOn(m, o, ticks[0]);
        if !r.state.handoff {
          var j :| 0 <= j < |ticks| && Past(ticks[j].timer, m.splash.fadeEpoch + 220);
          assert Past(ticks[1..][j - 1].timer, m.splash.fadeEpoch + 220);
        }
        FadingIsServed(r.state, o, ticks[1..]);
      }
    }
  }

  // A splash window that has waited hands over once such a message is served: the
  // run has then ended, or goes on behind the handoff where the launcher waits.
  lemma {:induction false} FadeIsHandedOver(m: Monitor, o: LauncherOptions, ticks: seq<Tick>)
    requires Inv(m) && Unfaded(m) && FadeServed(ticks)
    ensures Watch(m, o, ticks).Goes? ==> o.waitForExit && HandoffComplete in Watch(m, o, ticks).state.emitted
    decreases |ticks|
  {
    var i, j :| 0 <= i < j < |ticks| && FirstReady(ticks, i) && Past(ticks[j].timer, ticks[i].now + 220);
    var r := NextRound(m, o, ticks[0]);
    RoundKeepsInv(m, o, ticks[0]);
    UnfadedRound(m, o, ticks[0]);
    if r.Goes? && i == 0 {
      assert Past(ticks[1..][j - 1].timer, ticks[0].now + 220);
      ReadyBegins(m, o, ticks[0]);
      FadingIsServed(r.state, o, ticks[1..]);
    } else if r.Goes? {
      assert !ticks[0].readySignaled;
      UnreadyGoesOn(m, o, ticks[0]);
      assert FirstReady(ticks[1..], i - 1) by {
        assert forall k :: 0 <= k < |ticks| - 1 ==> ticks[1..][k] == ticks[k + 1];
      }
      assert Past(ticks[1..][j - 1].timer, ticks[1..][i - 1].now + 220);
      FadeIsHandedOver(r.state, o, ticks[1..]);
    }
    if Watch(m, o, ticks).Goes? {
      WatchFits(m, o, ticks);
      WatchObserves(m, o, ticks);
      assert Watch(m, o, ticks).state.emitted[1] == HandoffComplete;
    }
  }

  lemma ReadyBegins(m: Monitor, o: LauncherOptions, t: Tick)
    requires Inv(m) && Unfaded(m) && t.readySignaled && NextRound(m, o, t).Goes?
    ensures NextRound(m, o, t).state.ready
  {
  }

  lemma UnreadyGoesOn(m: Monitor, o: LauncherOptions, t: Tick)
    requires Inv(m) && Unfaded(m) && !t.readySignaled
    ensures !NextRound(m, o, t).state.ready
  {
  }

  // ------------------------------------------------------------- the retry loop

  datatype Attempt = NoChild(retryChosen: bool) | Child(now: int, ticks: seq<Tick>)

  datatype Status = Looping | Monitoring | Ended(result: int)

  datatype Launcher = Launcher(splash: Splash, emitted: seq<Milestone>, status: Status)

  function NextAttempt(l: Launcher, o: LauncherOptions, a: Attempt): Launcher {
    if l.status != Looping then l
    else match a
      case NoChild(retryChosen) => if retryChosen then l else l.(status := Ended(DESKTOP_FAILED))
      case Child(now, ticks) =>
        var r := Watch(Started(l.splash, o, now), o, ticks);
        var emitted := l.emitted + r.state.emitted;
        if r.Goes? then Launcher(r.state.splash, emitted, Monitoring)
        else if ResultOf(r.reason) == RETRY then
          Launcher(r.state.splash.(cancelRequested := false), emitted, Looping)
        else Launcher(r.state.splash, emitted, Ended(ResultOf(r.reason)))
  }

  function Launch(l: Launcher, o: LauncherOptions, attempts: seq<Attempt>): Launcher
    decreases |attempts|
  {
    if attempts == [] then l else Launch(NextAttempt(l, o, attempts[0]), o, attempts[1..])
  }

  // A desktop that was ready and whose own exit code reads as the retry sentinel.
  predicate SentinelExit(l: Launcher, o: LauncherOptions, a: Attempt) {
    && l.status == Looping && a.Child?
    && var r := Watch(Started(l.splash, o, a.now), o, a.ticks);
       && r.Returns?
       && (r.reason == ExitedDuringFade(SENTINEL) || r.reason == ExitedAfterHandoff(SENTINEL))
  }

  predicate AnySentinelExit(l: Launcher, o: LauncherOptions, attempts: seq<Attempt>)
    decreases |attempts|
  {
    attempts != []
    && (SentinelExit(l, o, attempts[0]) || AnySentinelExit(NextAttempt(l, o, attempts[0]), o, attempts[1..]))
  }

  // A ready desktop is started over exactly in that case.
  lemma ReadyIsRetriedOnlyBySentinel(l: Launcher, o: LauncherOptions, a: Attempt)
    requires l.status == Looping && a.Child?
    ensures var next := NextAttempt(l, o, a);
            var r := Watch(Started(l.splash, o, a.now), o, a.ticks);
            && next.emitted == l.emitted + r.state.emitted
            && r.state.emitted == Milestones(r.state.ready, r.state.handoff)
            && (next.status == Looping && r.state.emitted != [] <==> SentinelExit(l, o, a))
  {
    MilestonesInOrder(l.splash, o, a.now, a.ticks);
    WatchFits(Started(l.splash, o, a.now), o, a.ticks);
  }

  // An attempt ends the launch with the result of its run, unless that is -1, for
  // which the next is made with no cancellation pending; where no child could be
  // started the user decides between that and 71. What has ended stays so.
  lemma AttemptsEnd(l: Launcher, o: LauncherOptions, a: Attempt, attempts: seq<Attempt>)
    ensures Launch(l, o, [a] + attempts) == Launch(NextAttempt(l, o, a), o, attempts)
    ensures l.status != Looping ==> Launch(l, o, attempts) == l
    ensures l.status == Looping && a.NoChild? ==>
              NextAttempt(l, o, a) == if a.retryChosen then l else l.(status := Ended(71))
    ensures l.status == Looping && a.Child? ==>
              EndsAsItsRun(l, NextAttempt(l, o, a), Watch(Started(l.splash, o, a.now), o, a.ticks))
  {
    assert ([a] + attempts)[1..] == attempts;
    if l.status != Looping {
      EndedStays(l, o, attempts);
    }
  }

  predicate EndsAsItsRun(l: Launcher, next: Launcher, r: Round) {
    && next.emitted == l.emitted + r.state.emitted
    && (r.Goes? <==> next.status == Monitoring)
    && (Results(r, -1) <==> next.status == Looping)
    && (Results(r, -1) ==> next.splash == r.state.splash.(cancelRequested := false))
    && (r.Returns? && !Results(r, -1) ==> next.status == Ended(ResultOf(r.reason)))
  }

  // Otherwise the splash of the next attempt waits again.
  lemma SplashWaitsAgain(l: Launcher, o: LauncherOptions, a: Attempt)
    requires Waits(l.splash) && !SentinelExit(l, o, a) && NextAttempt(l, o, a).status == Looping
    ensures Waits(NextAttempt(l, o, a).splash)
  {
    if l.status == Looping && a.Child? {
      ReadyIsRetriedOnlyBySentinel(l, o, a);
      HandoffWaitsForTheFade(Started(l.splash, o, a.now), o, a.ticks);
    }
  }

  lemma {:induction false} EndedStays(l: Launcher, o: LauncherOptions, attempts: seq<Attempt>)
    requires l.status != Looping
    ensures Launch(l, o, attempts) == l && !AnySentinelExit(l, o, attempts)
    decreases |attempts|
  {
    if attempts != [] {
      EndedStays(l, o, attempts[1..]);
    }
  }

  // Over the whole launch both milestones are emitted at most once and in order,
  // unless there is such an exit.
  lemma {:induction false} LaunchInOrder(l: Launcher, o: LauncherOptions, attempts: seq<Attempt>)
    requires l.emitted == [] && l.status == Looping
    requires !AnySentinelExit(l, o, attempts)
    ensures exists ready, handoff :: Launch(l, o, attempts).emitted == Milestones(ready, handoff)
    ensures Launch(l, o, attempts).status == Looping ==> Launch(l, o, attempts).emitted == []
    decreases |attempts|
  {
    assert Milestones(false, false) == [];
    if attempts != [] {
      var a := attempts[0];
      if a.Child? {
        ReadyIsRetriedOnlyBySentinel(l, o, a);
      }
      var next := NextAttempt(l, o, a);
      if next.status == Looping {
        LaunchInOrder(next, o, attempts[1..]);
      } else {
        EndedStays(next, o, attempts[1..]);
      }
    }
  }

  // A round in which the desktop reports that it is ready, and nothing else happens.
  const READY_ROUND := Tick(0, 0, None, false, Declined, None, true, None, false)

  lemma ReadyRound(splash: Splash, o: LauncherOptions)
    requires !splash.cancelRequested
    ensures DesktopReady in Watch(Started(splash, o, 0), o, [READY_ROUND]).state.emitted
  {
    var m := Started(splash, o, 0);
    ReadyFirst(m, o, READY_ROUND);
    assert [READY_ROUND][1..] == [];
    assert Watch(m, o, [READY_ROUND]) == NextRound(m, o, READY_ROUND);
  }

  lemma ReadyFirst(m: Monitor, o: LauncherOptions, t: Tick)
    requires !m.splash.cancelRequested && !m.ready && !t.closeClicked && t.readySignaled
    ensures DesktopReady in NextRound(m, o, t).state.emitted
  {
    var seen := SawReady(Pumped(m, t), t);
    assert seen.emitted[|m.emitted|] == DesktopReady;
    assert HandsOver(seen) ==> AfterHandoff(seen).emitted[|m.emitted|] == DesktopReady;
  }

  function Count(emitted: seq<Milestone>): nat {
    if emitted == [] then 0 else Count(emitted[1..]) + (if emitted[0] == DesktopReady then 1 else 0)
  }

  lemma {:induction false} CountAdds(a: seq<Milestone>, b: seq<Milestone>)
    ensures Count(a + b) == Count(a) + Count(b)
    ensures DesktopReady in a ==> Count(a) > 0
  {
    if a == [] {
      assert a + b == b;
    } else {
      assert (a + b)[1..] == a[1..] + b;
      CountAdds(a[1..], b);
    }
  }

  // Such an exit does break them: desktop_ready is emitted again as soon as the
  // desktop started over becomes ready.
  lemma SentinelBreaksTheOrder(l: Launcher, o: LauncherOptions, a: Attempt)
    requires SentinelExit(l, o, a)
    ensures Count(Launch(l, o, [a, Child(0, [READY_ROUND])]).emitted) >= 2
  {
    var next := NextAttempt(l, o, a);
    ReadyIsRetriedOnlyBySentinel(l, o, a);
    WatchFits(Started(l.splash, o, a.now), o, a.ticks);
    var first := Watch(Started(l.splash, o, a.now), o, a.ticks).state.emitted;
    CountAdds(l.emitted, first);
    CountAdds(first, []);
    ReadyRound(next.splash, o);
    var again := Watch(Started(next.splash, o, 0), o, [READY_ROUND]).state.emitted;
    CountAdds(next.emitted, again);
    CountAdds(again, []);
    TwoAttempts(l, o, a, Child(0, [READY_ROUND]));
  }

  lemma TwoAttempts(l: Launcher, o: LauncherOptions, a: Attempt, b: Attempt)
    ensures Launch(l, o, [a, b]) == NextAttempt(NextAttempt(l, o, a), o, b)
  {
    var next := NextAttempt(l, o, a);
    assert [a, b][1..] == [b] && [b][1..] == [];
    assert Launch(l, o, [a, b]) == Launch(next, o, [b]);
    assert Launch(next, o, [b]) == Launch(NextAttempt(next, o, b), o, []);
  }

  predicate Quits(t: Tick) {
    t.exited.Some? && t.exited.value == SENTINEL
  }

  predicate NoneQuits(ticks: seq<Tick>) {
    forall i :: 0 <= i < |ticks| ==> !Quits(ticks[i])
  }

  lemma {:induction false} OtherCodesAreSafe(m: Monitor, o: LauncherOptions, ticks: seq<Tick>)
    requires m.observed != Some(SENTINEL) && NoneQuits(ticks)
    ensures var r := Watch(m, o, ticks);
            r.Returns? ==> r.reason != ExitedDuringFade(SENTINEL) && r.reason != ExitedAfterHandoff(SENTINEL)
    decreases |ticks|
  {
    if ticks != [] {
      OtherCodeThisRound(m, o, ticks[0]);
      var r := NextRound(m, o, ticks[0]);
      if r.Goes? {
        OtherCodesAreSafe(r.state, o, ticks[1..]);
      }
    }
  }

  lemma OtherCodeThisRound(m: Monitor, o: LauncherOptions, t: Tick)
    requires m.observed != Some(SENTINEL) && !Quits(t)
    ensures var r := NextRound(m, o, t);
            && r.state.observed != Some(SENTINEL)
            && (r.Returns? ==> r.reason != ExitedDuringFade(SENTINEL) && r.reason != ExitedAfterHandoff(SENTINEL))
  {
  }

  predicate ChildNeverQuits(a: Attempt) {
    a.Child? ==> NoneQuits(a.ticks)
  }

  // A launch whose children never exit with 0xFFFFFFFF has no such exit.
  lemma {:induction false} OtherCodesKeepTheOrder(l: Launcher, o: LauncherOptions, attempts: seq<Attempt>)
    requires forall i :: 0 <= i < |attempts| ==> ChildNeverQuits(attempts[i])
    ensures !AnySentinelExit(l, o, attempts)
    decreases |attempts|
  {
    if attempts != [] {
      var a := attempts[0];
      assert ChildNeverQuits(a);
      if a.Child? {
        OtherCodesAreSafe(Started(l.splash, o, a.now), o, a.ticks);
      }
      OtherCodesKeepTheOrder(NextAttempt(l, o, a), o, attempts[1..]);
    }
  }

  // ---------------------------------------------------------------- the object

  class SplashState {
    const window: bool
    var fading: bool
    var fadeEpoch: int
    var fadeComplete: bool
    var cancelRequested: bool

    ghost function Value(): Splash
      reads this
    {
      Splash(window, fading, fadeEpoch, fadeComplete, cancelRequested)
    }

    constructor (shown: bool)
      ensures window == shown && Value() == Splash(shown, false, 0, false, false)
    {
      window := shown;
      fading, fadeEpoch, fadeComplete, cancelRequested := false, 0, false, false;
    }

    method OnTimer(at: Option<int>)
      modifies `fadeComplete
      ensures Value() == old(Value()).Timer(at)
      ensures fadeComplete
           == (old(fadeComplete)
               || (window && fading && at.Some? && at.value >= fadeEpoch + SplashAnimation.FADE_DURATION))
    {
      if window && fading && at.Some? && SplashAnimation.FadeFrameAt(at.value - fadeEpoch).complete {
        fadeComplete := true;
      }
    }

    method OnClose(clicked: bool)
      modifies `cancelRequested
      ensures Value() == old(Value()).Closed(clicked)
    {
      if window && clicked {
        cancelRequested := true;
      }
    }

    method BeginFade(now: int)
      modifies `fading, `fadeEpoch, `fadeComplete
      ensures Value() == old(Value()).ReadyAt(now)
    {
      if window {
        fading := true;
        fadeEpoch := now;
      } else {
        fadeComplete := true;
      }
    }
  }

  // The variables of one run of the monitor.
  class Watcher {
    const splash: SplashState
    const options: LauncherOptions
    var ready: bool
    var handoff: bool
    var observed: Option<ProcessCode>
    var deadline: int
    var emitted: seq<Milestone>

    ghost function Value(): Monitor
      reads this, splash
    {
      Monitor(splash.Value(), ready, handoff, observed, deadline, emitted)
    }

    constructor (s: SplashState, o: LauncherOptions, now: int)
      ensures splash == s && options == o
      ensures Value() == Started(s.Value(), o, now)
    {
      splash, options := s, o;
      ready, handoff, observed, deadline, emitted := false, false, None, now + o.readyTimeout, [];
    }

    // False if the user cancels.
    method PumpAndAsk(t: Tick) returns (goes: bool)
      modifies splash, `deadline
      ensures var pumped := Pumped(old(Value()), t);
              && goes == !(pumped.splash.cancelRequested && t.closing != Declined)
              && Value() == if goes && pumped.splash.cancelRequested then Continued(pumped, options, t) else pumped
    {
      splash.OnClose(t.closeClicked);
      splash.OnTimer(t.timer);
      if !splash.cancelRequested {
        return true;
      }
      if t.closing != Declined {
        return false;
      }
      splash.OnTimer(t.dialogTimer);
      splash.cancelRequested := false;
      deadline := t.later + options.readyTimeout;
      return true;
    }

    method SeeReady(t: Tick)
      modifies splash, `ready, `emitted
      ensures Value() == SawReady(old(Value()), t)
    {
      if !ready && t.readySignaled {
        ready := true;
        emitted := emitted + [DesktopReady];
        splash.BeginFade(t.now);
      }
    }

    method WaitForChild(t: Tick) returns (reason: Option<Reason>)
      modifies splash, `observed, `deadline
      ensures var r := Waited(old(Value()), options, t);
              r.state == Value() && reason == if r.Returns? then Some(r.reason) else None
    {
      if observed == None && t.exited.Some? {
        var code := t.exited.value;
        if ready {
          if handoff {
            return Some(ExitedAfterHandoff(code));
          }
          observed := Some(code);
          return None;
        }
        return Some(if options.waitForExit then ExitedBeforeReady(code) else StartupFailed(t.retryChosen));
      }
      if !ready && t.now >= deadline {
        if options.waitForExit {
          return Some(TimedOut);
        }
        splash.OnTimer(t.dialogTimer);
        if t.retryChosen {
          deadline := t.later + options.readyTimeout;
        } else {
          splash.cancelRequested := true;
        }
      }
      return None;
    }

    method Round(t: Tick) returns (reason: Option<Reason>)
      modifies this, splash
      ensures var r := NextRound(old(Value()), options, t);
              r.state == Value() && reason == if r.Returns? then Some(r.reason) else None
    {
      var goes := PumpAndAsk(t);
      if !goes {
        return Some(UserCancelled);
      }
      SeeReady(t);
      if ready && splash.fadeComplete && !handoff {
        handoff := true;
        emitted := emitted + [HandoffComplete];
        if observed.Some? {
          return Some(ExitedDuringFade(observed.value));
        }
        if !options.waitForExit {
          return Some(HandedOver);
        }
      }
      reason := WaitForChild(t);
    }

    method MonitorDesktop(ticks: seq<Tick>) returns (reason: Option<Reason>)
      modifies this, splash
      ensures var r := Watch(old(Value()), options, ticks);
              r.state == Value() && reason == if r.Returns? then Some(r.reason) else None
    {
      var i := 0;
      assert ticks[0..] == ticks;
      while i < |ticks|
        invariant 0 <= i <= |ticks|
        invariant Watch(Value(), options, ticks[i..]) == Watch(old(Value()), options, ticks)
      {
        assert ticks[i..][0] == ticks[i] && ticks[i..][1..] == ticks[i + 1..];
        reason := Round(ticks[i]);
        if reason.Some? {
          return reason;
        }
        i := i + 1;
      }
      return None;
    }
  }
}
