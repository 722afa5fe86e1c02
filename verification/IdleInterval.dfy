/** What each controller keeps by itself: its connection count, the unbroken idle interval
    behind every suspend request, and the bound on a wake's retries. */
module IdleInterval {
  import opened Wrappers

  import opened Cluster
  import opened IdleProtocol

  /** From entry `k` on, the history is nothing but idle observations of this pod and
      boot, the first of them made at the recorded time. */
  ghost predicate SeriesFrom(log: seq<Event>, k: int, idle: Idle) {
    && 0 <= k < |log|
    && (forall j | k <= j < |log| :: log[j].SawIdle? && log[j].pod == idle.pod && log[j].boot == idle.boot)
    && log[k].time == idle.since
  }

  ghost predicate Series(log: seq<Event>, idle: Idle) {
    exists k :: SeriesFrom(log, k, idle)
  }

  /** The count is the connections handed out plus the one being woken for. */
  predicate CountOk(c: Controller) {
    c.connections == |c.open| + (if InWake(c.at) then 1 else 0)
  }

  ghost predicate IdleOk(c: Controller) {
    c.ticking && c.idleSince.Some? ==> Series(c.log, c.idleSince.value)
  }

  /** How far the wake's clock must have advanced for its loop to be in this turn. */
  predicate TurnsOk(cfg: Config, c: Controller, now: int) {
    && 0 <= c.turns
    && (c.turns > 0 ==> RETRY_MILLIS * (c.turns - 1) < cfg.coldStart)
    && (InWake(c.at) && !c.at.WakeLoop? ==> 1 <= c.turns && c.wakeStart + RETRY_MILLIS * (c.turns - 1) <= now)
    && (c.at.WakeLoop? ==> c.wakeStart + RETRY_MILLIS * c.turns <= now)
    && (c.at.WakeSleep? ==> c.wakeStart + RETRY_MILLIS * c.turns <= c.at.until)
  }

  /** Only the idle task ticks. */
  predicate TaskOk(c: Controller) { InTick(c.at) ==> c.ticking }

  ghost predicate LocalOk(cfg: Config, s: State, c: Controller) {
    CountOk(c) && TaskOk(c) && IdleOk(c) && TurnsOk(cfg, c, s.now)
  }

  lemma SeriesExtended(log: seq<Event>, idle: Idle, time: int)
    requires Series(log, idle)
    ensures Series(log + [SawIdle(idle.pod, idle.boot, time)], idle)
  {
    var k :| SeriesFrom(log, k, idle);
    assert SeriesFrom(log + [SawIdle(idle.pod, idle.boot, time)], k, idle);
  }

  lemma SeriesStarted(log: seq<Event>, pod: int, boot: int, time: int)
    ensures Series(log + [SawIdle(pod, boot, time)], Idle(pod, boot, time))
  {
    assert SeriesFrom(log + [SawIdle(pod, boot, time)], |log|, Idle(pod, boot, time));
  }

  lemma ObservedIdleKeepsSeries(c: Controller, p: int, boot: int, now: int)
    requires IdleOk(c) && c.ticking
    ensures IdleOk(ObservedIdle(c, p, boot, now))
  {
    SeriesStarted(c.log, p, boot, now);
    if c.idleSince.Some? {
      SeriesExtended(c.log, c.idleSince.value, now);
    }
  }

  lemma WakeCounts(cfg: Config, s: State, i: int, c: Controller, hint: Hint)
    requires CountOk(c) && TaskOk(c) && InWake(c.at) && WakeStep(cfg, s, i, c, hint).Some?
    ensures var c' := WakeStep(cfg, s, i, c, hint).value.controller;
            CountOk(c') && TaskOk(c')
  {
  }

  lemma TickCounts(cfg: Config, s: State, i: int, c: Controller, hint: Hint)
    requires CountOk(c) && TaskOk(c) && TickStep(cfg, s, i, c, hint).Some?
    ensures var c' := TickStep(cfg, s, i, c, hint).value.controller;
            CountOk(c') && TaskOk(c')
  {
    match c.at
    case TickGet =>
    case TickList(_) =>
    case TickStatus(_, _) =>
    case TickSuspend(_, _, _, _) =>
    case _ =>
  }

  lemma FenceCounts(s: State, i: int, c: Controller)
    requires CountOk(c) && TaskOk(c) && FenceStep(s, i, c).Some?
    ensures var c' := FenceStep(s, i, c).value.controller;
            CountOk(c') && TaskOk(c')
  {
  }

  lemma MoveCounts(cfg: Config, s: State, i: int, c: Controller, a: Action)
    requires CountOk(c) && TaskOk(c) && ControllerMove(cfg, s, i, c, a).Some?
    ensures var c' := ControllerMove(cfg, s, i, c, a).value.controller;
            CountOk(c') && TaskOk(c')
  {
    match a
    case Proceed(_, hint) =>
      if Fencing(c.at) {
        FenceCounts(s, i, c);
      } else if InWake(c.at) {
        WakeCounts(cfg, s, i, c, hint);
      } else {
        TickCounts(cfg, s, i, c, hint);
      }
    case _ =>
  }

  lemma TickKeepsInterval(cfg: Config, s: State, i: int, c: Controller, hint: Hint)
    requires IdleOk(c) && TaskOk(c) && TickStep(cfg, s, i, c, hint).Some?
    ensures IdleOk(TickStep(cfg, s, i, c, hint).value.controller)
  {
    if c.at.TickStatus? {
      ObservedIdleKeepsSeries(c, c.at.pod, s.workers.pods[c.at.pod].boot, s.now);
    }
  }

  lemma MoveKeepsInterval(cfg: Config, s: State, i: int, c: Controller, a: Action)
    requires IdleOk(c) && TaskOk(c) && ControllerMove(cfg, s, i, c, a).Some?
    ensures IdleOk(ControllerMove(cfg, s, i, c, a).value.controller)
  {
    if a.Proceed? && !Fencing(c.at) && !InWake(c.at) {
      TickKeepsInterval(cfg, s, i, c, a.hint);
    }
  }

  lemma TickKeepsTurns(cfg: Config, s: State, i: int, c: Controller, hint: Hint)
    requires TurnsOk(cfg, c, s.now) && TickStep(cfg, s, i, c, hint).Some?
    ensures TurnsOk(cfg, TickStep(cfg, s, i, c, hint).value.controller, s.now)
  {
    match c.at
    case TickGet =>
    case TickList(_) =>
    case TickStatus(_, _) =>
    case TickSuspend(_, _, _, _) =>
    case _ =>
  }

  lemma MoveKeepsTurns(cfg: Config, s: State, i: int, c: Controller, a: Action)
    requires TurnsOk(cfg, c, s.now) && ControllerMove(cfg, s, i, c, a).Some?
    ensures TurnsOk(cfg, ControllerMove(cfg, s, i, c, a).value.controller, s.now)
  {
    if a.Proceed? && !Fencing(c.at) && !InWake(c.at) {
      TickKeepsTurns(cfg, s, i, c, a.hint);
    }
  }

  ghost predicate AllLocal(cfg: Config, s: State) {
    forall i | i in s.live :: LocalOk(cfg, s, s.live[i])
  }

  lemma AllLocalKept(cfg: Config, s: State, a: Action)
    requires AllLocal(cfg, s) && Step(cfg, s, a).Some?
    ensures AllLocal(cfg, Step(cfg, s, a).value)
  {
    var s' := Step(cfg, s, a).value;
    if IsController(a) && !a.Start? && !Exits(s.live[a.id], a) {
      MoveCounts(cfg, s, a.id, s.live[a.id], a);
      MoveKeepsInterval(cfg, s, a.id, s.live[a.id], a);
      MoveKeepsTurns(cfg, s, a.id, s.live[a.id], a);
    }
    forall i | i in s'.live ensures LocalOk(cfg, s', s'.live[i]) {
      assert i in s.live ==> LocalOk(cfg, s, s.live[i]);
    }
  }

  lemma {:induction false} LocalAlways(cfg: Config, s0: State, actions: seq<Action>)
    requires Initial(s0) && Run(cfg, s0, actions).Some?
    ensures AllLocal(cfg, Run(cfg, s0, actions).value)
  {
    if actions != [] {
      var before := actions[..|actions| - 1];
      LocalAlways(cfg, s0, before);
      AllLocalKept(cfg, Run(cfg, s0, before).value, actions[|actions| - 1]);
    }
  }

  // ---------- main results ----------

  /** In every interleaving the count equals the tasks between increment and release, so a
      release never takes it below zero and it is zero once all have ended. */
  lemma CountIsOpenConnections(cfg: Config, s0: State, actions: seq<Action>, s: State, i: int)
    requires Initial(s0) && Run(cfg, s0, actions) == Some(s) && i in s.live
    ensures var c := s.live[i];
            && c.connections == |c.open| + (if InWake(c.at) then 1 else 0)
            && (c.connections == 0 <==> c.open == [] && !InWake(c.at))
  {
    LocalAlways(cfg, s0, actions);
    assert LocalOk(cfg, s, s.live[i]);
  }

  /** A wake enters its loop at most ceil(cold_start / 500 ms) times. */
  lemma WakeTurnsAreBounded(cfg: Config, s0: State, actions: seq<Action>, s: State, i: int)
    requires Initial(s0) && 0 <= cfg.coldStart && Run(cfg, s0, actions) == Some(s)
    requires i in s.live
    ensures s.live[i].turns <= (cfg.coldStart + 499) / 500
  {
    LocalAlways(cfg, s0, actions);
    assert LocalOk(cfg, s, s.live[i]);
  }

  /** The history ends with idle observations of this pod and boot, and nothing else, for
      at least `span`. */
  ghost predicate IdleFor(log: seq<Event>, k: int, pod: int, boot: int, span: int, now: int) {
    && 0 <= k < |log|
    && (forall j | k <= j < |log| :: log[j].SawIdle? && log[j].pod == pod && log[j].boot == boot)
    && log[k].time + span <= now
  }

  /** The history records every wake, every ended connection and every tick that failed or
      was dropped, and an idle observation only when the worker was open and idle just then. */
  lemma HistoryIsHonest(cfg: Config, s: State, i: int, c: Controller, a: Action)
    requires ControllerMove(cfg, s, i, c, a).Some?
    ensures var log := ControllerMove(cfg, s, i, c, a).value.controller.log;
            && c.log <= log
            && (a.BeginWake? ==> log == c.log + [WakeStarted])
            && (a.EndConnection? ==> log == c.log + [ConnectionEnded])
            && (a.AbortTicker? && InTick(c.at) ==> log == c.log + [TickDropped])
            && (a.Fail? && InTick(c.at) && !c.at.TickScale? ==> log == c.log + [TickFailed])
            && (forall e | e in log[|c.log|..] && e.SawIdle? ::
                  && c.at == TickStatus(c.at.current, e.pod) && e.pod in s.workers.pods
                  && StatusOf(s.workers.pods[e.pod]) == Status(e.boot, false, None) && e.time == s.now)
  {
    match a
    case Proceed(_, hint) =>
      if Fencing(c.at) {
      } else if InWake(c.at) {
        hide TickStep, FailStep;
      } else {
        hide WakeStep, FailStep, FenceStep;
        match c.at
        case TickStatus(_, _) =>
        case _ =>
      }
    case Fail(_) =>
      hide TickStep, WakeStep, FenceStep;
    case _ =>
      hide TickStep, WakeStep, FenceStep, FailStep;
  }

  /** The entry of a tick that ends well: the worker was open and idle, or it was not. */
  function TickEnd(s: State, at: Point): Event {
    if at.TickStatus? && at.pod in s.workers.pods
       && s.workers.pods[at.pod].permit.None? && s.workers.pods[at.pod].sessions <= 0
    then SawIdle(at.pod, s.workers.pods[at.pod].boot, s.now)
    else NotIdle
  }

  /** However a tick ends, it leaves an entry, so nothing it saw is missing from a series: a
      tick that ends well leaves exactly `TickEnd`, which is not idle for a busy or suspended
      worker, for no ready pod, at zero replicas and with connections open. */
  lemma EveryTickIsRecorded(cfg: Config, s: State, i: int, c: Controller, a: Action)
    requires ControllerMove(cfg, s, i, c, a).Some? && InTick(c.at)
    ensures var c' := ControllerMove(cfg, s, i, c, a).value.controller;
            !InTick(c'.at) ==>
              c'.log == c.log + [if a.Proceed? then TickEnd(s, c.at) else if a.Fail? then TickFailed else TickDropped]
  {
    match a
    case Proceed(_, hint) =>
      if Fencing(c.at) {
        FenceStaysInTick(s, i, c);
      } else {
        TickIsRecorded(cfg, s, i, c, hint);
      }
    case Fail(_) =>
      hide TickStep, WakeStep, FenceStep;
    case _ =>
      hide TickStep, WakeStep, FenceStep, FailStep;
  }

  lemma FenceStaysInTick(s: State, i: int, c: Controller)
    requires FenceStep(s, i, c).Some? && InTick(c.at)
    ensures InTick(FenceStep(s, i, c).value.controller.at)
  {
  }

  lemma TickIsRecorded(cfg: Config, s: State, i: int, c: Controller, hint: Hint)
    requires TickStep(cfg, s, i, c, hint).Some?
    ensures var c' := TickStep(cfg, s, i, c, hint).value.controller;
            !InTick(c'.at) ==> c'.log == c.log + [TickEnd(s, c.at)]
  {
    match c.at
    case TickStatus(_, _) =>
    case TickList(_) =>
    case _ =>
  }

  lemma SuspendMove(cfg: Config, s: State, i: int, c: Controller, hint: Hint, pod: int)
    requires IdleOk(c) && TaskOk(c) && c.at.TickStatus?
    requires var m := TickStep(cfg, s, i, c, hint); m.Some? && m.value.request == SuspendRequest(pod)
    ensures pod in s.workers.pods
    ensures exists k :: IdleFor(TickStep(cfg, s, i, c, hint).value.controller.log, k, pod,
                                s.workers.pods[pod].boot, cfg.idleTimeout, s.now)
  {
    var boot := s.workers.pods[pod].boot;
    var c' := ObservedIdle(c, pod, boot, s.now);
    ObservedIdleKeepsSeries(c, pod, boot, s.now);
    var k :| SeriesFrom(c'.log, k, c'.idleSince.value);
    assert IdleFor(c'.log, k, pod, boot, cfg.idleTimeout, s.now);
  }

  /** A suspend request follows an unbroken series of idle ticks of the very pod and boot
      it is sent for, which began at least the idle timeout ago; no wake started, no
      connection ended and no tick failed in between. */
  lemma SuspendFollowsIdleInterval(cfg: Config, s0: State, actions: seq<Action>, s: State, i: int, hint: Hint, pod: int)
    requires Initial(s0) && Run(cfg, s0, actions) == Some(s) && i in s.live
    requires var m := ProceedStep(cfg, s, i, s.live[i], hint);
             m.Some? && m.value.request == SuspendRequest(pod)
    ensures pod in s.workers.pods
            && exists k :: IdleFor(ProceedStep(cfg, s, i, s.live[i], hint).value.controller.log, k, pod,
                                   s.workers.pods[pod].boot, cfg.idleTimeout, s.now)
  {
    LocalAlways(cfg, s0, actions);
    assert LocalOk(cfg, s, s.live[i]);
    assert s.live[i].at.TickStatus?;
    SuspendMove(cfg, s, i, s.live[i], hint, pod);
  }
}
