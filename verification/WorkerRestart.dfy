/** The one way round the gate: a worker whose process restarts by itself comes back with
    its gate open. Without restarts every sleep finds a gated, idle worker; with one, a
    session can be lost, as a concrete run shows. */
module WorkerRestart {
  import opened Wrappers

  import opened Cluster
  import opened IdleProtocol
  import opened Identifiers
  import opened SleepSafety

  // ---------- runs without restarts ----------

  ghost predicate AnswerStands(w: Workers, x: Answer) {
    x.request in w.suspends && w.suspends[x.request] in w.pods ==>
      w.pods[w.suspends[x.request]].boot == x.status.boot
  }

  ghost predicate EvidenceStands(s: State, o: int)
    requires o in s.api.evidence
  {
    s.api.evidence[o].0 in s.workers.pods ==> s.workers.pods[s.api.evidence[o].0].boot == s.api.evidence[o].1
  }

  /** Every boot on record is still the boot of its pod. */
  ghost predicate BootsStand(s: State) {
    && (forall x | x in s.workers.answers :: AnswerStands(s.workers, x))
    && (forall o | o in s.api.evidence :: EvidenceStands(s, o))
  }

  /** Short of a restart, pods keep their boot, and an answer names the boot of its pod. */
  lemma BootsKept(s: State, a: Action)
    requires !a.Restart? && EnvironmentStep(s, a).Some?
    ensures var s' := EnvironmentStep(s, a).value;
            && s'.workers.suspends == s.workers.suspends && s'.api.evidence == s.api.evidence
            && (forall p | p in s'.workers.pods :: p == s.nextId
                  || (p in s.workers.pods && s'.workers.pods[p].boot == s.workers.pods[p].boot))
            && (forall x | x in s'.workers.answers :: x in s.workers.answers || AnswerStands(s'.workers, x))
  {
    hide Ready, Doomed;
  }

  lemma BootsStandUnderEnvironment(s: State, a: Action)
    requires Ids(s) && BootsStand(s) && !a.Restart? && EnvironmentStep(s, a).Some?
    ensures BootsStand(EnvironmentStep(s, a).value)
  {
    hide EnvironmentStep;
    BootsKept(s, a);
    var s' := EnvironmentStep(s, a).value;
    forall x | x in s'.workers.answers ensures AnswerStands(s'.workers, x) {
      assert x in s.workers.answers ==> AnswerStands(s.workers, x);
    }
    forall o | o in s'.api.evidence ensures EvidenceStands(s', o) {
      assert EvidenceStands(s, o);
    }
  }

  lemma BootsStandUnderMove(cfg: Config, s: State, i: int, m: Move, a: Action)
    requires Safe(cfg, s) && BootsStand(s) && i in s.live && ControllerMove(cfg, s, i, s.live[i], a) == Some(m)
    ensures BootsStand(Commit(s, i, m))
  {
    var s' := Commit(s, i, m);
    assert Knows(s, s.live[i]);
    assert forall x | x in s.workers.answers :: AnswerStands(s.workers, x);
    forall o | o in s'.api.evidence ensures EvidenceStands(s', o) {
      if o in s.api.evidence {
        assert EvidenceStands(s, o);
      } else {
        SleepEvidence(cfg, s, i, m, a);
      }
    }
  }

  lemma SleepEvidence(cfg: Config, s: State, i: int, m: Move, a: Action)
    requires Safe(cfg, s) && BootsStand(s) && i in s.live && ControllerMove(cfg, s, i, s.live[i], a) == Some(m)
    requires m.request.SleepRequest?
    ensures m.request.pod in s.workers.pods ==> s.workers.pods[m.request.pod].boot == m.request.boot
  {
    assert Knows(s, s.live[i]) && a.Proceed? && s.live[i].at.TickSuspend?;
    var x := Answer(s.live[i].at.request, a.hint.status);
    assert x in s.workers.answers && AnswerStands(s.workers, x);
  }

  lemma {:induction false} BootsStandAlways(cfg: Config, s0: State, actions: seq<Action>)
    requires Initial(s0) && GuardedRun(cfg, s0, actions) && forall a | a in actions :: !a.Restart?
    ensures BootsStand(Run(cfg, s0, actions).value)
  {
    if actions != [] {
      var before := actions[..|actions| - 1];
      var a := actions[|actions| - 1];
      BootsStandAlways(cfg, s0, before);
      SafeAlways(cfg, s0, before);
      var s := Run(cfg, s0, before).value;
      if !IsController(a) {
        BootsStandUnderEnvironment(s, a);
      } else if !a.Start? && !Exits(s.live[a.id], a) {
        BootsStandUnderMove(cfg, s, a.id, ControllerMove(cfg, s, a.id, s.live[a.id], a).value, a);
      } else {
        assert Step(cfg, s, a).value.workers == s.workers && Step(cfg, s, a).value.api == s.api;
        assert forall o | o in s.api.evidence :: EvidenceStands(s, o);
      }
    }
  }

  /** If no worker restarts itself, a scale-to-zero takes effect only while every pod is
      gated by a permit and holds no protected session. */
  lemma SleepWithoutRestartLosesNoSession(cfg: Config, s0: State, actions: seq<Action>, s: State, m: Patch)
    requires Reaches(cfg, s0, actions, s) && m.replicas == Some(0)
    requires Effective(s, DeliverPatch(m))
    requires forall a | a in actions :: !a.Restart?
    ensures var w := s.workers;
            forall p | p in w.pods :: w.pods[p].permit.Some? && w.pods[p].sessions == 0
  {
    SafeAlways(cfg, s0, actions);
    BootsStandAlways(cfg, s0, actions);
    assert LivePatch(s, m) && EvidenceStands(s, m.operation);
  }

  /** The proviso is needed everywhere: at whatever moment a scale-to-zero can take effect,
      a restart of the suspended worker and one admission are enough for it to end a session. */
  lemma RestartCanAlwaysLoseSession(cfg: Config, s0: State, actions: seq<Action>, s: State, m: Patch)
    returns (p: int, s': State)
    requires Reaches(cfg, s0, actions, s) && m.replicas == Some(0)
    requires Effective(s, DeliverPatch(m))
    ensures p in s.workers.pods && Reaches(cfg, s0, actions + [Restart(p), Admit(p)], s')
    ensures Effective(s', DeliverPatch(m)) && p in s'.workers.pods && s'.workers.pods[p].sessions > 0
  {
    SafeAlways(cfg, s0, actions);
    assert LivePatch(s, m);
    p := s.api.evidence[m.operation].0;
    assert p in s.workers.pods;
    var restarted := Step(cfg, s, Restart(p)).value;
    Extend(cfg, s0, actions, s, Restart(p), restarted);
    s' := Step(cfg, restarted, Admit(p)).value;
    Extend(cfg, s0, actions + [Restart(p)], restarted, Admit(p), s');
    assert actions + [Restart(p)] + [Admit(p)] == actions + [Restart(p), Admit(p)];
  }

  // ---------- a run with a restart ----------

  const NOW: Config := Config(0, 0)
  const FENCE: Patch := Patch(0, 1, 10, 11, None)
  const SLEEP: Patch := Patch(0, 2, 10, 19, Some(0))
  const OWNED: Deployment := Deployment(0, 2, 10, 11, 1)
  const WORKER: Pod := Pod(2, 0, None, false, true)

  /** Controller 10, at a program point, before it has seen the worker idle. */
  function At(point: Point, fence: bool): map<int, Controller> {
    map[10 := Controller(0, fence, 0, None, point, true, [], [], 0, 0)]
  }

  /** Controller 10 after it saw the worker idle. */
  function Idling(point: Point, fence: bool): map<int, Controller> {
    map[10 := Controller(0, fence, 0, Some(Idle(1, 2, 0)), point, true, [], [SawIdle(1, 2, 0)], 0, 0)]
  }

  const S0: State := State(0, 10, Api(Deployment(0, 1, 0, 0, 1), {}, {}, map[]),
                           Workers(map[1 := WORKER], map[], {}, {}, {}, map[]), map[], map[])
  const S1: State := S0.(live := map[10 := NewController(0)], born := map[10 := 0], nextId := 11)
  const S2: State := S1.(api := S1.api.(sent := {FENCE}), live := At(FenceWait(Serve, FENCE), true), nextId := 12)
  const S3: State := S2.(api := Api(OWNED, {FENCE}, {11}, map[]))
  const S4: State := S3.(live := At(Free, false), nextId := 13)
  const S5: State := S4.(live := At(TickEntry, false), nextId := 14)
  const S6: State := S5.(live := At(TickGet, false), nextId := 15)
  const S7: State := S6.(live := At(TickList(OWNED), false), nextId := 16)
  const S8: State := S7.(live := At(TickStatus(OWNED, 1), false), nextId := 17)
  const S9: State := S8.(workers := S8.workers.(suspends := map[17 := 1]),
                         live := Idling(TickSuspend(OWNED, 1, 2, 17), false), nextId := 18)
  const S10: State := S9.(workers := S9.workers.(pods := map[1 := WORKER.(permit := Some(18))],
                                                 answers := {Answer(17, Status(2, false, Some(18)))}), nextId := 19)
  const S11: State := S10.(api := Api(OWNED, {FENCE, SLEEP}, {11}, map[19 := (1, 2)]),
                           live := Idling(TickScale(1, 18, SLEEP), true), nextId := 20)
  const S12: State := S11.(workers := S11.workers.(pods := map[1 := WORKER.(boot := 20)]), nextId := 21)
  const S13: State := S12.(workers := S12.workers.(pods := map[1 := Pod(20, 1, None, false, true)]), nextId := 22)

  /** Equality of states, collection by collection. */
  predicate Same(s: State, t: State)
    ensures Same(s, t) ==> s == t
  {
    && s.now == t.now && s.nextId == t.nextId && s.api.server == t.api.server
    && s.api.sent == t.api.sent && s.api.applied == t.api.applied && s.api.evidence == t.api.evidence
    && s.workers.pods == t.workers.pods && s.workers.suspends == t.workers.suspends
    && s.workers.answers == t.workers.answers && s.workers.resumes == t.workers.resumes
    && s.workers.honoured == t.workers.honoured && s.workers.doomed == t.workers.doomed
    && s.live == t.live && s.born == t.born
  }

  ghost predicate Hop(s: State, a: Action, t: State) {
    Guarded(s, a) && Step(NOW, s, a).Some? && Same(Step(NOW, s, a).value, t)
  }

  lemma Starts()
    ensures Hop(S0, Start, S1)
  {
  }

  lemma Fences()
    ensures Hop(S1, Proceed(10, NoHint), S2)
  {
  }

  lemma FenceLands()
    ensures Hop(S2, DeliverPatch(FENCE), S3)
  {
  }

  lemma Serves()
    ensures Hop(S3, Proceed(10, NoHint), S4)
  {
  }

  lemma Ticks()
    ensures Hop(S4, BeginTick(10), S5)
  {
  }

  lemma EntersTick()
    ensures Hop(S5, Proceed(10, NoHint), S6)
  {
  }

  lemma ReadsOne()
    ensures Hop(S6, Proceed(10, NoHint), S7)
  {
  }

  lemma FindsPod()
    ensures Hop(S7, Proceed(10, OnlyPod(1)), S8)
  {
  }

  lemma Suspends()
    ensures Hop(S8, Proceed(10, NoHint), S9)
  {
    assert [] + [SawIdle(1, 2, 0)] == [SawIdle(1, 2, 0)];
  }

  lemma GateCloses()
    ensures Hop(S9, DeliverSuspend(17, false), S10)
  {
  }

  lemma ScalesToZero()
    ensures Hop(S10, Proceed(10, Reply(Status(2, false, Some(18)))), S11)
  {
  }

  lemma WorkerRestarts()
    ensures Hop(S11, Restart(1), S12)
  {
  }

  lemma SessionArrives()
    ensures Hop(S12, Admit(1), S13)
  {
  }

  lemma Take(actions: seq<Action>, s: State, a: Action, t: State) returns (longer: seq<Action>)
    requires Reaches(NOW, S0, actions, s) && Hop(s, a, t)
    ensures Reaches(NOW, S0, longer, t)
  {
    Extend(NOW, S0, actions, s, a, t);
    longer := actions + [a];
  }

  lemma ToSuspension() returns (actions: seq<Action>)
    ensures Reaches(NOW, S0, actions, S9)
  {
    actions := [];
    assert Reaches(NOW, S0, actions, S0);
    hide Reaches, Hop;
    Starts();
    actions := Take(actions, S0, Start, S1);
    Fences();
    actions := Take(actions, S1, Proceed(10, NoHint), S2);
    FenceLands();
    actions := Take(actions, S2, DeliverPatch(FENCE), S3);
    Serves();
    actions := Take(actions, S3, Proceed(10, NoHint), S4);
    Ticks();
    actions := Take(actions, S4, BeginTick(10), S5);
    EntersTick();
    actions := Take(actions, S5, Proceed(10, NoHint), S6);
    ReadsOne();
    actions := Take(actions, S6, Proceed(10, NoHint), S7);
    FindsPod();
    actions := Take(actions, S7, Proceed(10, OnlyPod(1)), S8);
    Suspends();
    actions := Take(actions, S8, Proceed(10, NoHint), S9);
  }

  /** Such a moment can be reached: here the suspended worker restarts and admits a session before
      the delayed scale-to-zero takes effect. */
  lemma RestartLosesSession() returns (actions: seq<Action>)
    ensures Initial(S0) && GuardedRun(NOW, S0, actions) && Run(NOW, S0, actions) == Some(S13)
    ensures Effective(S13, DeliverPatch(SLEEP)) && SLEEP.replicas == Some(0)
    ensures S13.workers.pods[1].sessions == 1
  {
    actions := ToSuspension();
    hide Hop;
    GateCloses();
    actions := Take(actions, S9, DeliverSuspend(17, false), S10);
    ScalesToZero();
    actions := Take(actions, S10, Proceed(10, Reply(Status(2, false, Some(18)))), S11);
    WorkerRestarts();
    actions := Take(actions, S11, Restart(1), S12);
    SessionArrives();
    actions := Take(actions, S12, Admit(1), S13);
  }
}
