/** What a guarded run guarantees: the results an operator of the proxy relies on. */
module SleepTheorems {
  import opened Wrappers

  import opened Cluster
  import opened IdleProtocol
  import opened Identifiers
  import opened IdleInterval
  import opened SleepSafety

  /** A scale-to-zero write, however long it was delayed and whoever sent it, takes effect
      only while one pod exists, no connection is handed out, and that pod, unless its
      process restarted after it was suspended, is gated and holds no session. */
  lemma SleepFindsGatedWorker(cfg: Config, s0: State, actions: seq<Action>, s: State, m: Patch)
    requires Reaches(cfg, s0, actions, s) && m.replicas == Some(0)
    requires Effective(s, DeliverPatch(m))
    ensures m.operation in s.api.evidence
            && s.workers.pods.Keys == {s.api.evidence[m.operation].0}
            && NoOpenConnection(s)
            && (forall p | p in s.workers.pods && s.workers.pods[p].boot == s.api.evidence[m.operation].1 ::
                  s.workers.pods[p].permit.Some? && s.workers.pods[p].sessions == 0)
  {
    SafeAlways(cfg, s0, actions);
    assert LivePatch(s, m);
  }

  /** While a connection that `wake` gave a backend is open, no scale-to-zero takes effect,
      not even one left in flight by a timed-out tick or a crashed predecessor. */
  lemma OpenConnectionKeepsWorkerAwake(cfg: Config, s0: State, actions: seq<Action>, s: State, i: int, m: Patch)
    requires Reaches(cfg, s0, actions, s) && i in s.live
    requires s.live[i].open != []
    requires Effective(s, DeliverPatch(m))
    ensures m.replicas != Some(0)
  {
    SafeAlways(cfg, s0, actions);
    assert LivePatch(s, m);
  }

  /** A patch that is stale in `s` cannot be applied in any state reached from `s`. */
  lemma {:induction false} StaleForever(cfg: Config, s: State, later: seq<Action>, m: Patch)
    requires Ids(s) && m in s.api.sent && m.version < s.api.server.version && Run(cfg, s, later).Some?
    ensures var s' := Run(cfg, s, later).value;
            Ids(s') && m.version < s'.api.server.version && !CanApply(s'.api.server, m)
  {
    if later != [] {
      var before := later[..|later| - 1];
      StaleForever(cfg, s, before, m);
      IdsKept(cfg, Run(cfg, s, before).value, later[|later| - 1]);
    }
  }

  /** Whenever the live controller has its fence flag down, no patch still in flight, its own
      or a predecessor's, can be applied now or at any later time, whatever is dropped,
      crashes or is replaced afterwards. */
  lemma FenceDownMeansNothingApplies(
    cfg: Config, s0: State, actions: seq<Action>, s: State, i: int, m: Patch, later: seq<Action>)
    requires Reaches(cfg, s0, actions, s)
    requires i in s.live && !s.live[i].needsFence
    requires m in s.api.sent
    requires Run(cfg, s, later).Some?
    ensures !CanApply(s.api.server, m)
    ensures !CanApply(Run(cfg, s, later).value.api.server, m)
  {
    SafeAlways(cfg, s0, actions);
    assert Fenced(s, s.live[i]);
    StaleForever(cfg, s, later, m);
  }

  lemma HandedOutPod(cfg: Config, s: State, i: int, hint: Hint, m: Move)
    requires Safe(cfg, s) && i in s.live && ProceedStep(cfg, s, i, s.live[i], hint) == Some(m)
    requires |m.controller.open| > |s.live[i].open|
    ensures var p := m.controller.open[|m.controller.open| - 1];
            Alone(s, p) && p !in s.workers.doomed && AllStale(s.api)
  {
    assert Knows(s, s.live[i]) && Ownership.Holder(s.born, i, s.live[i]);
    assert s.live[i].at.WakeStatus? || s.live[i].at.WakeResume?;
    assert s.live[i].at.pod in s.workers.pods;
  }

  /** The pod a wake hands out is the only one, is not terminating and did not exist when any
      scale-to-zero took effect; at that moment nothing in flight can be applied. */
  lemma WakeNeverHandsOutDoomedPod(cfg: Config, s0: State, actions: seq<Action>, s: State, i: int, hint: Hint, m: Move)
    requires Reaches(cfg, s0, actions, s) && i in s.live
    requires ProceedStep(cfg, s, i, s.live[i], hint) == Some(m)
             && |m.controller.open| > |s.live[i].open|
    ensures var p := m.controller.open[|m.controller.open| - 1];
            Alone(s, p) && p !in s.workers.doomed && AllStale(s.api)
  {
    SafeAlways(cfg, s0, actions);
    HandedOutPod(cfg, s, i, hint, m);
  }

  /** A resume is sent only when nothing in flight can be applied any more, and never to a
      pod that existed when a scale-to-zero took effect. */
  lemma ResumeIsSentAfterFence(
    cfg: Config, s0: State, actions: seq<Action>, s: State, i: int, hint: Hint, m: Move, p: int, permit: int)
    requires Reaches(cfg, s0, actions, s) && i in s.live
    requires ProceedStep(cfg, s, i, s.live[i], hint) == Some(m)
    requires m.request == ResumeRequest(p, permit)
    ensures (forall x | x in s.api.sent :: !CanApply(s.api.server, x))
            && p !in s.workers.doomed
  {
    SafeAlways(cfg, s0, actions);
    MoveJustified(cfg, s, i, hint, m);
  }

  lemma MoveJustified(cfg: Config, s: State, i: int, hint: Hint, m: Move)
    requires Safe(cfg, s) && i in s.live && ProceedStep(cfg, s, i, s.live[i], hint) == Some(m)
    ensures Justified(s, m.request)
  {
    MoveIsSafe(cfg, s, i, s.live[i], Proceed(i, hint));
  }

  /** As long as it is there and its process has not restarted, a pod that existed when a
      scale-to-zero took effect is gated, holds no session, can admit none, and no resume
      that was ever sent opens it; and no replica is wanted until it is gone. */
  lemma DoomedPodStaysShut(cfg: Config, s0: State, actions: seq<Action>, s: State, p: int)
    requires Reaches(cfg, s0, actions, s)
    requires p in s.workers.doomed && p in s.workers.pods
    ensures s.api.server.replicas == 0
            && (s.workers.pods[p].boot == s.workers.doomed[p] ==>
                  && s.workers.pods[p].permit.Some? && s.workers.pods[p].sessions == 0
                  && Step(cfg, s, Admit(p)).None?
                  && (forall r | r in s.workers.resumes && r.pod == p :: ResumeDelivered(s.workers, r) == s.workers))
  {
    SafeAlways(cfg, s0, actions);
    assert Shut(s.workers, p, s.workers.doomed[p]);
  }

  /** A resume sent before a suspension closed the gate never opens that gate, however late
      it is delivered. */
  lemma OldResumeNeverOpensNewGate(
    cfg: Config, s0: State, actions: seq<Action>, s: State, request: int, renew: bool, later: seq<Action>, r: Resume)
    requires Reaches(cfg, s0, actions, s)
    requires request in s.workers.suspends && s.workers.suspends[request] in s.workers.pods
             && r in s.workers.resumes
    requires var p := s.workers.suspends[request];
             var closed := Step(cfg, s, DeliverSuspend(request, renew)).value;
             && closed.workers.pods[p].permit != s.workers.pods[p].permit
             && Run(cfg, closed, later).Some?
             && var end := Run(cfg, closed, later).value;
                p in end.workers.pods && end.workers.pods[p].permit == closed.workers.pods[p].permit && r.pod == p
    ensures var end := Run(cfg, Step(cfg, s, DeliverSuspend(request, renew)).value, later).value;
            ResumeDelivered(end.workers, r) == end.workers
  {
    SafeAlways(cfg, s0, actions);
  }

  /** A scale from zero to one takes effect only when no pod exists, not even a terminating
      one, however long the write was delayed after the pods were listed. */
  lemma WakeFindsNoPod(cfg: Config, s0: State, actions: seq<Action>, s: State, m: Patch)
    requires Reaches(cfg, s0, actions, s) && m.replicas == Some(1)
    requires Effective(s, DeliverPatch(m))
    ensures s.workers.pods == map[] && s.api.server.replicas == 0
  {
    SafeAlways(cfg, s0, actions);
    assert LivePatch(s, m);
  }

  lemma OnlyOneIsReady(s: State, p: int)
    ensures OnlyReady(s.workers.pods, p) <==> ReadyBackend(s, p)
    ensures OnlyReady(s.workers.pods, p) ==> forall q :: ReadyBackend(s, q) ==> q == p
  {
    var pods := s.workers.pods;
    if |pods| == 1 && p in pods {
      assert |pods.Keys - {p}| == 0;
    }
  }

  lemma NoneIsReady(s: State)
    ensures NoReadyBackend(s) <==> forall p :: !OnlyReady(s.workers.pods, p)
  {
    forall p ensures OnlyReady(s.workers.pods, p) <==> ReadyBackend(s, p) {
      OnlyOneIsReady(s, p);
    }
    if !NoReadyBackend(s) {
      var p :| p in s.workers.pods && Ready(s.workers.pods[p]);
      assert ReadyBackend(s, p);
    }
  }

  /** A listing of the pods leads to the status request of a pod exactly if that is the only
      one, ready and not being deleted; without such a pod the wake waits and the tick ends. */
  lemma ListingDecides(cfg: Config, s: State, i: int, c: Controller, hint: Hint)
    requires c.at.WakeList? || c.at.TickList?
    ensures var moved := ControllerMove(cfg, s, i, c, Proceed(i, hint));
            moved.Some? ==>
              var at := moved.value.controller.at;
              && moved.value.request.NoRequest?
              && (forall p :: OnlyReady(s.workers.pods, p) <==> (at.WakeStatus? || at.TickStatus?) && at.pod == p)
              && (at.WakeStatus? || at.TickStatus? || at == if c.at.WakeList? then WakeSleep(s.now + 500) else Free)
    ensures forall p :: OnlyReady(s.workers.pods, p) ==> ControllerMove(cfg, s, i, c, Proceed(i, OnlyPod(p))).Some?
    ensures (forall p :: !OnlyReady(s.workers.pods, p)) ==> ControllerMove(cfg, s, i, c, Proceed(i, NoHint)).Some?
  {
    hide OnlyReady, ReadyBackend, NoReadyBackend, FailStep, BeginWakeStep, AbortTickerStep;
    NoneIsReady(s);
    forall p ensures OnlyReady(s.workers.pods, p) <==> ReadyBackend(s, p)
             ensures OnlyReady(s.workers.pods, p) ==> forall q :: ReadyBackend(s, q) ==> q == p
    {
      OnlyOneIsReady(s, p);
    }
  }

  /** There is no other way to a status request: only a listing that shows such a pod. */
  lemma StatusFollowsListing(cfg: Config, s: State, i: int, c: Controller, a: Action)
    requires ControllerMove(cfg, s, i, c, a).Some?
    requires var at := ControllerMove(cfg, s, i, c, a).value.controller.at;
             at != c.at && (at.WakeStatus? || at.TickStatus?)
    ensures c.at.WakeList? || c.at.TickList?
    ensures OnlyReady(s.workers.pods, ControllerMove(cfg, s, i, c, a).value.controller.at.pod)
  {
    assert a.Proceed?;
    if c.at.WakeList? || c.at.TickList? {
      ListingDecides(cfg, s, i, c, a.hint);
    }
  }
}
