/** The gate of a pod that a connection was given: a suspend request from before, still in
    flight, can close it again, and nothing else can. */
module HandedOutGate {
  import opened Wrappers

  import opened Cluster
  import opened IdleProtocol
  import opened Identifiers
  import opened SleepSafety

  /** Some suspend request, delivered or not, was sent to this pod. */
  ghost predicate SuspendSent(w: Workers, p: int) {
    exists r :: r in w.suspends && w.suspends[r] == p
  }

  predicate GateOpen(w: Workers, p: int) {
    p in w.pods ==> w.pods[p].permit.None?
  }

  /** Controller `i` lives and has handed the pod to a connection that is still open. */
  predicate Holds(s: State, i: int, p: int) {
    i in s.live && p in s.live[i].open
  }

  /** The connection stays open all the way. */
  ghost predicate KeepsConnection(cfg: Config, s: State, later: seq<Action>, i: int, p: int) {
    forall k | 0 <= k <= |later| ::
      Run(cfg, s, later[..k]).Some? && Holds(Run(cfg, s, later[..k]).value, i, p)
  }

  lemma PodStepClosesNoGate(s: State, a: Action, p: int)
    requires PodStep(s, a).Some? && GateOpen(s.workers, p)
    ensures GateOpen(PodStep(s, a).value, p) && PodStep(s, a).value.suspends == s.workers.suspends
  {
  }

  lemma RequestStepClosesNoGate(s: State, a: Action, p: int)
    requires RequestStep(s, a).Some? && GateOpen(s.workers, p) && !SuspendSent(s.workers, p)
    ensures GateOpen(RequestStep(s, a).value, p) && RequestStep(s, a).value.suspends == s.workers.suspends
  {
  }

  /** While a connection is open, its controller sends no suspend request. */
  lemma NoSuspendWhileOpen(cfg: Config, s: State, i: int, c: Controller, a: Action)
    requires ViewOk(s, c) && c.open != [] && ControllerMove(cfg, s, i, c, a).Some?
    ensures !ControllerMove(cfg, s, i, c, a).value.request.SuspendRequest?
  {
  }

  lemma StepKeepsOpen(cfg: Config, s: State, a: Action, i: int, p: int)
    requires Safe(cfg, s) && Guarded(s, a) && Step(cfg, s, a).Some? && Holds(s, i, p)
    requires GateOpen(s.workers, p) && !SuspendSent(s.workers, p)
    ensures var w := Step(cfg, s, a).value.workers; GateOpen(w, p) && !SuspendSent(w, p)
  {
    var w := Step(cfg, s, a).value.workers;
    if IsController(a) {
      if !a.Start? && !Exits(s.live[a.id], a) {
        OnlyController(cfg, s, i);
        assert Knows(s, s.live[i]);
        NoSuspendWhileOpen(cfg, s, i, s.live[i], a);
        hide ControllerMove, ViewOk;
        assert w.suspends == s.workers.suspends && w.pods == s.workers.pods;
      }
    } else if a.DeliverSuspend? || a.DeliverResume? {
      RequestStepClosesNoGate(s, a, p);
    } else if !a.Clock? && !a.DeliverPatch? && !a.Bump? {
      PodStepClosesNoGate(s, a, p);
    }
  }

  lemma {:induction false} StaysOpen(cfg: Config, s: State, later: seq<Action>, i: int, p: int)
    requires Safe(cfg, s) && GuardedRun(cfg, s, later) && KeepsConnection(cfg, s, later, i, p)
    requires GateOpen(s.workers, p) && !SuspendSent(s.workers, p)
    ensures var end := Run(cfg, s, later).value;
            Safe(cfg, end) && GateOpen(end.workers, p) && !SuspendSent(end.workers, p)
  {
    if later != [] {
      var before, a := later[..|later| - 1], later[|later| - 1];
      assert forall k | 0 <= k <= |before| :: before[..k] == later[..k];
      hide Safe, GateOpen, SuspendSent;
      StaysOpen(cfg, s, before, i, p);
      assert before == later[..|before|];
      SafeKept(cfg, Run(cfg, s, before).value, a);
      StepKeepsOpen(cfg, Run(cfg, s, before).value, a, i, p);
    }
  }

  lemma KeptOneMore(cfg: Config, s: State, later: seq<Action>, a: Action, i: int, p: int)
    requires GuardedRun(cfg, s, later) && KeepsConnection(cfg, s, later, i, p)
    requires var end := Run(cfg, s, later).value;
             Guarded(end, a) && Step(cfg, end, a).Some? && Holds(Step(cfg, end, a).value, i, p)
    ensures GuardedRun(cfg, s, later + [a]) && KeepsConnection(cfg, s, later + [a], i, p)
    ensures Run(cfg, s, later + [a]) == Step(cfg, Run(cfg, s, later).value, a)
  {
    hide Step, Guarded, Holds;
    assert (later + [a])[..|later|] == later;
    forall k | 0 <= k <= |later + [a]|
      ensures Run(cfg, s, (later + [a])[..k]).Some? && Holds(Run(cfg, s, (later + [a])[..k]).value, i, p)
    {
      assert (later + [a])[..k] == if k <= |later| then later[..k] else later + [a];
    }
  }

  /** The sessions of a pod may end one after the other. */
  lemma {:induction false} SessionsEnd(cfg: Config, s: State, i: int, p: int, n: nat) returns (later: seq<Action>, s': State)
    requires Holds(s, i, p) && p in s.workers.pods && n <= s.workers.pods[p].sessions
    ensures GuardedRun(cfg, s, later) && KeepsConnection(cfg, s, later, i, p) && Run(cfg, s, later) == Some(s')
    ensures p in s'.workers.pods && s'.workers.pods[p] == s.workers.pods[p].(sessions := s.workers.pods[p].sessions - n)
    ensures s'.workers.suspends == s.workers.suspends && s'.live == s.live
  {
    if n == 0 {
      later, s' := [], s;
    } else {
      var before, t := SessionsEnd(cfg, s, i, p, n - 1);
      later, s' := before + [Leave(p)], Step(cfg, t, Leave(p)).value;
      KeptOneMore(cfg, s, before, Leave(p), i, p);
    }
  }

  /** A suspend request that was sent may arrive once the pod's sessions have ended. */
  lemma CanClose(cfg: Config, s: State, i: int, p: int) returns (later: seq<Action>)
    requires Safe(cfg, s) && Holds(s, i, p) && p in s.workers.pods && SuspendSent(s.workers, p)
    ensures GuardedRun(cfg, s, later) && KeepsConnection(cfg, s, later, i, p)
    ensures !GateOpen(Run(cfg, s, later).value.workers, p)
  {
    var r :| r in s.workers.suspends && s.workers.suspends[r] == p;
    assert PodOk(s.workers.pods[p], p, s.nextId);
    var before, t := SessionsEnd(cfg, s, i, p, s.workers.pods[p].sessions);
    later := before + [DeliverSuspend(r, false)];
    KeptOneMore(cfg, s, before, DeliverSuspend(r, false), i, p);
  }

  /** The gate of a pod that an open connection was given stays open, however the run goes on
      while the connection lasts, if and only if no suspend request was ever sent to it: the
      request of a tick that timed out may still arrive. */
  lemma GateStaysOpenExactly(cfg: Config, s0: State, actions: seq<Action>, s: State, i: int, p: int)
    requires Reaches(cfg, s0, actions, s) && Holds(s, i, p)
    requires p in s.workers.pods && GateOpen(s.workers, p)
    ensures (forall later | GuardedRun(cfg, s, later) && KeepsConnection(cfg, s, later, i, p) ::
               GateOpen(Run(cfg, s, later).value.workers, p))
            <==> !SuspendSent(s.workers, p)
  {
    SafeAlways(cfg, s0, actions);
    hide Safe, GateOpen, KeepsConnection, GuardedRun, SuspendSent;
    if SuspendSent(s.workers, p) {
      var later := CanClose(cfg, s, i, p);
    } else {
      forall later | GuardedRun(cfg, s, later) && KeepsConnection(cfg, s, later, i, p)
        ensures GateOpen(Run(cfg, s, later).value.workers, p)
      {
        StaysOpen(cfg, s, later, i, p);
      }
    }
  }
}
