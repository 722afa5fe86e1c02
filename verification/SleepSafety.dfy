/** One controller at a time, and no administrator: the safety of automatic sleep. */
module SleepSafety {
  import opened Wrappers

  import opened Cluster
  import opened IdleProtocol
  import opened Identifiers
  import opened Ownership
  import opened IdleInterval

  // ---------- the invariant ----------

  ghost predicate AllStale(api: Api) {
    forall m | m in api.sent :: m.version < api.server.version
  }

  /** No resume ever sent to this pod names its current permit. */
  ghost predicate NoKey(w: Workers, p: int) {
    p in w.pods ==> forall r | r in w.resumes && r.pod == p :: w.pods[p].permit != Some(r.permit)
  }

  /** Unless its process restarted, the pod is gated for good and holds no session. */
  ghost predicate Shut(w: Workers, p: int, boot: int) {
    p in w.pods && w.pods[p].boot == boot ==>
      w.pods[p].permit.Some? && w.pods[p].sessions == 0 && NoKey(w, p)
  }

  ghost predicate NoOpenConnection(s: State) {
    forall i | i in s.live :: s.live[i].open == []
  }

  /** There is exactly one pod, and it will stay while the replica count is one. */
  predicate Alone(s: State, p: int) {
    s.api.server.replicas == 1 && s.workers.pods.Keys == {p} && !s.workers.pods[p].terminating
  }

  /** What a scale-to-zero write that can still take effect would find. */
  ghost predicate SleepReady(s: State, m: Patch) {
    && m.operation in s.api.evidence
    && Alone(s, s.api.evidence[m.operation].0)
    && Shut(s.workers, s.api.evidence[m.operation].0, s.api.evidence[m.operation].1)
    && NoOpenConnection(s)
  }

  /** What a scale-to-one write that can still take effect would find. */
  ghost predicate WakeReady(s: State) {
    s.workers.pods == map[] && s.api.server.replicas == 0
  }

  ghost predicate LivePatch(s: State, m: Patch) {
    m.version == s.api.server.version && m.replicas.Some? ==>
      if m.replicas == Some(0) then SleepReady(s, m) else m.replicas == Some(1) && WakeReady(s)
  }

  ghost predicate DoomedOk(s: State) {
    forall p | p in s.workers.doomed && p in s.workers.pods ::
      s.api.server.replicas == 0 && Shut(s.workers, p, s.workers.doomed[p])
  }

  /** What the fence flag is for: while it is down, nothing in flight can be applied. */
  ghost predicate Fenced(s: State, c: Controller) {
    && (!c.needsFence ==> AllStale(s.api))
    && match c.at
       case FenceWait(_, m) => forall m' | m' in s.api.sent :: m'.version <= m.version
       case WakeScale(m) => forall m' | m' in s.api.sent && m' != m :: m'.version < s.api.server.version
       case TickScale(_, _, m) =>
         m.replicas == Some(0) && forall m' | m' in s.api.sent && m' != m :: m'.version < s.api.server.version
       case _ => true
  }

  /** The pod that a failed sleep may have to resume. */
  function RollbackPod(at: Point): Option<int> {
    match at
    case FenceGet(Rollback(p, _)) => Some(p)
    case FenceWait(Rollback(p, _), _) => Some(p)
    case TickScale(p, _, _) => Some(p)
    case TickObserve(p, _) => Some(p)
    case _ => None
  }

  /** A pod that may be resumed by a rollback has not been put to sleep while the count is one. */
  ghost predicate RollbackOk(s: State, at: Point) {
    RollbackPod(at).Some? ==>
      && (RollbackPod(at).value in s.workers.doomed ==> s.api.server.replicas == 0)
      && (forall m | m in s.api.sent && m.version == s.api.server.version :: m.replicas != Some(1))
  }

  /** The answers to this suspend request are proof that the pod is shut. */
  ghost predicate Answered(w: Workers, p: int, request: int) {
    && (request in w.suspends ==> w.suspends[request] == p)
    && NoKey(w, p)
    && (forall x | x in w.answers && x.request == request && x.status.permit.Some? :: Shut(w, p, x.status.boot))
  }

  /** What the controller knows at each of its program points. */
  ghost predicate ViewOk(s: State, c: Controller) {
    match c.at
    case WakeEmpty(current) => current.replicas == 0
    case WakeList => s.api.server.replicas == 1
    case WakeStatus(p) => Alone(s, p)
    case WakeResume(p, _) => Alone(s, p)
    case TickGet => c.open == []
    case TickList(current) => c.open == [] && s.api.server.replicas == 1
    case TickStatus(_, p) => c.open == [] && Alone(s, p)
    case TickSuspend(_, p, _, r) => c.open == [] && Alone(s, p) && Answered(s.workers, p, r)
    case _ => true
  }

  ghost predicate Safe(cfg: Config, s: State) {
    && Ids(s) && Owned(s) && AllLocal(cfg, s)
    && (forall i, j | i in s.live && j in s.live :: i == j)
    && (forall m | m in s.api.sent :: LivePatch(s, m))
    && DoomedOk(s)
    && (forall i | i in s.live :: Fenced(s, s.live[i]) && RollbackOk(s, s.live[i].at) && ViewOk(s, s.live[i]))
  }

  lemma InitialIsSafe(cfg: Config, s: State)
    requires Initial(s)
    ensures Safe(cfg, s)
  {
  }

  // ---------- the environment ----------

  lemma ShutUnderPodStep(s: State, a: Action, p: int, boot: int)
    requires Ids(s) && PodStep(s, a).Some? && Shut(s.workers, p, boot) && boot < s.nextId && p < s.nextId
    ensures Shut(PodStep(s, a).value, p, boot)
  {
  }

  lemma ShutUnderRequest(s: State, a: Action, p: int, boot: int)
    requires Ids(s) && RequestStep(s, a).Some? && Shut(s.workers, p, boot)
    ensures Shut(RequestStep(s, a).value, p, boot)
  {
  }

  lemma NoKeyUnderPodStep(s: State, a: Action, p: int)
    requires Ids(s) && PodStep(s, a).Some? && NoKey(s.workers, p)
    ensures NoKey(PodStep(s, a).value, p)
  {
  }

  lemma NoKeyUnderRequest(s: State, a: Action, p: int)
    requires Ids(s) && RequestStep(s, a).Some? && NoKey(s.workers, p)
    ensures NoKey(RequestStep(s, a).value, p)
  {
  }

  lemma AnsweredUnderPodStep(s: State, a: Action, p: int, r: int)
    requires Ids(s) && PodStep(s, a).Some? && Answered(s.workers, p, r) && p in s.workers.pods
    ensures Answered(PodStep(s, a).value, p, r)
  {
    NoKeyUnderPodStep(s, a, p);
    var w' := PodStep(s, a).value;
    assert PodOk(s.workers.pods[p], p, s.nextId);
    forall x | x in w'.answers && x.request == r && x.status.permit.Some? ensures Shut(w', p, x.status.boot) {
      ShutUnderPodStep(s, a, p, x.status.boot);
    }
  }

  lemma AnsweredUnderRequest(s: State, a: Action, p: int, r: int)
    requires Ids(s) && RequestStep(s, a).Some? && Answered(s.workers, p, r) && p in s.workers.pods
    ensures Answered(RequestStep(s, a).value, p, r)
  {
    NoKeyUnderRequest(s, a, p);
    var w' := RequestStep(s, a).value;
    assert PodOk(s.workers.pods[p], p, s.nextId);
    forall x | x in w'.answers && x.request == r && x.status.permit.Some? ensures Shut(w', p, x.status.boot) {
      if x in s.workers.answers {
        ShutUnderRequest(s, a, p, x.status.boot);
      }
    }
  }

  /** What the pods and requests do, apart from writes to the Deployment. */
  ghost predicate WorkersMove(s: State, a: Action, s': State) {
    && !IsExternal(a) && !IsController(a)
    && (PodStep(s, a).Some? || RequestStep(s, a).Some?)
    && EnvironmentStep(s, a) == Some(s')
  }

  lemma ShutKept(s: State, a: Action, s': State, p: int, boot: int)
    requires Ids(s) && WorkersMove(s, a, s') && Shut(s.workers, p, boot) && boot < s.nextId && p < s.nextId
    ensures Shut(s'.workers, p, boot)
  {
    if PodStep(s, a).Some? {
      ShutUnderPodStep(s, a, p, boot);
    } else {
      ShutUnderRequest(s, a, p, boot);
    }
  }

  lemma AloneKept(s: State, a: Action, s': State, p: int)
    requires WorkersMove(s, a, s') && Alone(s, p)
    ensures Alone(s', p)
  {
    if PodStep(s, a).Some? {
      assert p in s.workers.pods;
    }
  }

  lemma LivePatchKeptByWorkers(s: State, a: Action, s': State, m: Patch)
    requires Ids(s) && WorkersMove(s, a, s') && m in s.api.sent && LivePatch(s, m)
    ensures LivePatch(s', m)
  {
    if m.version == s.api.server.version && m.replicas == Some(0) {
      var (p, boot) := s.api.evidence[m.operation];
      AloneKept(s, a, s', p);
      assert PodOk(s.workers.pods[p], p, s.nextId);
      ShutKept(s, a, s', p, boot);
    }
  }

  lemma DoomedKeptByWorkers(s: State, a: Action, s': State)
    requires Ids(s) && WorkersMove(s, a, s') && DoomedOk(s)
    ensures DoomedOk(s')
  {
    forall p | p in s'.workers.doomed && p in s'.workers.pods
      ensures s'.api.server.replicas == 0 && Shut(s'.workers, p, s'.workers.doomed[p])
    {
      ShutKept(s, a, s', p, s.workers.doomed[p]);
    }
  }

  lemma ViewKeptByWorkers(s: State, a: Action, s': State, c: Controller)
    requires Ids(s) && WorkersMove(s, a, s') && ViewOk(s, c)
    ensures ViewOk(s', c)
  {
    match c.at
    case WakeStatus(p) => AloneKept(s, a, s', p);
    case WakeResume(p, _) => AloneKept(s, a, s', p);
    case TickStatus(_, p) => AloneKept(s, a, s', p);
    case TickSuspend(_, p, _, r) =>
      AloneKept(s, a, s', p);
      if PodStep(s, a).Some? {
        AnsweredUnderPodStep(s, a, p, r);
      } else {
        AnsweredUnderRequest(s, a, p, r);
      }
    case _ =>
  }

  lemma SafeKeptByWorkers(cfg: Config, s: State, a: Action, s': State)
    requires Safe(cfg, s) && WorkersMove(s, a, s') && Ids(s') && Owned(s') && AllLocal(cfg, s')
    ensures Safe(cfg, s')
  {
    DoomedKeptByWorkers(s, a, s');
    forall m | m in s'.api.sent ensures LivePatch(s', m) {
      LivePatchKeptByWorkers(s, a, s', m);
    }
    forall i | i in s'.live
      ensures Fenced(s', s'.live[i]) && RollbackOk(s', s'.live[i].at) && ViewOk(s', s'.live[i])
    {
      assert Fenced(s, s.live[i]) && RollbackOk(s, s.live[i].at);
      ViewKeptByWorkers(s, a, s', s.live[i]);
    }
  }

  // ---------- writes to the Deployment ----------

  /** Whatever is applied, everything in flight is stale afterwards. */
  lemma AppliedMakesStale(s: State, m: Patch)
    requires Ids(s) && m in s.api.sent && CanApply(s.api.server, m)
    ensures AllStale(PatchDelivered(s, m).api)
  {
    assert PatchOk(s.api, m, s.nextId);
    assert forall m' | m' in s.api.sent :: PatchOk(s.api, m', s.nextId);
  }

  lemma DoomedKeptByDelivery(cfg: Config, s: State, m: Patch)
    requires Safe(cfg, s) && m in s.api.sent && CanApply(s.api.server, m)
    ensures DoomedOk(PatchDelivered(s, m))
  {
    var s' := PatchDelivered(s, m);
    assert LivePatch(s, m);
    forall p | p in s'.workers.doomed && p in s'.workers.pods
      ensures s'.api.server.replicas == 0 && Shut(s'.workers, p, s'.workers.doomed[p])
    {
      if m.replicas == Some(0) {
        assert p == s.api.evidence[m.operation].0;
        assert Shut(s.workers, p, s.api.evidence[m.operation].1);
      }
    }
  }

  lemma ControllerKeptByDelivery(cfg: Config, s: State, m: Patch, i: int)
    requires Safe(cfg, s) && m in s.api.sent && CanApply(s.api.server, m) && i in s.live
    ensures var s' := PatchDelivered(s, m);
            Fenced(s', s.live[i]) && RollbackOk(s', s.live[i].at) && ViewOk(s', s.live[i])
  {
    var c := s.live[i];
    AppliedMakesStale(s, m);
    assert LivePatch(s, m) && Fenced(s, c) && RollbackOk(s, c.at) && ViewOk(s, c) && Holder(s.born, i, c);
    assert c.needsFence;
  }

  lemma SafeKeptByDelivery(cfg: Config, s: State, m: Patch)
    requires Safe(cfg, s) && m in s.api.sent && CanApply(s.api.server, m)
    requires var s' := PatchDelivered(s, m); Ids(s') && Owned(s') && AllLocal(cfg, s')
    ensures Safe(cfg, PatchDelivered(s, m))
  {
    AppliedMakesStale(s, m);
    DoomedKeptByDelivery(cfg, s, m);
    forall i | i in s.live
      ensures var s' := PatchDelivered(s, m);
              Fenced(s', s.live[i]) && RollbackOk(s', s.live[i].at) && ViewOk(s', s.live[i])
    {
      ControllerKeptByDelivery(cfg, s, m, i);
    }
  }

  lemma SafeKeptByBump(cfg: Config, s: State, k: nat, s': State)
    requires Safe(cfg, s) && EnvironmentStep(s, Bump(k)) == Some(s')
    requires Ids(s') && Owned(s') && AllLocal(cfg, s')
    ensures Safe(cfg, s')
  {
    forall m | m in s'.api.sent ensures LivePatch(s', m) {
      assert LivePatch(s, m) && PatchOk(s.api, m, s.nextId);
    }
    forall i | i in s'.live
      ensures Fenced(s', s'.live[i]) && RollbackOk(s', s'.live[i].at) && ViewOk(s', s'.live[i])
    {
      assert Fenced(s, s.live[i]) && RollbackOk(s, s.live[i].at) && ViewOk(s, s.live[i]);
      assert forall m | m in s.api.sent :: PatchOk(s.api, m, s.nextId);
    }
  }

  // ---------- the controller ----------

  /** What the state must be like for a controller to send this request. */
  ghost predicate Justified(s: State, r: Request) {
    match r
    case PatchRequest(m) =>
      m.replicas.Some? ==> m.replicas == Some(1) && (m.version == s.api.server.version ==> WakeReady(s))
    case SleepRequest(m, p, boot) =>
      m.replicas == Some(0) && Alone(s, p) && Shut(s.workers, p, boot) && NoOpenConnection(s)
    case ResumeRequest(p, _) => AllStale(s.api) && p !in s.workers.doomed
    case _ => true
  }

  /** A connection is handed out only while nothing in flight can be applied. */
  ghost predicate OpensSafely(s: State, c: Controller, m: Move) {
    c.open == [] && m.controller.open != [] ==> AllStale(s.api) && m.request == NoRequest
  }

  lemma FenceJustified(s: State, i: int, c: Controller)
    requires FenceStep(s, i, c).Some?
    ensures Justified(s, FenceStep(s, i, c).value.request)
    ensures OpensSafely(s, c, FenceStep(s, i, c).value)
  {
  }

  lemma WakeJustified(cfg: Config, s: State, i: int, c: Controller, hint: Hint)
    requires Fenced(s, c) && ViewOk(s, c) && FlagOk(c) && PointOk(s.api, c.at, s.nextId) && DoomedOk(s)
    requires InWake(c.at) && !Fencing(c.at) && WakeStep(cfg, s, i, c, hint).Some?
    ensures Justified(s, WakeStep(cfg, s, i, c, hint).value.request)
    ensures OpensSafely(s, c, WakeStep(cfg, s, i, c, hint).value)
  {
    assert c.at.WakeStatus? ==> c.at.pod in s.workers.pods;
  }

  lemma TickJustified(cfg: Config, s: State, i: int, c: Controller, hint: Hint)
    requires Fenced(s, c) && ViewOk(s, c) && FlagOk(c) && RollbackOk(s, c.at) && DoomedOk(s)
    requires s.live == map[i := c] && TickStep(cfg, s, i, c, hint).Some?
    ensures Justified(s, TickStep(cfg, s, i, c, hint).value.request)
    ensures OpensSafely(s, c, TickStep(cfg, s, i, c, hint).value)
  {
    match c.at
    case TickStatus(_, p) => assert p in s.workers.pods;
    case TickSuspend(_, p, boot, request) =>
      if Answer(request, hint.status) in s.workers.answers {
        assert hint.status.permit.Some? ==> Shut(s.workers, p, hint.status.boot);
      }
    case _ =>
  }

  lemma OnlyPodIsAlone(s: State, p: int)
    requires ReadyBackend(s, p) && s.api.server.replicas == 1
    ensures Alone(s, p)
  {
    var keys := s.workers.pods.Keys;
    assert |keys| == 1 && p in keys;
    assert |keys - {p}| == 0;
  }

  /** The controller's facts after its move, in the state that includes its request. */
  ghost predicate Knows(s': State, c': Controller) {
    Fenced(s', c') && RollbackOk(s', c'.at) && ViewOk(s', c')
  }

  lemma FenceKnows(cfg: Config, s: State, i: int, c: Controller)
    requires Safe(cfg, s) && i in s.live && c == s.live[i] && Fencing(c.at) && FenceStep(s, i, c).Some?
    ensures var m := FenceStep(s, i, c).value; Knows(Commit(s, i, m), m.controller)
  {
    assert Knows(s, c) && CountOk(c) && PointOk(s.api, c.at, s.nextId);
    assert forall m | m in s.api.sent :: PatchOk(s.api, m, s.nextId);
    if c.at.FenceWait? {
      assert PatchOk(s.api, c.at.patch, s.nextId);
    }
  }

  lemma WakeEmptyKnows(cfg: Config, s: State, i: int, c: Controller, hint: Hint)
    requires Safe(cfg, s) && i in s.live && c == s.live[i]
    requires c.at.WakeEmpty? && WakeStep(cfg, s, i, c, hint).Some?
    ensures var m := WakeStep(cfg, s, i, c, hint).value; Knows(Commit(s, i, m), m.controller)
  {
    assert Knows(s, c) && FlagOk(c);
  }

  lemma WakeKnows(cfg: Config, s: State, i: int, c: Controller, hint: Hint)
    requires Safe(cfg, s) && i in s.live && c == s.live[i]
    requires InWake(c.at) && !Fencing(c.at) && WakeStep(cfg, s, i, c, hint).Some?
    ensures var m := WakeStep(cfg, s, i, c, hint).value; Knows(Commit(s, i, m), m.controller)
  {
    if c.at.WakeEmpty? {
      WakeEmptyKnows(cfg, s, i, c, hint);
    } else {
      hide Shut, NoKey, Answered, PatchOf, SleepReady;
      assert Knows(s, c) && FlagOk(c);
      if c.at.WakeScale? {
        assert PatchOk(s.api, c.at.patch, s.nextId);
      } else if c.at.WakeList? && hint.OnlyPod? && ReadyBackend(s, hint.pod) {
        OnlyPodIsAlone(s, hint.pod);
      }
    }
  }

  lemma TickStatusKnows(cfg: Config, s: State, i: int, c: Controller, hint: Hint)
    requires Safe(cfg, s) && i in s.live && c == s.live[i]
    requires c.at.TickStatus? && TickStep(cfg, s, i, c, hint).Some?
    ensures var m := TickStep(cfg, s, i, c, hint).value; Knows(Commit(s, i, m), m.controller)
  {
    assert Knows(s, c) && FlagOk(c);
  }

  lemma TickSuspendKnows(cfg: Config, s: State, i: int, c: Controller, hint: Hint)
    requires Safe(cfg, s) && i in s.live && c == s.live[i]
    requires c.at.TickSuspend? && TickStep(cfg, s, i, c, hint).Some?
    ensures var m := TickStep(cfg, s, i, c, hint).value; Knows(Commit(s, i, m), m.controller)
  {
    assert Knows(s, c) && FlagOk(c);
  }

  lemma TickKnows(cfg: Config, s: State, i: int, c: Controller, hint: Hint)
    requires Safe(cfg, s) && i in s.live && c == s.live[i]
    requires !Fencing(c.at) && !InWake(c.at) && TickStep(cfg, s, i, c, hint).Some?
    ensures var m := TickStep(cfg, s, i, c, hint).value; Knows(Commit(s, i, m), m.controller)
  {
    if c.at.TickStatus? {
      TickStatusKnows(cfg, s, i, c, hint);
    } else if c.at.TickSuspend? {
      TickSuspendKnows(cfg, s, i, c, hint);
    } else {
      hide Shut, NoKey, Answered, PatchOf, SleepReady;
      assert Knows(s, c) && FlagOk(c);
      if c.at.TickScale? {
        assert PatchOk(s.api, c.at.patch, s.nextId);
      } else if c.at.TickList? && hint.OnlyPod? && ReadyBackend(s, hint.pod) {
        OnlyPodIsAlone(s, hint.pod);
      }
    }
  }

  lemma OtherMovesKnow(cfg: Config, s: State, i: int, c: Controller, a: Action)
    requires Safe(cfg, s) && i in s.live && c == s.live[i] && !a.Proceed?
    requires ControllerMove(cfg, s, i, c, a).Some?
    ensures var m := ControllerMove(cfg, s, i, c, a).value; Knows(Commit(s, i, m), m.controller)
    ensures var m := ControllerMove(cfg, s, i, c, a).value; m.request == NoRequest && OpensSafely(s, c, m)
  {
    assert Knows(s, c) && CountOk(c) && FlagOk(c);
  }

  lemma OnlyController(cfg: Config, s: State, i: int)
    requires Safe(cfg, s) && i in s.live
    ensures s.live == map[i := s.live[i]] && s.live.Keys == {i}
  {
    assert forall j | j in s.live :: j == i;
  }

  lemma MoveIsSafe(cfg: Config, s: State, i: int, c: Controller, a: Action)
    requires Safe(cfg, s) && i in s.live && c == s.live[i] && ControllerMove(cfg, s, i, c, a).Some?
    ensures var m := ControllerMove(cfg, s, i, c, a).value;
            Justified(s, m.request) && OpensSafely(s, c, m) && Knows(Commit(s, i, m), m.controller)
  {
    assert Knows(s, c) && FlagOk(c) && PointOk(s.api, c.at, s.nextId);
    OnlyController(cfg, s, i);
    if !a.Proceed? {
      OtherMovesKnow(cfg, s, i, c, a);
    } else if Fencing(c.at) {
      FenceJustified(s, i, c);
      FenceKnows(cfg, s, i, c);
    } else if InWake(c.at) {
      WakeJustified(cfg, s, i, c, a.hint);
      WakeKnows(cfg, s, i, c, a.hint);
    } else {
      TickJustified(cfg, s, i, c, a.hint);
      TickKnows(cfg, s, i, c, a.hint);
    }
  }

  lemma LivePatchKeptByMove(cfg: Config, s: State, i: int, m: Move, p: Patch)
    requires Safe(cfg, s) && s.live.Keys == {i} && MoveOk(s, i, m) && Justified(s, m.request)
    requires OpensSafely(s, s.live[i], m)
    requires p in Commit(s, i, m).api.sent
    ensures LivePatch(Commit(s, i, m), p)
  {
    var s' := Commit(s, i, m);
    if p in s.api.sent {
      assert LivePatch(s, p) && PatchOk(s.api, p, s.nextId);
      assert p.operation in s.api.evidence ==> s'.api.evidence[p.operation] == s.api.evidence[p.operation];
    } else if m.request.SleepRequest? && p.version == s.api.server.version {
      assert s.live[i].open == [];
      assert p.operation == s.nextId;
      assert m.controller.open == [];
    }
  }

  lemma DoomedKeptByMove(s: State, i: int, m: Move)
    requires DoomedOk(s) && Justified(s, m.request)
    ensures DoomedOk(Commit(s, i, m))
  {
    var s' := Commit(s, i, m);
    forall p | p in s'.workers.doomed && p in s'.workers.pods
      ensures s'.api.server.replicas == 0 && Shut(s'.workers, p, s'.workers.doomed[p])
    {
      assert Shut(s.workers, p, s.workers.doomed[p]);
    }
  }

  lemma SafeKeptByController(cfg: Config, s: State, a: Action)
    requires Safe(cfg, s) && IsController(a) && Guarded(s, a) && ControllerStep(cfg, s, a).Some?
    requires var s' := ControllerStep(cfg, s, a).value; Ids(s') && Owned(s') && AllLocal(cfg, s')
    ensures Safe(cfg, ControllerStep(cfg, s, a).value)
  {
    var s' := ControllerStep(cfg, s, a).value;
    if a.Start? || Exits(s.live[a.id], a) {
      forall m | m in s'.api.sent ensures LivePatch(s', m) {
        assert LivePatch(s, m);
      }
    } else {
      var i := a.id;
      var m := ControllerMove(cfg, s, i, s.live[i], a).value;
      MoveIsSafe(cfg, s, i, s.live[i], a);
      MovesOk(cfg, s, i, a);
      DoomedKeptByMove(s, i, m);
      OnlyController(cfg, s, i);
      forall p | p in s'.api.sent ensures LivePatch(s', p) {
        LivePatchKeptByMove(cfg, s, i, m, p);
      }
    }
  }

  lemma SafeKept(cfg: Config, s: State, a: Action)
    requires Safe(cfg, s) && Guarded(s, a) && Step(cfg, s, a).Some?
    ensures Safe(cfg, Step(cfg, s, a).value)
  {
    IdsKept(cfg, s, a);
    OwnedKept(cfg, s, a);
    AllLocalKept(cfg, s, a);
    var s' := Step(cfg, s, a).value;
    if IsController(a) {
      SafeKeptByController(cfg, s, a);
    } else if Effective(s, a) {
      SafeKeptByDelivery(cfg, s, a.patch);
    } else if a.Bump? {
      SafeKeptByBump(cfg, s, a.versions, s');
    } else if a.Clock? || a.DeliverPatch? {
      ClockChangesNothing(cfg, s, s');
    } else {
      SafeKeptByWorkers(cfg, s, a, s');
    }
  }

  lemma ClockChangesNothing(cfg: Config, s: State, s': State)
    requires Safe(cfg, s) && s' == s.(now := s'.now) && AllLocal(cfg, s')
    ensures Safe(cfg, s')
  {
    assert forall m | m in s.api.sent :: LivePatch(s, m) ==> LivePatch(s', m);
    assert forall i | i in s.live :: Knows(s, s.live[i]) ==> Knows(s', s'.live[i]);
    assert forall i | i in s.live :: Holder(s.born, i, s.live[i]);
    assert forall m | m in s.api.sent :: Signed(s.api, s.born, m);
    assert forall i | i in s.live :: PointOk(s.api, s.live[i].at, s.nextId);
  }

  lemma {:induction false} SafeAlways(cfg: Config, s0: State, actions: seq<Action>)
    requires Initial(s0) && GuardedRun(cfg, s0, actions)
    ensures Safe(cfg, Run(cfg, s0, actions).value)
  {
    if actions == [] {
      InitialIsSafe(cfg, s0);
    } else {
      var before := actions[..|actions| - 1];
      SafeAlways(cfg, s0, before);
      SafeKept(cfg, Run(cfg, s0, before).value, actions[|actions| - 1]);
    }
  }
}
