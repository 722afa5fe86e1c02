/** Facts about identifiers and versions that every step keeps, whoever takes it. */
module Identifiers {
  import opened Wrappers

  import opened Cluster
  import opened IdleProtocol

  // ---------- the API server ----------

  /** A patch that took effect is stale, and so is one whose operation is on the server. */
  ghost predicate PatchOk(api: Api, m: Patch, id: int) {
    && m.operation < id
    && m.version <= api.server.version
    && (m.operation == api.server.operation || m.operation in api.applied ==> m.version < api.server.version)
  }

  ghost predicate ApiIds(api: Api, id: int) {
    && api.server.operation < id
    && (forall m | m in api.sent :: PatchOk(api, m, id))
    && (forall m, m' | m in api.sent && m' in api.sent && m.operation == m'.operation :: m == m')
    && (forall o | o in api.applied :: o < id)
    && (forall o | o in api.evidence :: o < id && api.evidence[o].0 < id && api.evidence[o].1 < id)
  }

  /** Versions never go back, and a version stands for one content of the Deployment. */
  ghost predicate ApiGrows(api: Api, api': Api) {
    && api.server.version <= api'.server.version
    && (api.server.version == api'.server.version ==> api.server == api'.server)
    && api.sent <= api'.sent
    && api.applied <= api'.applied
  }

  // ---------- the workers ----------

  ghost predicate StatusOk(st: Status, id: int) {
    st.boot < id && (st.permit.Some? ==> st.permit.value < id && !st.busy)
  }

  ghost predicate PodsOk(pods: map<int, Pod>, id: int) {
    forall p | p in pods :: PodOk(pods[p], p, id)
  }

  ghost predicate RequestsOk(w: Workers, id: int) {
    && (forall r | r in w.resumes :: r.permit < r.horizon <= id)
    && (forall r | r in w.suspends :: r < id && w.suspends[r] < id)
    && (forall x | x in w.answers :: x.request in w.suspends && StatusOk(x.status, id))
    && (forall p | p in w.doomed :: p < id && w.doomed[p] < id)
  }

  // ---------- controllers ----------

  function Captured(at: Point): Option<Deployment> {
    match at
    case WakeEmpty(current) => Some(current)
    case TickList(current) => Some(current)
    case TickStatus(current, _) => Some(current)
    case TickSuspend(current, _, _, _) => Some(current)
    case _ => None
  }

  function Awaited(at: Point): Option<Patch> {
    match at
    case FenceWait(_, m) => Some(m)
    case WakeScale(m) => Some(m)
    case TickScale(_, _, m) => Some(m)
    case _ => None
  }

  function HeldPermit(at: Point): Option<int> {
    match at
    case FenceGet(Rollback(_, permit)) => Some(permit)
    case FenceWait(Rollback(_, permit), _) => Some(permit)
    case TickScale(_, permit, _) => Some(permit)
    case TickObserve(_, permit) => Some(permit)
    case _ => None
  }

  /** What a program point remembers came from the system, and a Deployment read earlier
      is still the current one unless the version has moved on. */
  ghost predicate PointOk(api: Api, at: Point, id: int) {
    && (Captured(at).Some? ==>
          && Captured(at).value.version <= api.server.version
          && (Captured(at).value.version == api.server.version ==> Captured(at).value == api.server))
    && (Awaited(at).Some? ==> Awaited(at).value in api.sent)
    && (HeldPermit(at).Some? ==> HeldPermit(at).value < id)
    && (at.TickSuspend? ==> at.request < id && at.pod < id)
  }

  ghost predicate ControllersOk(s: State) {
    && (forall i | i in s.live :: i < s.nextId && PointOk(s.api, s.live[i].at, s.nextId))
    && (forall i | i in s.born :: i < s.nextId)
  }

  ghost predicate Ids(s: State) {
    && ApiIds(s.api, s.nextId)
    && PodsOk(s.workers.pods, s.nextId)
    && RequestsOk(s.workers, s.nextId)
    && ControllersOk(s)
  }

  ghost predicate Grows(s: State, s': State) {
    s.nextId <= s'.nextId && s.now <= s'.now && ApiGrows(s.api, s'.api)
  }

  // ---------- frames ----------

  lemma LaterIds(s: State, id: int)
    requires Ids(s) && s.nextId <= id
    ensures ApiIds(s.api, id) && PodsOk(s.workers.pods, id) && RequestsOk(s.workers, id)
  {
    assert forall m | m in s.api.sent :: PatchOk(s.api, m, s.nextId) && PatchOk(s.api, m, id);
    assert forall p | p in s.workers.pods :: PodOk(s.workers.pods[p], p, s.nextId);
  }

  lemma ControllersKept(s: State, s': State)
    requires ControllersOk(s) && Grows(s, s') && s'.live == s.live && s'.born == s.born
    ensures ControllersOk(s')
  {
    forall i | i in s.live ensures PointOk(s'.api, s'.live[i].at, s'.nextId) {
      assert PointOk(s.api, s.live[i].at, s.nextId);
    }
  }

  // ---------- the environment ----------

  lemma ApiIdsUnderDelivery(s: State, m: Patch)
    requires Ids(s) && m in s.api.sent
    ensures ApiIds(PatchDelivered(s, m).api, s.nextId) && ApiGrows(s.api, PatchDelivered(s, m).api)
  {
    var api' := PatchDelivered(s, m).api;
    assert PatchOk(s.api, m, s.nextId);
    forall m' | m' in s.api.sent ensures PatchOk(api', m', s.nextId) {
      assert PatchOk(s.api, m', s.nextId);
    }
  }

  lemma ApiIdsUnderServerStep(s: State, a: Action)
    requires Ids(s) && ServerStep(s, a).Some?
    ensures var api' := s.api.(server := ServerStep(s, a).value);
            ApiIds(api', s.nextId + 1) && ApiGrows(s.api, api')
  {
    var api' := s.api.(server := ServerStep(s, a).value);
    forall m | m in s.api.sent ensures PatchOk(api', m, s.nextId + 1) {
      assert PatchOk(s.api, m, s.nextId);
    }
  }

  lemma WorkersOkUnderPodStep(s: State, a: Action)
    requires Ids(s) && PodStep(s, a).Some?
    ensures PodsOk(PodStep(s, a).value.pods, s.nextId + 1) && RequestsOk(PodStep(s, a).value, s.nextId + 1)
  {
    var w' := PodStep(s, a).value;
    forall p | p in w'.pods ensures PodOk(w'.pods[p], p, s.nextId + 1) {
      assert p in s.workers.pods ==> PodOk(s.workers.pods[p], p, s.nextId);
    }
  }

  lemma WorkersOkUnderRequest(s: State, a: Action)
    requires Ids(s) && RequestStep(s, a).Some?
    ensures PodsOk(RequestStep(s, a).value.pods, s.nextId + 1) && RequestsOk(RequestStep(s, a).value, s.nextId + 1)
  {
    var w' := RequestStep(s, a).value;
    forall p | p in w'.pods ensures PodOk(w'.pods[p], p, s.nextId + 1) {
      assert p in s.workers.pods ==> PodOk(s.workers.pods[p], p, s.nextId);
    }
  }

  lemma DoomedAreKnown(s: State, m: Patch)
    requires Ids(s) && m in s.api.sent
    ensures RequestsOk(PatchDelivered(s, m).workers, s.nextId)
  {
    assert forall p | p in s.workers.pods :: PodOk(s.workers.pods[p], p, s.nextId);
  }

  lemma IdsKeptByEnvironment(s: State, a: Action)
    requires Ids(s) && EnvironmentStep(s, a).Some?
    ensures Grows(s, EnvironmentStep(s, a).value) && Ids(EnvironmentStep(s, a).value)
  {
    hide Doomed, SuspendDelivered, ResumeDelivered, CanApply;
    var s' := EnvironmentStep(s, a).value;
    LaterIds(s, s'.nextId);
    if a.DeliverPatch? {
      ApiIdsUnderDelivery(s, a.patch);
      DoomedAreKnown(s, a.patch);
    } else if ServerStep(s, a).Some? {
      ApiIdsUnderServerStep(s, a);
    } else if RequestStep(s, a).Some? {
      WorkersOkUnderRequest(s, a);
    } else if PodStep(s, a).Some? {
      WorkersOkUnderPodStep(s, a);
    }
    ControllersKept(s, s');
  }

  // ---------- controllers ----------

  /** Every request a controller sends is new, and names only what the system issued. */
  ghost predicate MoveOk(s: State, i: int, m: Move) {
    && (match m.request
        case PatchRequest(p) => p.operation == s.nextId && p.owner == i && p.version <= s.api.server.version
        case SleepRequest(p, pod, boot) =>
          && p.operation == s.nextId && p.owner == i && p.version <= s.api.server.version
          && pod < s.nextId && boot < s.nextId
        case SuspendRequest(p) => p < s.nextId
        case ResumeRequest(_, permit) => permit < s.nextId
        case _ => true)
    && PointOk(ApiAfter(s.api, m.request), m.controller.at, s.nextId + 1)
  }

  lemma CommitKeepsApi(s: State, i: int, m: Move)
    requires Ids(s) && MoveOk(s, i, m)
    ensures ApiIds(ApiAfter(s.api, m.request), s.nextId + 1) && ApiGrows(s.api, ApiAfter(s.api, m.request))
  {
    var api' := ApiAfter(s.api, m.request);
    forall p | p in api'.sent ensures PatchOk(api', p, s.nextId + 1) {
      assert p in s.api.sent ==> PatchOk(s.api, p, s.nextId);
    }
    assert forall p | p in s.api.sent :: PatchOk(s.api, p, s.nextId);
  }

  lemma CommitKeepsIds(s: State, i: int, m: Move)
    requires Ids(s) && i in s.live && MoveOk(s, i, m)
    ensures Grows(s, Commit(s, i, m)) && Ids(Commit(s, i, m))
  {
    var s' := Commit(s, i, m);
    LaterIds(s, s'.nextId);
    CommitKeepsApi(s, i, m);
    assert RequestsOk(s'.workers, s'.nextId);
    forall j | j in s'.live ensures PointOk(s'.api, s'.live[j].at, s'.nextId) {
      assert j != i ==> PointOk(s.api, s.live[j].at, s.nextId);
    }
  }

  lemma FenceOk(s: State, i: int)
    requires Ids(s) && i in s.live && FenceStep(s, i, s.live[i]).Some?
    ensures MoveOk(s, i, FenceStep(s, i, s.live[i]).value)
  {
    assert PointOk(s.api, s.live[i].at, s.nextId);
  }

  lemma WakeOk(cfg: Config, s: State, i: int, hint: Hint)
    requires Ids(s) && i in s.live && WakeStep(cfg, s, i, s.live[i], hint).Some?
    ensures MoveOk(s, i, WakeStep(cfg, s, i, s.live[i], hint).value)
  {
    var c := s.live[i];
    assert PointOk(s.api, c.at, s.nextId);
    assert c.at.WakeStatus? ==> PodOk(s.workers.pods[c.at.pod], c.at.pod, s.nextId);
  }

  lemma TickOk(cfg: Config, s: State, i: int, hint: Hint)
    requires Ids(s) && i in s.live && TickStep(cfg, s, i, s.live[i], hint).Some?
    ensures MoveOk(s, i, TickStep(cfg, s, i, s.live[i], hint).value)
  {
    hide FenceStep, WakeStep, ReadyBackend, NoReadyBackend, IdleFrom;
    var c := s.live[i];
    assert PointOk(s.api, c.at, s.nextId);
    match c.at
    case TickStatus(_, p) => assert PodOk(s.workers.pods[p], p, s.nextId);
    case TickSuspend(_, _, _, _) => assert StatusOk(hint.status, s.nextId);
    case TickObserve(_, _) =>
    case _ =>
  }

  lemma MovesOk(cfg: Config, s: State, i: int, a: Action)
    requires Ids(s) && i in s.live && ControllerMove(cfg, s, i, s.live[i], a).Some?
    ensures MoveOk(s, i, ControllerMove(cfg, s, i, s.live[i], a).value)
  {
    var c := s.live[i];
    if a.Proceed? {
      if Fencing(c.at) {
        FenceOk(s, i);
      } else if InWake(c.at) {
        WakeOk(cfg, s, i, a.hint);
      } else {
        TickOk(cfg, s, i, a.hint);
      }
    } else {
      assert PointOk(s.api, c.at, s.nextId);
    }
  }

  lemma IdsKept(cfg: Config, s: State, a: Action)
    requires Ids(s) && Step(cfg, s, a).Some?
    ensures Grows(s, Step(cfg, s, a).value) && Ids(Step(cfg, s, a).value)
  {
    var s' := Step(cfg, s, a).value;
    if !IsController(a) {
      IdsKeptByEnvironment(s, a);
    } else if a.Start? || Exits(s.live[a.id], a) {
      LaterIds(s, s'.nextId);
      forall j | j in s'.live ensures PointOk(s'.api, s'.live[j].at, s'.nextId) {
        assert j in s.live ==> PointOk(s.api, s.live[j].at, s.nextId);
      }
    } else {
      MovesOk(cfg, s, a.id, a);
      CommitKeepsIds(s, a.id, ControllerMove(cfg, s, a.id, s.live[a.id], a).value);
    }
  }

  lemma InitialIds(s: State)
    requires Initial(s)
    ensures Ids(s)
  {
  }
}
