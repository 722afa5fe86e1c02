/** The idle-proxy protocol as a state machine. Every `await` of the controller is a
    program point, so that the environment can act, and the controller can fail, be
    dropped or crash, between any two of its requests. Requests are never removed from
    the network: one that is never delivered was lost, one delivered late was delayed,
    and one may even be delivered twice. An answer is read at the moment it arrives. */
module IdleProtocol {
  import opened Wrappers

  import opened Cluster

  const RETRY_MILLIS: int := 500

  datatype Config = Config(idleTimeout: int, coldStart: int)

  /** What the fence that is under way was called for. */
  datatype Purpose = Serve | Waking | Ticking | Rollback(pod: int, permit: int)

  /** Where the controller's one running operation is: at an `await`, or at the head of
      the wake loop or of an idle tick. */
  datatype Point =
    | Free
    | FenceGet(purpose: Purpose)
    | FenceWait(purpose: Purpose, patch: Patch)
    | WakeLoop
    | WakeGet
    | WakeEmpty(current: Deployment)
    | WakeScale(patch: Patch)
    | WakeList
    | WakeStatus(pod: int)
    | WakeResume(pod: int, permit: int)
    | WakeSleep(until: int)
    | TickEntry
    | TickGet
    | TickList(current: Deployment)
    | TickStatus(current: Deployment, pod: int)
    | TickSuspend(current: Deployment, pod: int, boot: int, request: int)
    | TickScale(pod: int, permit: int, patch: Patch)
    | TickObserve(pod: int, permit: int)
    | TickResume(permit: int)

  datatype Idle = Idle(pod: int, boot: int, since: int)

  /** History of one controller, written down for the idle-interval theorem. */
  datatype Event =
    | SawIdle(pod: int, boot: int, time: int)
    | NotIdle
    | TickFailed
    | TickDropped
    | WakeStarted
    | ConnectionEnded

  /** A live controller: the fields of the program, then its program point, whether its
      idle task still runs, the open connections with the pod each was given, its
      history, and when the current wake began and how often its loop was entered. */
  datatype Controller = Controller(
    uid: int, needsFence: bool, connections: int, idleSince: Option<Idle>,
    at: Point, ticking: bool, open: seq<int>, log: seq<Event>,
    wakeStart: int, turns: int)

  /** A suspend request's answer. */
  datatype Answer = Answer(request: int, status: Status)

  /** A resume request, and the bound below which all permits of that moment lie. */
  datatype Resume = Resume(pod: int, permit: int, horizon: int)

  /** The API server and every patch ever sent to it, with the operations that took
      effect. `evidence` is history: the suspended pod and boot behind each
      scale-to-zero write. */
  datatype Api = Api(server: Deployment, sent: set<Patch>, applied: set<int>, evidence: map<int, (int, int)>)

  /** The pods and the control requests ever sent to them, with the suspend answers and
      the permits that opened a gate. `doomed` is history: the pods that existed when a
      scale-to-zero took effect, with the boot that had been suspended. */
  datatype Workers = Workers(
    pods: map<int, Pod>, suspends: map<int, int>, answers: set<Answer>,
    resumes: set<Resume>, honoured: set<int>, doomed: map<int, int>)

  /** The whole system. `born` is history: the deployment uid each controller adopted.
      Every identifier in use is below `nextId`. */
  datatype State = State(
    now: int, nextId: int, api: Api, workers: Workers, live: map<int, Controller>, born: map<int, int>)

  datatype Hint = NoHint | OnlyPod(pod: int) | Reply(status: Status)

  datatype Action =
    // the environment
    | Clock(millis: nat)
    | Bump(versions: nat)
    | Admit(pod: int)
    | Leave(pod: int)
    | Create
    | SetReady(pod: int, ready: bool)
    | Terminate(pod: int)
    | Vanish(pod: int)
    | Restart(pod: int)
    | DeliverPatch(patch: Patch)
    | DeliverSuspend(request: int, renew: bool)
    | DeliverResume(resume: Resume)
    // administrators, outside the guarantee for automatic sleep
    | Replace(replicas: int)
    | EditReplicas(replicas: int)
    | Evict(pod: int)
    // controller processes
    | Start
    | Crash(id: int)
    | AbortTicker(id: int)
    | BeginTick(id: int)
    | BeginWake(id: int)
    | EndConnection(id: int, connection: nat)
    | Proceed(id: int, hint: Hint)
    | Fail(id: int)

  // ---------- the environment ----------

  function WithPod(w: Workers, p: int, pod: Pod): Workers {
    w.(pods := w.pods[p := pod])
  }

  /** What happens inside the pods without any request. */
  function PodStep(s: State, a: Action): Option<Workers> {
    var w := s.workers;
    if a.Create? then
      if s.api.server.replicas > 0 && forall p | p in w.pods :: w.pods[p].terminating
      then Some(WithPod(w, s.nextId, Pod(s.nextId, 0, None, false, false))) else None
    else if !(a.Admit? || a.Leave? || a.SetReady? || a.Terminate? || a.Evict? || a.Vanish? || a.Restart?)
            || a.pod !in w.pods
    then None
    else
      var pod := w.pods[a.pod];
      match a
      case Admit(p) => if pod.permit.None? then Some(WithPod(w, p, pod.(sessions := pod.sessions + 1))) else None
      case Leave(p) => if pod.sessions > 0 then Some(WithPod(w, p, pod.(sessions := pod.sessions - 1))) else None
      case SetReady(p, r) => Some(WithPod(w, p, pod.(ready := r)))
      case Terminate(p) =>
        if s.api.server.replicas == 0 then Some(WithPod(w, p, pod.(terminating := true))) else None
      case Evict(p) => Some(WithPod(w, p, pod.(terminating := true)))
      case Vanish(p) => if pod.terminating then Some(w.(pods := w.pods - {p})) else None
      case Restart(p) => Some(WithPod(w, p, pod.(boot := s.nextId, sessions := 0, permit := None)))
      case _ => None
  }

  function SuspendDelivered(w: Workers, r: int, renew: bool, freshPermit: int): Workers
    requires r in w.suspends && w.suspends[r] in w.pods
  {
    var p := w.suspends[r];
    var pod := Suspended(w.pods[p], freshPermit, renew);
    WithPod(w, p, pod).(answers := w.answers + {Answer(r, StatusOf(pod))})
  }

  function ResumeDelivered(w: Workers, r: Resume): Workers
    requires r.pod in w.pods
  {
    if w.pods[r.pod].permit == Some(r.permit)
    then WithPod(w, r.pod, Resumed(w.pods[r.pod], r.permit)).(honoured := w.honoured + {r.permit})
    else w
  }

  /** A control request reaches its pod. */
  function RequestStep(s: State, a: Action): Option<Workers> {
    var w := s.workers;
    match a
    case DeliverSuspend(r, renew) =>
      if r in w.suspends && w.suspends[r] in w.pods then Some(SuspendDelivered(w, r, renew, s.nextId)) else None
    case DeliverResume(r) =>
      if r in w.resumes && r.pod in w.pods then Some(ResumeDelivered(w, r)) else None
    case _ => None
  }

  /** Every pod there is, with the boot whose suspension justified the write. */
  function Doomed(s: State, m: Patch): map<int, int> {
    map p | p in s.workers.pods ::
      if m.operation in s.api.evidence then s.api.evidence[m.operation].1 else s.workers.pods[p].boot
  }

  predicate Effective(s: State, a: Action) {
    a.DeliverPatch? && a.patch in s.api.sent && CanApply(s.api.server, a.patch)
  }

  function PatchDelivered(s: State, m: Patch): State {
    if !CanApply(s.api.server, m) then s
    else
      s.(api := s.api.(server := Applied(s.api.server, m), applied := s.api.applied + {m.operation}),
         workers := if m.replicas == Some(0) then s.workers.(doomed := s.workers.doomed + Doomed(s, m))
                    else s.workers)
  }

  /** Writes of others to the Deployment: status updates, a replacement, a replica edit. */
  function ServerStep(s: State, a: Action): Option<Deployment> {
    var d := s.api.server;
    match a
    case Bump(k) => Some(d.(version := d.version + k))
    case Replace(n) => Some(Deployment(s.nextId, d.version + 1, s.nextId, s.nextId, n))
    case EditReplicas(n) => Some(d.(version := d.version + 1, replicas := n))
    case _ => None
  }

  function EnvironmentStep(s: State, a: Action): Option<State> {
    match a
    case Clock(t) => Some(s.(now := s.now + t))
    case DeliverPatch(m) => if m in s.api.sent then Some(PatchDelivered(s, m)) else None
    case Bump(_) | Replace(_) | EditReplicas(_) =>
      Some(s.(api := s.api.(server := ServerStep(s, a).value), nextId := s.nextId + 1))
    case DeliverSuspend(_, _) | DeliverResume(_) =>
      var w := RequestStep(s, a);
      if w.None? then None else Some(s.(workers := w.value, nextId := s.nextId + 1))
    case _ =>
      var w := PodStep(s, a);
      if w.None? then None else Some(s.(workers := w.value, nextId := s.nextId + 1))
  }

  // ---------- the controller ----------

  /** The one request, if any, that a controller sends as it moves. A scale-to-zero write
      records which pod and boot had been suspended. */
  datatype Request =
    | NoRequest
    | PatchRequest(patch: Patch)
    | SleepRequest(patch: Patch, pod: int, boot: int)
    | SuspendRequest(pod: int)
    | ResumeRequest(pod: int, permit: int)

  datatype Move = Move(controller: Controller, request: Request)

  function ApiAfter(api: Api, r: Request): Api {
    match r
    case PatchRequest(m) => api.(sent := api.sent + {m})
    case SleepRequest(m, p, boot) =>
      api.(sent := api.sent + {m}, evidence := api.evidence[m.operation := (p, boot)])
    case _ => api
  }

  function WorkersAfter(w: Workers, r: Request, id: int): Workers {
    match r
    case SuspendRequest(p) => w.(suspends := w.suspends[id := p])
    case ResumeRequest(p, permit) => w.(resumes := w.resumes + {Resume(p, permit, id)})
    case _ => w
  }

  function Commit(s: State, i: int, m: Move): State {
    s.(api := ApiAfter(s.api, m.request), workers := WorkersAfter(s.workers, m.request, s.nextId),
       live := s.live[i := m.controller], nextId := s.nextId + 1)
  }

  function Stay(c: Controller): Option<Move> {
    Some(Move(c, NoRequest))
  }

  /** The checks every read of the Deployment makes before its result is used. */
  predicate CurrentOk(s: State, i: int, c: Controller) {
    s.api.server.uid == c.uid && (!c.needsFence ==> s.api.server.owner == i)
  }

  /** The idle tick ends without leaving a running idle interval. */
  function EndTick(c: Controller, e: Event): Controller {
    c.(idleSince := None, log := c.log + [e], at := Free)
  }

  function FailWake(c: Controller): Controller {
    c.(connections := c.connections - 1, at := Free)
  }

  function Retry(s: State, c: Controller): Controller {
    c.(at := WakeSleep(s.now + RETRY_MILLIS))
  }

  function HandOut(c: Controller, p: int): Controller {
    c.(open := c.open + [p], at := Free)
  }

  function AfterFence(c: Controller, purpose: Purpose): Controller {
    match purpose
    case Serve => c.(at := Free)
    case Waking => c.(at := WakeGet)
    case Ticking => c.(at := TickEntry)
    case Rollback(pod, permit) => c.(at := TickObserve(pod, permit))
  }

  /** The single pod of the cluster when there is exactly one and it is ready. */
  predicate ReadyBackend(s: State, p: int) {
    |s.workers.pods| == 1 && p in s.workers.pods && Ready(s.workers.pods[p])
  }

  predicate NoReadyBackend(s: State) {
    |s.workers.pods| == 1 ==> forall p | p in s.workers.pods :: !Ready(s.workers.pods[p])
  }

  function FenceStep(s: State, i: int, c: Controller): Option<Move> {
    match c.at
    case FenceGet(purpose) =>
      if !CurrentOk(s, i, c) then None else
      var m := PatchOf(s.api.server, i, s.nextId, None);
      Some(Move(c.(needsFence := true, at := FenceWait(purpose, m)), PatchRequest(m)))
    case FenceWait(purpose, m) =>
      if m.operation !in s.api.applied then None else Stay(AfterFence(c.(needsFence := false), purpose))
    case _ => None
  }

  function WakeStep(cfg: Config, s: State, i: int, c: Controller, hint: Hint): Option<Move> {
    match c.at
    case WakeLoop =>
      if s.now >= c.wakeStart + cfg.coldStart then None
      else Stay(c.(turns := c.turns + 1, at := if c.needsFence then FenceGet(Waking) else WakeGet))
    case WakeGet =>
      if !CurrentOk(s, i, c) then None
      else if s.api.server.replicas == 0 then Stay(c.(at := WakeEmpty(s.api.server)))
      else if s.api.server.replicas == 1 then Stay(c.(at := WakeList))
      else None
    case WakeEmpty(current) =>
      if s.workers.pods == map[] then
        var m := PatchOf(current, i, s.nextId, Some(1));
        Some(Move(c.(needsFence := true, at := WakeScale(m)), PatchRequest(m)))
      else Stay(Retry(s, c))
    case WakeScale(m) =>
      if m.operation !in s.api.applied then None else Stay(Retry(s, c.(needsFence := false)))
    case WakeList =>
      if hint.OnlyPod? && ReadyBackend(s, hint.pod) then Stay(c.(at := WakeStatus(hint.pod)))
      else if NoReadyBackend(s) then Stay(Retry(s, c))
      else None
    case WakeStatus(p) =>
      if p !in s.workers.pods then None
      else if s.workers.pods[p].permit.Some? then
        var permit := s.workers.pods[p].permit.value;
        Some(Move(c.(at := WakeResume(p, permit)), ResumeRequest(p, permit)))
      else Stay(HandOut(c, p))
    case WakeResume(p, permit) =>
      if permit in s.workers.honoured then Stay(HandOut(c, p)) else None
    case WakeSleep(until) =>
      if s.now >= until then Stay(c.(at := WakeLoop)) else None
    case _ => None
  }

  /** When the current run of idle observations of this pod and boot began. */
  function IdleFrom(c: Controller, p: int, boot: int, now: int): int {
    if c.idleSince.Some? && c.idleSince.value.pod == p && c.idleSince.value.boot == boot
    then c.idleSince.value.since else now
  }

  function ObservedIdle(c: Controller, p: int, boot: int, now: int): Controller {
    c.(idleSince := Some(Idle(p, boot, IdleFrom(c, p, boot, now))), log := c.log + [SawIdle(p, boot, now)])
  }

  function TickStep(cfg: Config, s: State, i: int, c: Controller, hint: Hint): Option<Move> {
    match c.at
    case TickEntry => Stay(if c.connections > 0 then EndTick(c, NotIdle) else c.(at := TickGet))
    case TickGet =>
      if !CurrentOk(s, i, c) then None
      else if s.api.server.replicas == 0 then Stay(EndTick(c, NotIdle))
      else if s.api.server.replicas == 1 then Stay(c.(at := TickList(s.api.server)))
      else None
    case TickList(current) =>
      if hint.OnlyPod? && ReadyBackend(s, hint.pod) then Stay(c.(at := TickStatus(current, hint.pod)))
      else if NoReadyBackend(s) then Stay(EndTick(c, NotIdle))
      else None
    case TickStatus(current, p) =>
      if p !in s.workers.pods then None
      else if s.workers.pods[p].permit.Some? then
        var permit := s.workers.pods[p].permit.value;
        Some(Move(c.(at := TickResume(permit)), ResumeRequest(p, permit)))
      else if s.workers.pods[p].sessions > 0 then Stay(EndTick(c, NotIdle))
      else
        var boot := s.workers.pods[p].boot;
        var c' := ObservedIdle(c, p, boot, s.now);
        if s.now - IdleFrom(c, p, boot, s.now) < cfg.idleTimeout then Stay(c'.(at := Free))
        else Some(Move(c'.(at := TickSuspend(current, p, boot, s.nextId)), SuspendRequest(p)))
    case TickSuspend(current, p, boot, request) =>
      if !hint.Reply? || Answer(request, hint.status) !in s.workers.answers then None
      else if hint.status.permit.None? then Stay(EndTick(c, NotIdle))
      else if hint.status.busy || hint.status.boot != boot then None
      else
        var m := PatchOf(current, i, s.nextId, Some(0));
        Some(Move(c.(needsFence := true, at := TickScale(p, hint.status.permit.value, m)),
                  SleepRequest(m, p, boot)))
    case TickScale(_, _, m) =>
      if m.operation !in s.api.applied then None else Stay(EndTick(c.(needsFence := false), NotIdle))
    case TickObserve(p, permit) =>
      if !CurrentOk(s, i, c) || s.api.server.replicas != 1 then None
      else Some(Move(c.(at := TickResume(permit)), ResumeRequest(p, permit)))
    case TickResume(permit) =>
      if permit in s.workers.honoured then Stay(EndTick(c, NotIdle)) else None
    case _ => None
  }

  predicate Fencing(at: Point) { at.FenceGet? || at.FenceWait? }

  predicate InTick(at: Point) {
    if Fencing(at) then at.purpose.Ticking? || at.purpose.Rollback?
    else at.TickEntry? || at.TickGet? || at.TickList? || at.TickStatus? || at.TickSuspend? || at.TickScale?
         || at.TickObserve? || at.TickResume?
  }

  predicate InWake(at: Point) {
    if Fencing(at) then at.purpose.Waking?
    else at.WakeLoop? || at.WakeGet? || at.WakeEmpty? || at.WakeScale? || at.WakeList? || at.WakeStatus?
         || at.WakeResume? || at.WakeSleep?
  }

  /** The awaited request succeeded and its answer was used. */
  function ProceedStep(cfg: Config, s: State, i: int, c: Controller, hint: Hint): Option<Move> {
    if Fencing(c.at) then FenceStep(s, i, c)
    else if InWake(c.at) then WakeStep(cfg, s, i, c, hint)
    else TickStep(cfg, s, i, c, hint)
  }

  /** An awaited request timed out, was refused, or returned something unusable; or the
      wake's deadline has passed. */
  function FailStep(cfg: Config, s: State, c: Controller): Option<Move> {
    if c.at.WakeSleep? || c.at.TickEntry? || (c.at.WakeLoop? && s.now < c.wakeStart + cfg.coldStart) then None
    else if InWake(c.at) then Stay(FailWake(c))
    else if c.at.TickScale? then Stay(c.(at := FenceGet(Rollback(c.at.pod, c.at.permit))))
    else if InTick(c.at) then Stay(EndTick(c, TickFailed))
    else None
  }

  function BeginTickStep(c: Controller): Option<Move> {
    if !c.at.Free? || !c.ticking then None
    else if c.needsFence then Stay(c.(at := FenceGet(Ticking)))
    else Stay(c.(at := TickEntry))
  }

  function BeginWakeStep(s: State, c: Controller): Option<Move> {
    if !c.at.Free? then None else
    Stay(c.(connections := c.connections + 1, idleSince := None, log := c.log + [WakeStarted],
            wakeStart := s.now, turns := 0, at := WakeLoop))
  }

  function EndConnectionStep(c: Controller, t: nat): Option<Move> {
    if !c.at.Free? || t >= |c.open| then None else
    Stay(c.(connections := c.connections - 1, idleSince := None, log := c.log + [ConnectionEnded],
            open := c.open[..t] + c.open[t + 1..]))
  }

  function AbortTickerStep(c: Controller): Option<Move> {
    var c' := c.(ticking := false);
    Stay(if InTick(c.at) then c'.(at := Free, log := c.log + [TickDropped]) else c')
  }

  function NewController(uid: int): Controller {
    Controller(uid, true, 0, None, FenceGet(Serve), true, [], [], 0, 0)
  }

  /** What controller `i` does in action `a`. */
  function ControllerMove(cfg: Config, s: State, i: int, c: Controller, a: Action): Option<Move> {
    match a
    case AbortTicker(_) => AbortTickerStep(c)
    case BeginTick(_) => BeginTickStep(c)
    case BeginWake(_) => BeginWakeStep(s, c)
    case EndConnection(_, t) => EndConnectionStep(c, t)
    case Proceed(_, hint) => ProceedStep(cfg, s, i, c, hint)
    case Fail(_) => FailStep(cfg, s, c)
    case _ => None
  }

  /** A controller whose first fence fails does not start to serve: its process exits. */
  predicate Exits(c: Controller, a: Action) {
    a.Crash? || (a.Fail? && Fencing(c.at) && c.at.purpose.Serve?)
  }

  function ControllerStep(cfg: Config, s: State, a: Action): Option<State>
    requires IsController(a)
  {
    if a.Start? then
      Some(s.(live := s.live[s.nextId := NewController(s.api.server.uid)],
              born := s.born[s.nextId := s.api.server.uid], nextId := s.nextId + 1))
    else if a.id !in s.live then None
    else if Exits(s.live[a.id], a) then Some(s.(live := s.live - {a.id}))
    else
      var m := ControllerMove(cfg, s, a.id, s.live[a.id], a);
      if m.None? then None else Some(Commit(s, a.id, m.value))
  }

  predicate IsExternal(a: Action) { a.Replace? || a.EditReplicas? || a.Evict? }

  predicate IsController(a: Action) {
    a.Start? || a.Crash? || a.AbortTicker? || a.BeginTick? || a.BeginWake? || a.EndConnection?
    || a.Proceed? || a.Fail?
  }

  /** The state after `a`, or nothing when `a` cannot happen in `s`. */
  function Step(cfg: Config, s: State, a: Action): Option<State> {
    if IsController(a) then ControllerStep(cfg, s, a) else EnvironmentStep(s, a)
  }

  function Run(cfg: Config, s: State, actions: seq<Action>): Option<State> {
    if actions == [] then Some(s)
    else
      var before := Run(cfg, s, actions[..|actions| - 1]);
      if before.None? then None else Step(cfg, before.value, actions[|actions| - 1])
  }

  /** One controller at a time and no administrator: the deployment the chart installs. */
  predicate Guarded(s: State, a: Action) {
    !IsExternal(a) && (a.Start? ==> s.live == map[])
  }

  predicate GuardedRun(cfg: Config, s: State, actions: seq<Action>)
    ensures GuardedRun(cfg, s, actions) ==> Run(cfg, s, actions).Some?
  {
    if actions == [] then true
    else
      var before := actions[..|actions| - 1];
      && GuardedRun(cfg, s, before)
      && Guarded(Run(cfg, s, before).value, actions[|actions| - 1])
      && Run(cfg, s, actions).Some?
  }

  /** No request under way and no controller; pods may be left from earlier times. */
  predicate Initial(s: State) {
    && s.api.sent == {} && s.api.applied == {} && s.api.evidence == map[] && s.live == map[] && s.born == map[]
    && s.workers == Workers(s.workers.pods, map[], {}, {}, {}, map[])
    && s.api.server.operation < s.nextId
    && (forall p | p in s.workers.pods :: PodOk(s.workers.pods[p], p, s.nextId))
  }

  predicate PodOk(pod: Pod, p: int, id: int) {
    && p < id && pod.boot < id && 0 <= pod.sessions
    && (pod.permit.Some? ==> pod.permit.value < id && pod.sessions == 0)
  }

  /** `s` is reached from an initial state by a guarded run. */
  ghost predicate Reaches(cfg: Config, s0: State, actions: seq<Action>, s: State) {
    Initial(s0) && GuardedRun(cfg, s0, actions) && Run(cfg, s0, actions) == Some(s)
  }

  lemma Extend(cfg: Config, s0: State, actions: seq<Action>, s: State, a: Action, s': State)
    requires Reaches(cfg, s0, actions, s) && Guarded(s, a) && Step(cfg, s, a) == Some(s')
    ensures Reaches(cfg, s0, actions + [a], s')
  {
    assert (actions + [a])[..|actions|] == actions;
  }
}
