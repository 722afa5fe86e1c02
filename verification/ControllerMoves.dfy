/** The protocol's steps in the form in which the controller takes them. */
module ControllerMoves {
  import opened Wrappers

  import opened Cluster
  import opened IdleProtocol

  // ---------- the environment ----------

  lemma EnvironmentIgnoresControllers(s: State, a: Action, live: map<int, Controller>)
    requires EnvironmentStep(s, a).Some?
    ensures EnvironmentStep(s.(live := live), a) == Some(EnvironmentStep(s, a).value.(live := live))
    ensures EnvironmentStep(s, a).value.live == s.live
  {
  }

  /** Requests are only sent by controllers. */
  lemma EnvironmentSendsNothing(s: State, a: Action)
    requires EnvironmentStep(s, a).Some?
    ensures EnvironmentStep(s, a).value.api.sent == s.api.sent
    ensures EnvironmentStep(s, a).value.workers.resumes == s.workers.resumes
    ensures EnvironmentStep(s, a).value.workers.suspends == s.workers.suspends
    ensures s.now <= EnvironmentStep(s, a).value.now
  {
  }

  // ---------- the controller ----------

  lemma LoopMoves(cfg: Config, s: State, i: int, c: Controller)
    requires c.at.WakeLoop? && s.now < c.wakeStart + cfg.coldStart
    ensures ControllerMove(cfg, s, i, c, Proceed(i, NoHint))
            == Some(Move(c.(turns := c.turns + 1, at := if c.needsFence then FenceGet(Waking) else WakeGet), NoRequest))
  {
  }

  lemma PauseMoves(cfg: Config, s: State, i: int, c: Controller)
    requires c.at.WakeSleep? && s.now >= c.at.until
    ensures ControllerMove(cfg, s, i, c, Proceed(i, NoHint)) == Some(Move(c.(at := WakeLoop), NoRequest))
  {
  }

  lemma FenceMoves(cfg: Config, s: State, i: int, c: Controller, purpose: Purpose)
    requires c.at == FenceGet(purpose) && CurrentOk(s, i, c)
    ensures var m := PatchOf(s.api.server, i, s.nextId, None);
            ControllerMove(cfg, s, i, c, Proceed(i, NoHint))
            == Some(Move(c.(needsFence := true, at := FenceWait(purpose, m)), PatchRequest(m)))
  {
  }

  lemma FencedMoves(cfg: Config, s: State, i: int, c: Controller)
    requires c.at.FenceWait? && c.at.patch.operation in s.api.applied
    ensures ControllerMove(cfg, s, i, c, Proceed(i, NoHint))
            == Some(Move(AfterFence(c.(needsFence := false), c.at.purpose), NoRequest))
  {
  }

  lemma EmptyMoves(cfg: Config, s: State, i: int, c: Controller)
    requires c.at.WakeEmpty?
    ensures s.workers.pods == map[] ==>
              var m := PatchOf(c.at.current, i, s.nextId, Some(1));
              ControllerMove(cfg, s, i, c, Proceed(i, NoHint))
              == Some(Move(c.(needsFence := true, at := WakeScale(m)), PatchRequest(m)))
    ensures s.workers.pods != map[] ==>
              ControllerMove(cfg, s, i, c, Proceed(i, NoHint)) == Some(Move(Retry(s, c), NoRequest))
  {
  }

  lemma ScaledMoves(cfg: Config, s: State, i: int, c: Controller)
    requires c.at.WakeScale? && c.at.patch.operation in s.api.applied
    ensures ControllerMove(cfg, s, i, c, Proceed(i, NoHint))
            == Some(Move(Retry(s, c.(needsFence := false)), NoRequest))
  {
  }

  lemma ListedMoves(cfg: Config, s: State, i: int, c: Controller, pod: Option<int>)
    requires c.at.WakeList? && if pod.Some? then ReadyBackend(s, pod.value) else NoReadyBackend(s)
    ensures ControllerMove(cfg, s, i, c, Proceed(i, if pod.Some? then OnlyPod(pod.value) else NoHint))
            == Some(Move(if pod.Some? then c.(at := WakeStatus(pod.value)) else Retry(s, c), NoRequest))
  {
  }

  lemma StatusMoves(cfg: Config, s: State, i: int, c: Controller)
    requires c.at.WakeStatus? && c.at.pod in s.workers.pods
    ensures var permit := s.workers.pods[c.at.pod].permit;
            ControllerMove(cfg, s, i, c, Proceed(i, NoHint))
            == Some(if permit.Some? then
                      Move(c.(at := WakeResume(c.at.pod, permit.value)), ResumeRequest(c.at.pod, permit.value))
                    else Move(HandOut(c, c.at.pod), NoRequest))
  {
  }

  lemma ResumedMoves(cfg: Config, s: State, i: int, c: Controller)
    requires c.at.WakeResume? && c.at.permit in s.workers.honoured
    ensures ControllerMove(cfg, s, i, c, Proceed(i, NoHint)) == Some(Move(HandOut(c, c.at.pod), NoRequest))
  {
  }

  lemma BeginMoves(cfg: Config, s: State, i: int, c: Controller)
    requires c.at == Free && c.ticking
    ensures ControllerMove(cfg, s, i, c, BeginTick(i))
            == Some(Move(c.(at := if c.needsFence then FenceGet(Ticking) else TickEntry), NoRequest))
  {
  }

  lemma TickEntryMoves(cfg: Config, s: State, i: int, c: Controller)
    requires c.at.TickEntry?
    ensures ControllerMove(cfg, s, i, c, Proceed(i, NoHint))
            == Some(Move(if c.connections > 0 then EndTick(c, NotIdle) else c.(at := TickGet), NoRequest))
  {
  }

  lemma TickGetMoves(cfg: Config, s: State, i: int, c: Controller)
    requires c.at.TickGet? && CurrentOk(s, i, c)
    ensures s.api.server.replicas == 0 ==>
              ControllerMove(cfg, s, i, c, Proceed(i, NoHint)) == Some(Move(EndTick(c, NotIdle), NoRequest))
    ensures s.api.server.replicas == 1 ==>
              ControllerMove(cfg, s, i, c, Proceed(i, NoHint)) == Some(Move(c.(at := TickList(s.api.server)), NoRequest))
  {
  }

  lemma ObservedMoves(cfg: Config, s: State, i: int, c: Controller)
    requires c.at.TickObserve? && CurrentOk(s, i, c) && s.api.server.replicas == 1
    ensures ControllerMove(cfg, s, i, c, Proceed(i, NoHint))
            == Some(Move(c.(at := TickResume(c.at.permit)), ResumeRequest(c.at.pod, c.at.permit)))
  {
  }

  lemma TickListedMoves(cfg: Config, s: State, i: int, c: Controller, pod: Option<int>)
    requires c.at.TickList? && if pod.Some? then ReadyBackend(s, pod.value) else NoReadyBackend(s)
    ensures ControllerMove(cfg, s, i, c, Proceed(i, if pod.Some? then OnlyPod(pod.value) else NoHint))
            == Some(Move(if pod.Some? then c.(at := TickStatus(c.at.current, pod.value)) else EndTick(c, NotIdle),
                         NoRequest))
  {
  }

  /** The worker was found suspended or busy. */
  lemma TickStatusMoves(cfg: Config, s: State, i: int, c: Controller)
    requires c.at.TickStatus? && c.at.pod in s.workers.pods
    ensures var p := c.at.pod;
            var pod := s.workers.pods[p];
            var moved := ControllerMove(cfg, s, i, c, Proceed(i, NoHint));
            && (pod.permit.Some? ==>
                  moved == Some(Move(c.(at := TickResume(pod.permit.value)), ResumeRequest(p, pod.permit.value))))
            && (pod.permit.None? && pod.sessions > 0 ==> moved == Some(Move(EndTick(c, NotIdle), NoRequest)))
  {
  }

  lemma TickIdleMoves(cfg: Config, s: State, i: int, c: Controller, p: int, boot: int, since: int)
    requires c.at.TickStatus? && c.at.pod == p && p in s.workers.pods && since == IdleFrom(c, p, boot, s.now)
    requires StatusOf(s.workers.pods[p]) == Status(boot, false, None)
    ensures var seen := c.(idleSince := Some(Idle(p, boot, since)), log := c.log + [SawIdle(p, boot, s.now)]);
            ControllerMove(cfg, s, i, c, Proceed(i, NoHint))
            == Some(if s.now - since < cfg.idleTimeout then Move(seen.(at := Free), NoRequest)
                    else Move(seen.(at := TickSuspend(c.at.current, p, boot, s.nextId)), SuspendRequest(p)))
  {
  }

  lemma SuspendedMoves(cfg: Config, s: State, i: int, c: Controller, status: Status)
    requires c.at.TickSuspend? && Answer(c.at.request, status) in s.workers.answers
    ensures status.permit.None? ==>
              ControllerMove(cfg, s, i, c, Proceed(i, Reply(status))) == Some(Move(EndTick(c, NotIdle), NoRequest))
    ensures status.permit.Some? && !status.busy && status.boot == c.at.boot ==>
              var m := PatchOf(c.at.current, i, s.nextId, Some(0));
              ControllerMove(cfg, s, i, c, Proceed(i, Reply(status)))
              == Some(Move(c.(needsFence := true, at := TickScale(c.at.pod, status.permit.value, m)),
                           SleepRequest(m, c.at.pod, c.at.boot)))
  {
  }

  lemma SleptMoves(cfg: Config, s: State, i: int, c: Controller)
    requires c.at.TickScale?
    ensures c.at.patch.operation in s.api.applied ==>
              ControllerMove(cfg, s, i, c, Proceed(i, NoHint))
              == Some(Move(EndTick(c.(needsFence := false), NotIdle), NoRequest))
    ensures ControllerMove(cfg, s, i, c, Fail(i))
            == Some(Move(c.(at := FenceGet(Rollback(c.at.pod, c.at.permit))), NoRequest))
  {
  }

  /** The wake waits for an answer that may fail. */
  predicate Awaiting(at: Point) {
    InWake(at) && !at.WakeSleep? && !at.WakeLoop?
  }

  /** The tick stopped where it can report an error. */
  predicate Failing(at: Point) {
    InTick(at) && !at.TickEntry? && !at.TickScale?
  }

  /** The tick is undoing a sleep whose outcome is not known, or resuming a suspended worker. */
  predicate Undoing(at: Point) {
    (Fencing(at) && at.purpose.Rollback?) || at.TickObserve? || at.TickResume?
  }

  /** The tick has got beyond its read of the Deployment. */
  predicate Beyond(at: Point) {
    at.TickList? || at.TickStatus? || at.TickSuspend? || Undoing(at)
  }
}
