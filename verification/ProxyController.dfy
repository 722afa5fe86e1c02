/** The controller as the program runs it: methods that update its fields between awaited
    requests. Each is proved to take only steps of the protocol, so every result about
    guarded runs holds at each of its awaits, wherever it is dropped. */
module ProxyController {
  import opened Wrappers

  import opened Awaits
  import opened Cluster
  import opened ControllerMoves
  import opened IdleProtocol
  import opened Identifiers
  import opened IdleInterval
  import opened SleepSafety
  import Ownership

  /** The history has grown by what ticks write down. */
  predicate OnlyNotes(log: seq<Event>, later: seq<Event>) {
    && log <= later
    && forall e | e in later[|log|..] :: e.SawIdle? || e.NotIdle? || e.TickFailed?
  }

  /** What takes the mutex next. */
  datatype Task = Tick | Client | Leaving(connection: nat)

  /** A task that was carried out: the count before and after it, and what it wrote down. */
  datatype Done = Done(before: int, events: seq<Event>, after: int)

  /** A tick has left its entries, a client's wake has begun, a connection that was there has
      ended; and the count has followed. */
  predicate CarriedOut(task: Task, d: Done) {
    match task
    case Tick => d.after == d.before && d.events != [] && OnlyNotes([], d.events)
    case Client => (d.after == d.before || d.after == d.before + 1) && d.events == [WakeStarted]
    case Leaving(k) =>
      if k < d.before then d.after == d.before - 1 && d.events == [ConnectionEnded]
      else d.after == d.before && d.events == []
  }

  function CountAfter(done: seq<Done>): int {
    if done == [] then 0 else done[|done| - 1].after
  }

  /** All tasks were carried out, in order, from no connections. */
  predicate AllCarriedOut(tasks: seq<Task>, done: seq<Done>)
    requires |tasks| == |done|
  {
    forall n | 0 <= n < |tasks| :: CarriedOut(tasks[n], done[n]) && done[n].before == CountAfter(done[..n])
  }

  function WrittenDown(done: seq<Done>): seq<Event> {
    if done == [] then [] else WrittenDown(done[..|done| - 1]) + done[|done| - 1].events
  }

  lemma NothingCarriedOut()
    ensures AllCarriedOut([], []) && WrittenDown([]) == []
  {
  }

  lemma OneMoreCarriedOut(tasks: seq<Task>, n: nat, done: seq<Done>, d: Done)
    requires n < |tasks| && |done| == n && AllCarriedOut(tasks[..n], done)
    requires CarriedOut(tasks[n], d) && d.before == CountAfter(done)
    ensures AllCarriedOut(tasks[..n + 1], done + [d])
    ensures WrittenDown(done + [d]) == WrittenDown(done) + d.events
  {
    hide CarriedOut;
    var more := done + [d];
    assert more[..n] == done by {
      hide AllCarriedOut, WrittenDown, CountAfter;
    }
    forall k | 0 <= k < n + 1
      ensures CarriedOut(tasks[..n + 1][k], more[k]) && more[k].before == CountAfter(more[..k])
    {
      hide WrittenDown, CountAfter;
      if k < n {
        assert more[..k] == done[..k] && tasks[..n][k] == tasks[k] && more[k] == done[k];
      }
    }
  }

  class Proxy {
    const cfg: Config
    const owner: int
    const uid: int
    var needsFence: bool
    var connections: int
    var idleSince: Option<Idle>

    // The cluster, which the controller only reaches through requests, and what will
    // happen at the awaits to come.
    var cluster: State
    var future: seq<Turn>

    // The protocol's view of this controller, of which the three fields above are the
    // program's own copy, and the run so far.
    ghost var view: Controller
    ghost var first: State
    ghost var past: seq<Action>
    ghost var settled: State

    ghost function Self(): Controller
      reads this
    {
      view.(needsFence := needsFence, connections := connections, idleSince := idleSince)
    }

    /** The run so far has left this controller as `c`; its fields may have moved on. */
    ghost predicate SettledAs(c: Controller)
      reads this
    {
      && Reaches(cfg, first, past, settled) && c.uid == uid
      && settled == cluster.(live := map[owner := c]) && cluster.live == map[]
    }

    ghost predicate Valid()
      reads this
    {
      SettledAs(Self())
    }

    twostate predicate SameTask()
      reads this
    {
      view.open == old(view.open) && view.ticking == old(view.ticking) && OnlyNotes(old(view.log), view.log)
    }

    /** Nothing in flight can take effect, and this pod existed at no scale-to-zero. */
    ghost predicate HandedOut(p: int)
      reads this
    {
      !needsFence && AllStale(cluster.api) && p !in cluster.workers.doomed
    }

    /** The run and the clock only go on, and no request is taken back. */
    twostate predicate Continues()
      reads this
    {
      first == old(first) && old(past) <= past && old(cluster.now) <= cluster.now
      && old(cluster.api.sent) <= cluster.api.sent
    }

    /** This many awaits were made, and all were answered. */
    twostate predicate Answered(k: nat)
      reads this
    {
      AnsweredIn(old(future), future, k)
    }

    /** The answer the operation waits for at this point is none it can use. */
    ghost predicate Unusable(at: Point)
      reads this
    {
      match at
      case FenceGet(_) => !Mine()
      case FenceWait(_, m) => m.operation !in cluster.api.applied
      case WakeGet => !Mine() || (cluster.api.server.replicas != 0 && cluster.api.server.replicas != 1)
      case TickGet => !Mine() || (cluster.api.server.replicas != 0 && cluster.api.server.replicas != 1)
      case WakeScale(m) => m.operation !in cluster.api.applied
      case WakeStatus(p) => p !in cluster.workers.pods
      case TickStatus(_, p) => p !in cluster.workers.pods
      case WakeResume(_, permit) => permit !in cluster.workers.honoured
      case TickResume(permit) => permit !in cluster.workers.honoured
      case TickSuspend(_, _, boot, request) =>
        || (forall x | x in cluster.workers.answers :: x.request != request)
        || (exists x | x in cluster.workers.answers ::
              x.request == request && x.status.permit.Some? && (x.status.busy || x.status.boot != boot))
      case _ => false
    }

    /** The Deployment is the adopted one and, with the flag down, this process's. */
    ghost predicate Mine()
      reads this
    {
      cluster.api.server.uid == uid && (!needsFence ==> cluster.api.server.owner == owner)
    }

    /** This many awaits were made; the last, at this point, was not answered usably. */
    twostate predicate Stopped(k: nat, at: Point)
      reads this
    {
      StoppedIn(old(future), future, k, Unusable(at))
    }

    /** A state in which an answer was read meanwhile. */
    twostate predicate Read(look: Look)
      reads this
    {
      old(past) <= look.when <= past && Run(cfg, first, look.when) == Some(look.seen)
    }

    ghost function Now(): Look
      reads this
    {
      Look(past, settled)
    }

    /** Behind these actions the controller's fence had succeeded: its flag was down. */
    ghost predicate FencedBehind(when: seq<Action>)
      reads this
    {
      var s := Run(cfg, first, when);
      s.Some? && owner in s.value.live && !s.value.live[owner].needsFence
    }

    lemma ReadNow()
      requires Valid()
      ensures Run(cfg, first, past) == Some(settled)
    {
    }

    /** No resume was sent meanwhile. */
    twostate predicate Unresumed()
      reads this
    {
      cluster.workers.resumes == old(cluster.workers.resumes)
    }

    /** No suspend was requested meanwhile. */
    twostate predicate Unsuspended()
      reads this
    {
      cluster.workers.suspends == old(cluster.workers.suspends)
    }

    /** No request was sent meanwhile. */
    twostate predicate Silent()
      reads this
    {
      cluster.api.sent == old(cluster.api.sent) && Unresumed() && Unsuspended()
    }

    /** Of the patches sent meanwhile, none scales. */
    twostate predicate OnlyFenced()
      reads this
    {
      forall m | m in cluster.api.sent && m !in old(cluster.api.sent) :: m.replicas.None?
    }

    /** Of the patches sent meanwhile, none scales to zero while a connection is counted. */
    twostate predicate SentWithCare()
      reads this
    {
      forall m | m in cluster.api.sent && m !in old(cluster.api.sent) :: m.replicas == Some(0) ==> connections <= 0
    }

    /** The process starts and reads the Deployment; no other controller is alive. */
    constructor (cfg: Config, ghost first: State, ghost past: seq<Action>, cluster: State, future: seq<Turn>)
      requires Reaches(cfg, first, past, cluster) && cluster.live == map[]
      ensures Valid() && view.at == FenceGet(Serve) && connections == 0 && needsFence && view.open == []
    {
      this.cfg := cfg;
      this.owner := cluster.nextId;
      this.uid := cluster.api.server.uid;
      this.needsFence, this.connections, this.idleSince := true, 0, None;
      this.view := NewController(cluster.api.server.uid);
      this.cluster := cluster.(born := cluster.born[cluster.nextId := cluster.api.server.uid],
                               nextId := cluster.nextId + 1);
      this.future := future;
      this.first, this.past := first, past + [Start];
      this.settled := Step(cfg, cluster, Start).value;
      new;
      Extend(cfg, first, past, cluster, Start, settled);
      assert settled.live == map[owner := NewController(uid)];
    }

    // ---------- one await, one request ----------

    /** One thing happens in the cluster. */
    method Happen(a: Action)
      requires Valid()
      modifies `cluster, `past, `settled
      ensures Valid() && Continues() && Silent()
      ensures a.Clock? ==> cluster.now == old(cluster.now) + a.millis
    {
      if !IsController(a) && !IsExternal(a) && EnvironmentStep(cluster, a).Some? {
        EnvironmentIgnoresControllers(cluster, a, map[owner := Self()]);
        EnvironmentSendsNothing(cluster, a);
        cluster := EnvironmentStep(cluster, a).value;
        Extend(cfg, first, past, settled, a, Step(cfg, settled, a).value);
        settled, past := Step(cfg, settled, a).value, past + [a];
      }
    }

    /** Anything may happen before the answer arrives or fails to. */
    method Await() returns (arrives: bool)
      requires Valid()
      modifies `cluster, `future, `past, `settled
      ensures Valid() && Continues() && Silent()
      ensures future == Rest(old(future), 1) && (arrives <==> Arrives(old(future), 0))
      ensures StoppedIn(old(future), future, 1, arrives) && (arrives ==> Answered(1))
    {
      OneTaken(future);
      if future == [] {
        return false;
      }
      var turn := future[0];
      future := future[1..];
      for k := 0 to |turn.meanwhile|
        invariant Valid() && Continues() && Silent()
        invariant future == old(future)[1..]
      {
        Happen(turn.meanwhile[k]);
      }
      arrives := turn.arrives;
    }

    /** The fields have changed from `c` as action `a` says, and request `r` goes out. */
    method Send(ghost c: Controller, ghost a: Action, r: Request)
      requires SettledAs(c) && view.uid == uid
      requires IsController(a) && !a.Start? && !a.Crash? && a.id == owner && !Exits(c, a)
      requires ControllerMove(cfg, settled, owner, c, a) == Some(Move(Self(), r))
      modifies `cluster, `past, `settled
      ensures Valid() && Continues() && cluster.now == old(cluster.now)
      ensures cluster.api == ApiAfter(old(cluster.api), r)
      ensures cluster.workers == WorkersAfter(old(cluster.workers), r, old(cluster.nextId))
    {
      cluster := cluster.(api := ApiAfter(cluster.api, r),
                          workers := WorkersAfter(cluster.workers, r, cluster.nextId), nextId := cluster.nextId + 1);
      ghost var s := Commit(settled, owner, Move(Self(), r));
      assert s.live == map[owner := Self()];
      Extend(cfg, first, past, settled, a, s);
      settled, past := s, past + [a];
    }

    /** The operation goes on to its next point without a request. */
    method GoOn(ghost hint: Hint, ghost at: Point)
      requires Valid()
      requires ControllerMove(cfg, settled, owner, Self(), Proceed(owner, hint))
            == Some(Move(Self().(at := at), NoRequest))
      modifies `view, `cluster, `past, `settled
      ensures Valid() && Continues() && view == old(view).(at := at) && cluster.now == old(cluster.now)
      ensures cluster.api == old(cluster.api) && cluster.workers == old(cluster.workers)
    {
      hide Reaches, Run, ControllerMove;
      ghost var before := Self();
      view := view.(at := at);
      Send(before, Proceed(owner, hint), NoRequest);
    }

    /** With the fence down, nothing in flight can take effect. */
    lemma Trusted()
      requires Valid()
      ensures !needsFence ==> AllStale(cluster.api)
    {
      SafeAlways(cfg, first, past);
      assert Fenced(settled, settled.live[owner]);
    }

    /** What makes it right to hand out the pod whose gate is being opened. */
    lemma TrustedPod(p: int)
      requires Valid() && (view.at == WakeStatus(p) || (view.at.WakeResume? && view.at.pod == p))
      ensures HandedOut(p)
    {
      SafeAlways(cfg, first, past);
      assert Knows(settled, settled.live[owner]) && Ownership.Holder(settled.born, owner, settled.live[owner]);
      assert p in settled.workers.pods;
    }

    // ---------- reads, patches and the fence ----------

    method Current() returns (current: Result<Deployment>)
      requires Valid()
      modifies `cluster, `future, `past, `settled
      ensures Valid() && Continues() && Silent()
      ensures future == Rest(old(future), 1) && (current.Ok? <==> Arrives(old(future), 0) && Mine())
      ensures current.Ok? ==> current.value == cluster.api.server && CurrentOk(settled, owner, Self())
    {
      var arrives := Await();
      if !arrives || cluster.api.server.uid != uid {
        return Err;
      }
      if !needsFence && cluster.api.server.owner != owner {
        return Err;
      }
      return Ok(cluster.api.server);
    }

    /** A patch is sent, with the flag up, and its answer awaited. */
    method Patch(ghost c: Controller, ghost hint: Hint, r: Request, m: Patch) returns (ok: bool)
      requires SettledAs(c) && view.uid == uid && needsFence
      requires r == PatchRequest(m) || (r.SleepRequest? && r.patch == m)
      requires ControllerMove(cfg, settled, owner, c, Proceed(owner, hint)) == Some(Move(Self(), r))
      modifies `cluster, `future, `past, `settled
      ensures Valid() && Continues() && cluster.api.sent == old(cluster.api.sent) + {m} && Unresumed() && Unsuspended()
      ensures future == Rest(old(future), 1) && (ok <==> Arrives(old(future), 0) && m.operation in cluster.api.applied)
    {
      Send(c, Proceed(owner, hint), r);
      var arrives := Await();
      ok := arrives && m.operation in cluster.api.applied;
    }

    /** On success everything that was in flight has become unable to take effect; on
        failure the flag stays up. */
    method Fence(ghost purpose: Purpose) returns (ok: bool)
      requires Valid() && view.at == FenceGet(purpose) && needsFence
      modifies `needsFence, `view, `cluster, `future, `past, `settled
      ensures Valid() && Continues() && OnlyFenced() && Unresumed() && Unsuspended()
      ensures ok ==> !needsFence && AllStale(cluster.api) && view == AfterFence(old(view), purpose) && Answered(2)
      ensures !ok ==> needsFence && Fencing(view.at) && view == old(view).(at := view.at) && view.at.purpose == purpose
      ensures !ok ==> Stopped(if view.at.FenceGet? then 1 else 2, view.at)
    {
      hide ControllerMove, Reaches, AllStale, Rest, Arrives;
      OneTaken(old(future));
      var current := Current();
      if current.Err? {
        return false;
      }
      FenceMoves(cfg, settled, owner, Self(), purpose);
      ghost var before, mid := Self(), future;
      OneTaken(mid);
      needsFence := true;
      var m := PatchOf(current.value, owner, cluster.nextId, None);
      view := view.(at := FenceWait(purpose, m));
      ok := Patch(before, NoHint, PatchRequest(m), m);
      Later(old(future), mid, future, 1, 1, Unusable(view.at));
      if ok {
        LowerFlag(purpose);
      }
    }

    /** The fence has taken effect. */
    method LowerFlag(ghost purpose: Purpose)
      requires Valid() && view.at.FenceWait? && view.at.purpose == purpose
      requires view.at.patch.operation in cluster.api.applied
      modifies `needsFence, `view, `cluster, `past, `settled
      ensures Valid() && Continues() && cluster.api == old(cluster.api) && cluster.workers == old(cluster.workers)
      ensures !needsFence && AllStale(cluster.api) && view == AfterFence(old(view), purpose)
    {
      hide ControllerMove, Reaches, AllStale;
      FencedMoves(cfg, settled, owner, Self());
      ghost var before := Self();
      needsFence := false;
      view := AfterFence(view, purpose);
      Send(before, Proceed(owner, NoHint), NoRequest);
      Trusted();
    }

    /** The pod to talk to, if there is exactly one and it is ready. */
    method ReadyPod() returns (pod: Result<Option<int>>)
      requires Valid()
      modifies `cluster, `future, `past, `settled
      ensures Valid() && Continues() && Silent()
      ensures future == Rest(old(future), 1) && (pod.Ok? <==> Arrives(old(future), 0))
      ensures pod.Ok? ==> Chosen(cluster.workers.pods, pod.value)
      ensures pod.Ok? && pod.value.Some? ==> ReadyBackend(settled, pod.value.value)
      ensures pod.Ok? && pod.value.None? ==> NoReadyBackend(settled)
      ensures StoppedIn(old(future), future, 1, pod.Ok?) && (pod.Ok? ==> Answered(1))
    {
      var arrives := Await();
      if !arrives {
        return Err;
      }
      var pods := cluster.workers.pods;
      if |pods| != 1 {
        return Ok(None);
      }
      if p :| p in pods {
        assert forall q | q in pods :: q == p by {
          assert |pods.Keys - {p}| == 0;
        }
        return Ok(if Ready(pods[p]) then Some(p) else None);
      }
      return Ok(None);
    }

    // ---------- wake ----------

    /** Replicas are at zero: scale up once no pod is left, and try again either way. */
    method WakeFromZero(current: Deployment) returns (ok: bool, ghost listing: Look)
      requires Valid() && view.at == WakeEmpty(current)
      modifies `needsFence, `view, `cluster, `future, `past, `settled
      ensures Valid() && Continues() && SentWithCare() && view == old(view).(at := view.at)
      ensures if ok then view.at == WakeSleep(cluster.now + RETRY_MILLIS)
                         && Answered(if listing.seen.workers.pods == map[] then 2 else 1)
              else (view.at.WakeEmpty? && Stopped(1, view.at)) || (view.at.WakeScale? && Stopped(2, view.at))
      ensures Read(listing)
      ensures var scaled := old(cluster.api.sent) + {ScaleTo(current, owner, listing.seen.nextId, 1)};
              if view.at.WakeEmpty? || listing.seen.workers.pods != map[] then cluster.api.sent == old(cluster.api.sent)
              else cluster.api.sent == scaled
    {
      hide Reaches, Run, ControllerMove, AllStale, Rest, Arrives, AllArrive;
      var arrives := Await();
      ReadNow();
      listing := Now();
      if !arrives {
        ok := false;
        return;
      }
      ghost var mid := future;
      if cluster.workers.pods == map[] {
        ok := ScaleUp(current);
        Later(old(future), mid, future, 1, 1, Unusable(view.at));
        return;
      }
      EmptyMoves(cfg, settled, owner, Self());
      GoOn(NoHint, WakeSleep(cluster.now + RETRY_MILLIS));
      ok := true;
    }

    /** The scale to one, against the version read before the pods were listed. */
    method ScaleUp(current: Deployment) returns (ok: bool)
      requires Valid() && view.at == WakeEmpty(current) && cluster.workers.pods == map[]
      modifies `needsFence, `view, `cluster, `future, `past, `settled
      ensures Valid() && Continues() && SentWithCare() && view == old(view).(at := view.at)
      ensures if ok then view.at == WakeSleep(cluster.now + RETRY_MILLIS) && !needsFence && Answered(1)
              else view.at.WakeScale? && needsFence && Stopped(1, view.at)
      ensures cluster.api.sent == old(cluster.api.sent) + {ScaleTo(current, owner, old(cluster.nextId), 1)}
    {
      hide Reaches, Run, ControllerMove, AllStale, Rest, Arrives;
      EmptyMoves(cfg, settled, owner, Self());
      ghost var before := Self();
      var m := PatchOf(current, owner, cluster.nextId, Some(1));
      needsFence := true;
      view := view.(at := WakeScale(m));
      ok := Patch(before, NoHint, PatchRequest(m), m);
      OneTaken(old(future));
      if ok {
        ScaledUp();
      }
    }

    /** The scale to one is known to have taken effect. */
    method ScaledUp()
      requires Valid() && view.at.WakeScale? && view.at.patch.operation in cluster.api.applied
      modifies `needsFence, `view, `cluster, `past, `settled
      ensures Valid() && Continues() && cluster.api == old(cluster.api) && !needsFence
      ensures view == old(view).(at := WakeSleep(cluster.now + RETRY_MILLIS))
    {
      hide Reaches, Run, ControllerMove, AllStale;
      ScaledMoves(cfg, settled, owner, Self());
      ghost var before := Self();
      needsFence := false;
      view := view.(at := WakeSleep(cluster.now + RETRY_MILLIS));
      Send(before, Proceed(owner, NoHint), NoRequest);
    }

    /** Replicas are at one: hand out the ready pod, opening its gate first if need be. The
        listing alone decides whether a pod is gone for or the turn waits. */
    method WakeRunning() returns (r: Result<Option<int>>, ghost listing: Look)
      requires Valid() && view.at == WakeList
      modifies `view, `cluster, `future, `past, `settled
      ensures Valid() && Continues() && cluster.api.sent == old(cluster.api.sent)
      ensures r.Ok? && r.value.None? ==> view == old(view).(at := WakeSleep(cluster.now + RETRY_MILLIS)) && Answered(1)
      ensures r.Ok? && r.value.Some? ==> view == old(view).(at := Free, open := old(view.open) + [r.value.value])
      ensures r.Err? ==> view == old(view).(at := view.at)
      ensures r.Ok? && r.value.Some? ==> HandedOut(r.value.value)
      ensures r.Err? ==> (view.at.WakeList? && Stopped(1, view.at)) || (view.at.WakeStatus? && Stopped(2, view.at))
                         || (view.at.WakeResume? && Stopped(3, view.at))
      ensures Listed(r, listing)
    {
      hide Reaches, Run, ControllerMove, AllStale, Rest, Arrives, AllArrive, AnsweredIn, StoppedIn, Unusable, Chosen;
      var pod;
      pod, listing := ListPods();
      if pod.Err? || pod.value.None? {
        r := pod;
        return;
      }
      ghost var mid := future;
      ghost var status;
      var ok;
      ok, status := OpenGate(pod.value.value);
      Later(old(future), mid, future, 1, if view.at.WakeStatus? then 1 else 2, Unusable(view.at));
      r := if ok then pod else Err;
    }

    /** The pods are listed for a wake: the turn goes on to the usable pod, or waits. */
    method ListPods() returns (pod: Result<Option<int>>, ghost listing: Look)
      requires Valid() && view.at == WakeList
      modifies `view, `cluster, `future, `past, `settled
      ensures Valid() && Continues() && cluster.api.sent == old(cluster.api.sent)
      ensures if pod.Err? then view == old(view) && Stopped(1, view.at)
              else Answered(1) && view == old(view).(at := if pod.value.None? then WakeSleep(cluster.now + RETRY_MILLIS)
                                                           else WakeStatus(pod.value.value))
      ensures Listed(pod, listing)
    {
      hide Reaches, Run, ControllerMove, AllStale, Rest, Arrives, AllArrive, StoppedIn, AnsweredIn, Unusable, Chosen;
      hide ReadyBackend, NoReadyBackend;
      pod := ReadyPod();
      ReadNow();
      listing := Now();
      if pod.Err? {
        Unanswered(old(future), future, 1, Unusable(view.at));
        return;
      }
      ListedMoves(cfg, settled, owner, Self(), pod.value);
      ghost var hint := if pod.value.None? then NoHint else OnlyPod(pod.value.value);
      GoOn(hint, if pod.value.None? then WakeSleep(cluster.now + RETRY_MILLIS) else WakeStatus(pod.value.value));
    }

    /** The pod handed out was the only one, ready and not terminating, when the pods were
        listed; and none is handed out only if the listing showed no such pod. */
    twostate predicate Listed(r: Result<Option<int>>, listing: Look)
      reads this
    {
      r.Ok? ==> Read(listing) && Chosen(listing.seen.workers.pods, r.value)
    }

    /** Ask the pod for its status, resume it if it is suspended, and hand it out. */
    method OpenGate(p: int) returns (ok: bool, ghost status: Look)
      requires Valid() && view.at == WakeStatus(p)
      modifies `view, `cluster, `future, `past, `settled
      ensures Valid() && Continues() && cluster.api.sent == old(cluster.api.sent)
      ensures ok ==> view == old(view).(at := Free, open := old(view.open) + [p])
      ensures !ok ==> view == old(view).(at := view.at)
                      && ((view.at.WakeStatus? && Stopped(1, view.at)) || (view.at.WakeResume? && Stopped(2, view.at)))
      ensures ok ==> HandedOut(p)
      ensures ok ==> Read(status) && p in status.seen.workers.pods
                     && (status.seen.workers.pods[p].permit.Some? ==>
                           status.seen.workers.pods[p].permit.value in cluster.workers.honoured)
    {
      hide Reaches, Run, ControllerMove, AllStale, Rest, Arrives, AllArrive;
      var arrives := Await();
      ReadNow();
      status := Now();
      if !arrives || p !in cluster.workers.pods {
        ok := false;
        return;
      }
      ghost var mid := future;
      ok := PassGate(p);
      Later(old(future), mid, future, 1, 1, Unusable(view.at));
    }

    /** The status has come: an open gate needs nothing, a closed one is resumed first. */
    method PassGate(p: int) returns (ok: bool)
      requires Valid() && view.at == WakeStatus(p) && p in cluster.workers.pods
      modifies `view, `cluster, `future, `past, `settled
      ensures Valid() && Continues() && cluster.api.sent == old(cluster.api.sent)
      ensures if ok then view == old(view).(at := Free, open := old(view.open) + [p]) && HandedOut(p)
              else view == old(view).(at := view.at) && view.at.WakeResume? && Stopped(1, view.at)
      ensures var permit := old(cluster.workers.pods[p].permit);
              ok && permit.Some? ==> permit.value in cluster.workers.honoured
    {
      hide Reaches, Run, ControllerMove, AllStale, Rest, Arrives, AllArrive, StoppedIn, Unusable;
      StatusMoves(cfg, settled, owner, Self());
      var found := StatusOf(cluster.workers.pods[p]);
      if found.permit.None? {
        HandOver(p);
        return true;
      }
      ghost var before := Self();
      view := view.(at := WakeResume(p, found.permit.value));
      Send(before, Proceed(owner, NoHint), ResumeRequest(p, found.permit.value));
      ok := AwaitResume(p, found.permit.value);
    }

    /** The pod is handed out once its resume is known to have opened the gate. */
    method AwaitResume(p: int, permit: int) returns (ok: bool)
      requires Valid() && view.at == WakeResume(p, permit)
      modifies `view, `cluster, `future, `past, `settled
      ensures Valid() && Continues() && cluster.api.sent == old(cluster.api.sent)
      ensures view == if ok then old(view).(at := Free, open := old(view.open) + [p]) else old(view)
      ensures ok ==> HandedOut(p) && permit in cluster.workers.honoured
      ensures !ok ==> Stopped(1, view.at)
    {
      hide Reaches, Run, ControllerMove, AllStale, Rest, Arrives, AllArrive;
      var arrives := Await();
      if !arrives || permit !in cluster.workers.honoured {
        return false;
      }
      ResumedMoves(cfg, settled, owner, Self());
      HandOver(p);
      return true;
    }

    /** The pod with the open gate is the connection's. */
    method HandOver(p: int)
      requires Valid() && (view.at == WakeStatus(p) || (view.at.WakeResume? && view.at.pod == p))
      requires ControllerMove(cfg, settled, owner, Self(), Proceed(owner, NoHint))
            == Some(Move(HandOut(Self(), p), NoRequest))
      modifies `view, `cluster, `past, `settled
      ensures Valid() && Continues() && cluster.api == old(cluster.api) && cluster.workers == old(cluster.workers)
      ensures view == old(view).(at := Free, open := old(view.open) + [p]) && HandedOut(p)
    {
      hide Reaches, Run, ControllerMove, AllStale;
      TrustedPod(p);
      ghost var before := Self();
      view := view.(at := Free, open := view.open + [p]);
      Send(before, Proceed(owner, NoHint), NoRequest);
    }

    /** What is done behind this read of the Deployment, with the pods listed in `seen`. At zero
        replicas the turn waits, having scaled up if no pod was left; at one it waits only if
        the listing showed no usable pod. */
    ghost predicate Turned(r: Option<int>, read: Deployment, seen: State)
      reads this
    {
      if read.replicas == 0 then
        r.None? && (seen.workers.pods == map[] ==> ScaleTo(read, owner, seen.nextId, 1) in cluster.api.sent)
      else Chosen(seen.workers.pods, r)
    }

    /** One turn of the wake loop. */
    method WakeTurn()
      returns (r: Result<Option<int>>, ghost deployment: Look, ghost listing: Look, ghost used: nat)
      requires Valid() && view.at == WakeLoop && cluster.now < view.wakeStart + cfg.coldStart
      modifies `needsFence, `view, `cluster, `future, `past, `settled
      ensures Valid() && Continues() && SentWithCare()
      ensures TurnEnds(r)
      ensures r.Err? ==> Stopped(WakeAwaits(view.at, old(needsFence)), view.at)
      ensures r.Ok? && r.value.None? ==> Answered(used)
      ensures r.Ok? ==> Read(deployment) && Read(listing) && Turned(r.value, deployment.seen.api.server, listing.seen)
    {
      hide Reaches, Run, ControllerMove, AllStale, Rest, Arrives, AllArrive, AnsweredIn, StoppedIn, Unusable, Chosen;
      var current;
      current, deployment := BeginTurn();
      if current.Err? {
        return Err, deployment, deployment, 0;
      }
      ghost var mid, taken: nat := future, if old(needsFence) then 3 else 1;
      r, listing, used := EndTurn(current.value);
      Later(old(future), mid, future, taken, if r.Err? then WakeAwaits(view.at, false) - 1 else used, Unusable(view.at));
      used := taken + used;
    }

    /** Where a turn leaves the wake: with a pod, waiting, or at an await. */
    twostate predicate TurnEnds(new r: Result<Option<int>>)
      reads this
    {
      && (r.Ok? && r.value.None? ==> view.open == old(view.open) && view.at == WakeSleep(cluster.now + RETRY_MILLIS))
      && (r.Ok? && r.value.Some? ==> view.open == old(view.open) + [r.value.value] && view.at == Free
                                     && HandedOut(r.value.value))
      && (r.Err? ==> view.open == old(view.open) && Awaiting(view.at))
      && view.wakeStart == old(view.wakeStart) && view.ticking == old(view.ticking) && view.log == old(view.log)
    }

    method EndTurn(current: Deployment) returns (r: Result<Option<int>>, ghost listing: Look, ghost used: nat)
      requires Valid() && view.at == (if current.replicas == 0 then WakeEmpty(current) else WakeList)
      modifies `needsFence, `view, `cluster, `future, `past, `settled
      ensures Valid() && Continues() && SentWithCare()
      ensures TurnEnds(r)
      ensures r.Err? ==> !Fencing(view.at) && WakeAwaits(view.at, false) > 1
                         && Stopped(WakeAwaits(view.at, false) - 1, view.at)
      ensures r.Ok? && r.value.None? ==> Answered(used)
      ensures r.Ok? ==> Read(listing) && Turned(r.value, current, listing.seen)
    {
      hide Reaches, Run, ControllerMove, AllStale, Rest, Arrives, AllArrive, AnsweredIn, StoppedIn, Unusable, Chosen;
      if current.replicas == 0 {
        var ok;
        ok, listing := WakeFromZero(current);
        r := if ok then Ok(None) else Err;
        used := if listing.seen.workers.pods == map[] then 2 else 1;
      } else {
        r, listing := WakeRunning();
        used := 1;
      }
    }

    /** The turn is counted, and the Deployment read behind a fence if one is needed. */
    method BeginTurn() returns (current: Result<Deployment>, ghost deployment: Look)
      requires Valid() && view.at == WakeLoop && cluster.now < view.wakeStart + cfg.coldStart
      modifies `needsFence, `view, `cluster, `future, `past, `settled
      ensures Valid() && Continues() && OnlyFenced()
      ensures view == old(view).(at := view.at, turns := old(view.turns) + 1)
      ensures current.Ok? ==> current.value.replicas == 0 || current.value.replicas == 1
      ensures current.Ok? ==> if current.value.replicas == 0 then view.at == WakeEmpty(current.value)
                              else current.value.replicas == 1 && view.at == WakeList
      ensures current.Ok? ==> Read(deployment) && deployment.seen.api.server == current.value
                              && Answered(if old(needsFence) then 3 else 1)
      ensures current.Err? ==> Awaiting(view.at) && (view.at.WakeGet? || Fencing(view.at))
                               && Stopped(WakeAwaits(view.at, old(needsFence)), view.at)
    {
      hide Reaches, Run, ControllerMove, AllStale, Rest, Arrives, AllArrive, AnsweredIn, StoppedIn, Unusable;
      var ok := EnterTurn();
      if !ok {
        return Err, Now();
      }
      ghost var mid := future;
      current, deployment := WakeRead();
      Later(old(future), mid, future, if old(needsFence) then 2 else 0, 1, Unusable(view.at));
    }

    /** The turn is counted, and the fence raised again if an earlier write may be in flight. */
    method EnterTurn() returns (ok: bool)
      requires Valid() && view.at == WakeLoop && cluster.now < view.wakeStart + cfg.coldStart
      modifies `needsFence, `view, `cluster, `future, `past, `settled
      ensures Valid() && Continues() && OnlyFenced()
      ensures view == old(view).(at := view.at, turns := old(view.turns) + 1)
      ensures if ok then view.at == WakeGet && Answered(if old(needsFence) then 2 else 0)
              else Awaiting(view.at) && Fencing(view.at) && Stopped(WakeAwaits(view.at, true), view.at)
                   && old(needsFence)
    {
      hide Reaches, Run, AllStale, ControllerMove, Arrives, Unusable;
      LoopMoves(cfg, settled, owner, Self());
      ghost var before := Self();
      view := view.(turns := view.turns + 1, at := if needsFence then FenceGet(Waking) else WakeGet);
      Send(before, Proceed(owner, NoHint), NoRequest);
      NoneTaken(future);
      if !needsFence {
        return true;
      }
      ok := Fence(Waking);
    }

    /** The wake's read of the Deployment; anything but zero or one replica is an error. */
    method WakeRead() returns (current: Result<Deployment>, ghost deployment: Look)
      requires Valid() && view.at == WakeGet
      modifies `view, `cluster, `future, `past, `settled
      ensures Valid() && Continues() && cluster.api.sent == old(cluster.api.sent) && view == old(view).(at := view.at)
      ensures current.Ok? ==> if current.value.replicas == 0 then view.at == WakeEmpty(current.value)
                              else current.value.replicas == 1 && view.at == WakeList
      ensures current.Ok? ==> Read(deployment) && deployment.seen.api.server == current.value && Answered(1)
      ensures current.Err? ==> view.at == WakeGet && Stopped(1, view.at)
    {
      hide Reaches, Run, Rest, Arrives;
      OneTaken(old(future));
      current := Current();
      ReadNow();
      deployment := Now();
      if current.Err? || (current.value.replicas != 0 && current.value.replicas != 1) {
        current := Err;
        return;
      }
      GoOn(NoHint, if current.value.replicas == 0 then WakeEmpty(current.value) else WakeList);
    }

    /** Half a second passes, and the loop is entered again. */
    method Pause()
      requires Valid() && view.at == WakeSleep(cluster.now + RETRY_MILLIS)
      modifies `view, `cluster, `future, `past, `settled
      ensures Valid() && Continues() && cluster.api.sent == old(cluster.api.sent)
      ensures view == old(view).(at := WakeLoop) && cluster.now >= old(cluster.now) + RETRY_MILLIS
      ensures future == Rest(old(future), 1)
    {
      hide Reaches, Run, ControllerMove, AllStale, Rest;
      var until := cluster.now + RETRY_MILLIS;
      var arrives := Await();
      if cluster.now < until {
        Happen(Clock(until - cluster.now));
      }
      PauseMoves(cfg, settled, owner, Self());
      GoOn(NoHint, WakeLoop);
    }

    /** The wake has failed at an await, or its deadline has passed. */
    ghost predicate GivesUp()
      reads this
    {
      Awaiting(view.at) || (view.at.WakeLoop? && cluster.now >= view.wakeStart + cfg.coldStart)
    }

    method StartWake()
      requires SettledAs(Self().(connections := connections - 1)) && view.at == Free
      modifies `idleSince, `view, `cluster, `past, `settled
      ensures Valid() && Continues() && cluster.now == old(cluster.now) && cluster.api == old(cluster.api)
      ensures idleSince == None && view.open == old(view.open) && view.ticking == old(view.ticking)
      ensures view.at == WakeLoop && view.wakeStart == cluster.now
      ensures view.log == old(view.log) + [WakeStarted]
    {
      hide Reaches, Run;
      ghost var before := Self().(connections := connections - 1);
      idleSince := None;
      view := view.(log := view.log + [WakeStarted], wakeStart := cluster.now, turns := 0, at := WakeLoop);
      Send(before, BeginWake(owner), NoRequest);
    }

    /** A wake that fails has used up the cold-start timeout, or has stopped in its last turn,
        which began behind `from` turns, at an await without a usable answer. */
    twostate predicate WakeFailed(stop: Stop)
      reads this
    {
      if Awaiting(stop.at) then
        StoppedIn(Rest(old(future), stop.from), future, WakeAwaits(stop.at, stop.fenced), Unusable(stop.at))
      else cluster.now >= old(cluster.now) + cfg.coldStart
    }

    /** One turn of the wake loop and, if it found no pod to hand out, the pause after it. */
    method WakeRound() 
      returns (r: Result<Option<int>>, ghost deployment: Look, ghost listing: Look, ghost used: nat)
      requires Valid() && view.at == WakeLoop && cluster.now < view.wakeStart + cfg.coldStart
      modifies `needsFence, `view, `cluster, `future, `past, `settled
      ensures Valid() && Continues() && SentWithCare()
      ensures view.wakeStart == old(view.wakeStart) && view.ticking == old(view.ticking) && view.log == old(view.log)
      ensures r.Ok? && r.value.None? ==> view.open == old(view.open) && view.at == WakeLoop
                                         && cluster.now > old(cluster.now)
                                         && future == Rest(old(future), used) && used > 0
      ensures r.Ok? && r.value.None? ==> Read(deployment) && Read(listing)
                                         && Turned(None, deployment.seen.api.server, listing.seen)
      ensures r.Ok? && r.value.Some? ==> view.open == old(view.open) + [r.value.value] && view.at == Free
                                         && HandedOut(r.value.value)
      ensures r.Ok? && r.value.Some? ==> Read(listing) && OnlyReady(listing.seen.workers.pods, r.value.value)
      ensures r.Err? ==> view.open == old(view.open) && Awaiting(view.at)
                         && Stopped(WakeAwaits(view.at, old(needsFence)), view.at)
    {
      hide Reaches, Run, ControllerMove, Rest, Arrives, AllArrive, StoppedIn, Unusable, AllStale, OnlyReady;
      r, deployment, listing, used := WakeTurn();
      if r.Err? || r.value.Some? {
        return;
      }
      Pause();
      Composed(old(future), used, 1);
      used := used + 1;
    }

    /** Wake the worker, and return the pod to connect to. The count has been raised for
        this connection. On success nothing in flight can take effect, and the pod was listed
        as the only one, ready and not terminating, did not exist at any scale-to-zero, and is
        recorded as handed out. */
    method Wake() returns (r: Result<int>, ghost deployment: Look, ghost listing: Look, ghost stop: Stop)
      requires SettledAs(Self().(connections := connections - 1)) && view.at == Free
      modifies `needsFence, `idleSince, `view, `cluster, `future, `past, `settled
      ensures Valid() && Continues() && SentWithCare() && idleSince == None && view.ticking == old(view.ticking)
      ensures view.log == old(view.log) + [WakeStarted]
      ensures r.Ok? ==>
                view.open == old(view.open) + [r.value] && view.at == Free && HandedOut(r.value)
      ensures r.Ok? ==> Read(listing) && OnlyReady(listing.seen.workers.pods, r.value)
      ensures r.Err? ==>
                view.open == old(view.open) && GivesUp() && stop.at == view.at && WakeFailed(stop)
      ensures r.Err? && !Awaiting(stop.at) && cfg.coldStart > 0 ==>
                Read(deployment) && Read(listing) && Turned(None, deployment.seen.api.server, listing.seen)
    {
      hide Reaches, Run, ControllerMove, Rest, Arrives, AllArrive, StoppedIn, HandedOut, Unusable, AllStale, OnlyReady;
      hide WakeAwaits, Chosen;
      StartWake();
      var deadline := cluster.now + cfg.coldStart;
      ghost var from: nat := 0;
      stop := Stop(Free, 0, false);
      deployment, listing := Now(), Now();
      NoneTaken(old(future));
      while cluster.now < deadline
        invariant Valid() && Continues() && SentWithCare() && idleSince == None
        invariant view.at == WakeLoop && view.open == old(view.open) && view.ticking == old(view.ticking)
        invariant deadline == view.wakeStart + cfg.coldStart
        invariant view.log == old(view.log) + [WakeStarted] && deadline >= old(cluster.now) + cfg.coldStart
        invariant future == Rest(old(future), from) && (from == 0 ==> cluster.now == old(cluster.now))
        invariant from > 0 ==>
                    Read(deployment) && Read(listing) && Turned(None, deployment.seen.api.server, listing.seen)
        decreases deadline - cluster.now
      {
        stop := Stop(view.at, from, needsFence);
        var turn;
        ghost var used;
        turn, deployment, listing, used := WakeRound();
        if turn.Err? {
          stop := stop.(at := view.at);
          return Err, deployment, listing, stop;
        }
        if turn.value.Some? {
          return Ok(turn.value.value), deployment, listing, stop;
        }
        Composed(old(future), from, used);
        from := from + used;
      }
      return Err, deployment, listing, stop.(at := view.at);
    }

    // ---------- the idle tick ----------

    ghost predicate ReadSince(from: Look, look: Look)
      reads this
    {
      from.when <= look.when <= past && Run(cfg, first, look.when) == Some(look.seen)
    }

    /** Since then, fences apart, only this patch was sent, if any. */
    ghost predicate SentSince(from: Look, scale: Option<Patch>)
      reads this
    {
      && (forall m | m in cluster.api.sent && m !in from.seen.api.sent :: m.replicas.None? || Some(m) == scale)
      && (scale.Some? ==> scale.value in cluster.api.sent)
    }

    ghost predicate NoResumeSince(from: Look)
      reads this
    {
      cluster.workers.resumes == from.seen.workers.resumes
    }

    ghost predicate NoSuspendSince(from: Look)
      reads this
    {
      cluster.workers.suspends == from.seen.workers.suspends
    }

    /** No request but fences was sent since. */
    ghost predicate OnlyFencesSince(from: Look)
      reads this
    {
      SentSince(from, None) && NoResumeSince(from) && NoSuspendSince(from)
    }

    /** From the state `from` to `mid` no request but fences was sent. */
    ghost predicate OnlyFences(from: Look, mid: Look) {
      && from.when <= mid.when
      && (forall m | m in mid.seen.api.sent && m !in from.seen.api.sent :: m.replicas.None?)
      && mid.seen.workers.resumes == from.seen.workers.resumes
      && mid.seen.workers.suspends == from.seen.workers.suspends
    }

    /** The write's outcome is not known, and the operation is at `at`. If the fence that came
        then has failed the worker stays suspended; if it has succeeded, and the read behind
        it shows that one replica is still wanted, the resume has been sent. */
    ghost predicate Undone(at: Point, from: Look, turns: seq<Turn>, p: int, permit: int, observed: Look)
      reads this
    {
      if Fencing(at) then
        NoResumeSince(from) && StoppedIn(turns, future, if at.FenceGet? then 1 else 2, Unusable(at))
      else
        var d := observed.seen.api.server;
        && ReadSince(from, observed) && FencedBehind(observed.when)
        && cluster.workers.resumes == from.seen.workers.resumes
             + if Arrives(turns, 2) && d.uid == uid && d.owner == owner && d.replicas == 1
               then {Resume(p, permit, observed.seen.nextId)} else {}
    }

    /** The scale to zero `m` was sent; the operation has ended well exactly if an answer came
        and the write had taken effect. */
    ghost predicate Written(
      at: Point, from: Look, turns: seq<Turn>, m: Patch, p: int, permit: int, written: Look, observed: Look)
      reads this
    {
      && ReadSince(from, written) && SentSince(from, Some(m)) && NoSuspendSince(from)
      && (at.Free? <==> Arrives(turns, 0) && m.operation in written.seen.api.applied)
      && if at.Free? then NoResumeSince(from) && !needsFence
         else (!needsFence ==> AllStale(cluster.api)) && Undone(at, from, Rest(turns, 1), p, permit, observed)
    }

    /** The suspend request was answered; the scale to zero goes out exactly if the answer
        shows the same boot, no activity and a permit. */
    ghost predicate Napped(
      at: Point, from: Look, turns: seq<Turn>, current: Deployment, p: int, boot: int, request: int, n: Nap)
      reads this
    {
      if at.TickSuspend? then
        at.request == request && StoppedIn(turns, future, 1, Unusable(at)) && OnlyFencesSince(from)
      else
        && Arrives(turns, 0) && ReadSince(from, n.reply) && Answer(request, n.answer) in n.reply.seen.workers.answers
        && if n.answer.permit.None? then at.Free? && OnlyFencesSince(from)
           else
             && !n.answer.busy && n.answer.boot == boot
             && Written(at, from, Rest(turns, 1), ScaleTo(current, owner, n.reply.seen.nextId, 0), p,
                        n.answer.permit.value, n.written, n.observed)
    }

    /** The worker's status was read. A suspended one is sent its resume; a busy one is left
        alone; an idle one is sent a suspend request exactly if the interval of this pod and
        boot has lasted the whole timeout. */
    ghost predicate Found(
      at: Point, from: Look, turns: seq<Turn>, current: Deployment, p: int, idle: Option<Idle>, status: Look, n: Nap)
      requires p in status.seen.workers.pods
      reads this
    {
      var pod := status.seen.workers.pods[p];
      var since := SinceOf(idle, p, pod.boot, status.seen.now);
      if pod.permit.Some? then Recovered(at, from, turns, p, pod.permit.value, status)
      else if pod.sessions > 0 then at.Free? && OnlyFencesSince(from) && idleSince == None
      else Idled(at, from, turns, current, p, pod.boot, since, status, n)
    }

    /** The worker was idle since then: its interval goes on, or it was sent a suspend request. */
    ghost predicate Idled(
      at: Point, from: Look, turns: seq<Turn>, current: Deployment, p: int, boot: int, since: int, status: Look, n: Nap)
      reads this
    {
      if status.seen.now - since < cfg.idleTimeout then
        at.Free? && OnlyFencesSince(from) && idleSince == Some(Idle(p, boot, since))
      else
        && (at.Free? ==> idleSince == None)
        && status.seen.nextId in cluster.workers.suspends && cluster.workers.suspends[status.seen.nextId] == p
        && Napped(at, Suspending(from, status, p), turns, current, p, boot, status.seen.nextId, n)
    }

    ghost predicate Handled(
      at: Point, from: Look, turns: seq<Turn>, current: Deployment, p: int, idle: Option<Idle>, status: Look, n: Nap)
      reads this
    {
      if at.TickStatus? then
        at.pod == p && StoppedIn(turns, future, 1, Unusable(at)) && OnlyFencesSince(from)
      else
        && Arrives(turns, 0) && ReadSince(from, status) && p in status.seen.workers.pods
        && Found(at, from, Rest(turns, 1), current, p, idle, status, n)
    }

    /** As `from`, with the suspend request for this pod sent when its status was read. */
    ghost function Suspending(from: Look, status: Look, p: int): Look {
      var w := from.seen.workers;
      from.(seen := from.seen.(workers := w.(suspends := w.suspends[status.seen.nextId := p])))
    }

    /** The resume of a worker that was found suspended was sent and, if the tick has ended
        well, honoured. */
    ghost predicate Recovered(at: Point, from: Look, turns: seq<Turn>, p: int, permit: int, status: Look)
      reads this
    {
      && SentSince(from, None) && NoSuspendSince(from)
      && cluster.workers.resumes == from.seen.workers.resumes + {Resume(p, permit, status.seen.nextId)}
      && if at.Free? then permit in cluster.workers.honoured && idleSince == None
         else at == TickResume(permit) && StoppedIn(turns, future, 1, Unusable(at))
    }

    /** The pods were listed; the tick goes on exactly if there is one, ready and not
        terminating. */
    ghost predicate Picked(
      at: Point, from: Look, turns: seq<Turn>, current: Deployment, idle: Option<Idle>, s: Sight)
      reads this
    {
      if at.TickList? then StoppedIn(turns, future, 1, Unusable(at)) && OnlyFencesSince(from)
      else
        && Arrives(turns, 0) && ReadSince(from, s.listing) && Chosen(s.listing.seen.workers.pods, s.pod)
        && if s.pod.None? then at.Free? && OnlyFencesSince(from) && idleSince == None
           else Handled(at, from, Rest(turns, 1), current, s.pod.value, idle, s.status, s.nap)
    }

    /** With the flag down: the tick is over with connections open or at zero replicas, and
        otherwise goes on to the pods. */
    ghost predicate Looked(at: Point, from: Look, turns: seq<Turn>, idle: Option<Idle>, s: Sight)
      reads this
    {
      if connections > 0 then at.Free? && OnlyFencesSince(from) && idleSince == None
      else if at.TickGet? then StoppedIn(turns, future, 1, Unusable(at)) && OnlyFencesSince(from)
      else
        var d := s.deployment.seen.api.server;
        && Arrives(turns, 0) && ReadSince(from, s.deployment) && d.uid == uid && d.owner == owner
        && if d.replicas == 0 then at.Free? && OnlyFencesSince(from) && idleSince == None
           else d.replicas == 1 && Picked(at, from, Rest(turns, 1), d, idle, s)
    }

    /** The fence of the tick has failed. */
    ghost predicate Unfenced(at: Point, from: Look, turns: seq<Turn>)
      reads this
    {
      && Fencing(at) && at.purpose.Ticking? && OnlyFencesSince(from)
      && StoppedIn(turns, future, if at.FenceGet? then 1 else 2, Unusable(at))
    }

    /** What a tick does that left off at `at`, or ended well if that is `Free`. It started in
        state `from`, with `turns` to come, the interval `idle`, and the flag up if `fence`. */
    ghost predicate Ticked(at: Point, from: Look, turns: seq<Turn>, fence: bool, idle: Option<Idle>, s: Sight)
      reads this
    {
      var behind := if fence then 2 else 0;
      || (fence && Unfenced(at, from, turns))
      || (AllArrive(turns, behind) && Looked(at, from, Rest(turns, behind), idle, s))
    }

    /** A failed tick made this many awaits, and the last was not answered usably; or it sent a
        scale to zero whose answer did not come or did not show that it had taken effect. */
    ghost predicate Excused(at: Point, turns: seq<Turn>, fence: bool, s: Sight)
      reads this
    {
      || StoppedIn(turns, future, TickAwaits(at, fence), Unusable(at))
      || (var m := ScaleTo(s.deployment.seen.api.server, owner, s.nap.reply.seen.nextId, 0);
          && m in cluster.api.sent
          && !(Arrives(turns, if fence then 6 else 4) && m.operation in s.nap.written.seen.api.applied))
    }

    lemma FailureIsExcused(at: Point, from: Look, turns: seq<Turn>, fence: bool, idle: Option<Idle>, s: Sight)
      requires !at.Free? && Ticked(at, from, turns, fence, idle, s)
      ensures Excused(at, turns, fence, s)
    {
      hide Unusable, Handled, ReadSince, Chosen, Rest, Arrives, StoppedIn;
      if !(fence && Unfenced(at, from, turns)) {
        var k := if fence then 2 else 0;
        var behind := Rest(turns, k);
        Further(turns, k, 1, Unusable(at));
        if !at.TickGet? {
          OneTaken(behind);
          Composed(turns, k, 1);
          Further(turns, k + 1, 1, Unusable(at));
          if !at.TickList? {
            OneTaken(Rest(turns, k + 1));
            Composed(turns, k + 1, 1);
            Further(turns, k + 2, if at.TickStatus? then 1 else 2, Unusable(at));
            Composed(turns, k + 2, 2);
            HandledExcused(at, from, Rest(turns, k + 2), s.deployment.seen.api.server, s.pod.value, idle, s.status,
                           s.nap);
          }
        }
      }
    }

    /** Stopping behind `a` answered awaits. */
    lemma Further(turns: seq<Turn>, a: nat, k: nat, unusable: bool)
      requires AllArrive(turns, a)
      ensures StoppedIn(Rest(turns, a), future, k, unusable) ==> StoppedIn(turns, future, a + k, unusable)
    {
      Later(turns, Rest(turns, a), future, a, k, unusable);
    }

    lemma HandledExcused(
      at: Point, from: Look, turns: seq<Turn>, current: Deployment, p: int, idle: Option<Idle>, status: Look, n: Nap)
      requires !at.Free? && Handled(at, from, turns, current, p, idle, status, n)
      ensures var m := ScaleTo(current, owner, n.reply.seen.nextId, 0);
              || ((at.TickStatus? || at.TickSuspend? || at.TickResume?)
                  && StoppedIn(turns, future, if at.TickStatus? then 1 else 2, Unusable(at)))
              || (m in cluster.api.sent && !(Arrives(turns, 2) && m.operation in n.written.seen.api.applied))
    {
      hide Unusable, Undone, ReadSince, Rest, Arrives, StoppedIn, SinceOf;
      if !at.TickStatus? {
        OneTaken(turns);
        Further(turns, 1, 1, Unusable(at));
        Composed(turns, 1, 1);
        Composed(Rest(turns, 1), 1, 0);
        Composed(turns, 2, 0);
      }
    }

    /** The forward half: a tick that has not stopped earlier sends the suspend request when
        what it read shows one replica, one ready pod, its gate open and no session, and the
        interval of that pod and boot as old as the timeout; and when the answer to that
        request shows a permit, it sends the scale to zero against the version it read. */
    lemma IdleWorkerIsPutToSleep(
      at: Point, from: Look, turns: seq<Turn>, fence: bool, idle: Option<Idle>, s: Sight, p: int)
      requires Ticked(at, from, turns, fence, idle, s) && connections <= 0
      requires at.Free? || at.TickSuspend? || Undoing(at)
      requires s.deployment.seen.api.server.replicas == 1 && OnlyReady(s.listing.seen.workers.pods, p)
      requires p in s.status.seen.workers.pods
      requires var pod := s.status.seen.workers.pods[p];
               && pod.permit.None? && pod.sessions <= 0
               && s.status.seen.now - SinceOf(idle, p, pod.boot, s.status.seen.now) >= cfg.idleTimeout
      ensures var request := s.status.seen.nextId;
              && request in cluster.workers.suspends && cluster.workers.suspends[request] == p
              && (at.TickSuspend? ==> Excused(at, turns, fence, s))
              && (!at.TickSuspend? && s.nap.answer.permit.Some? ==>
                    exists m :: m in cluster.api.sent && m.replicas == Some(0)
                                && m.version == s.deployment.seen.api.server.version && m.owner == owner)
    {
      hide Unusable, StoppedIn, Rest, ReadSince, Excused, Undone;
      if at.TickSuspend? {
        FailureIsExcused(at, from, turns, fence, idle, s);
      }
    }

    /** The worker may have idled long enough to be put to sleep. The result tells success
        from failure; after a failure the idle task still has to clear the interval. */
    method IdleTick() returns (ok: bool, ghost s: Sight)
      requires Valid() && view.at == Free && view.ticking
      modifies `needsFence, `idleSince, `view, `cluster, `future, `past, `settled
      ensures Valid() && Continues() && SentWithCare() && SameTask()
      ensures if ok then view.at == Free else Failing(view.at)
      ensures ok ==> |view.log| > |old(view.log)|
      ensures Ticked(view.at, old(Now()), old(future), old(needsFence), old(idleSince), s)
      ensures !ok ==> Excused(view.at, old(future), old(needsFence), s)
    {
      hide Reaches, Run, ControllerMove, Rest, Arrives, AllArrive, StoppedIn, Unusable, AllStale, Looked, Excused;
      ghost var from := Now();
      s := Unseen(from);
      ok := EnterTick();
      if ok {
        ghost var mid, turns := Now(), future;
        ok, s := LookAround();
        LookedEarlier(view.at, from, mid, turns, old(idleSince), s);
      }
      if !ok {
        FailureIsExcused(view.at, from, old(future), old(needsFence), old(idleSince), s);
      }
    }

    /** The tick behind its fence: nothing is done with connections open or at zero replicas. */
    method LookAround() returns (ok: bool, ghost s: Sight)
      requires Valid() && view.at == TickEntry && !needsFence
      modifies `needsFence, `idleSince, `view, `cluster, `future, `past, `settled
      ensures Valid() && Continues() && SentWithCare() && SameTask()
      ensures if ok then view.at == Free else view.at.TickGet? || Beyond(view.at)
      ensures ok ==> |view.log| > |old(view.log)|
      ensures Looked(view.at, old(Now()), old(future), old(idleSince), s)
    {
      hide Reaches, Run, ControllerMove, Rest, Arrives, AllArrive, StoppedIn, Unusable, AllStale, Picked;
      ghost var from := Now();
      s := Unseen(from);
      if connections > 0 {
        TickEntryMoves(cfg, settled, owner, Self());
        EndInterval(NoHint);
        return true, s;
      }
      OneTaken(future);
      ghost var deployment;
      var current;
      current, deployment := TickRead();
      s := s.(deployment := deployment);
      if current.Err? {
        return false, s;
      }
      if current.value.replicas == 0 {
        return true, s;
      }
      ghost var mid, turns := Now(), future;
      ok, s := TickPod(current.value, s);
      PickedEarlier(view.at, from, mid, turns, current.value, old(idleSince), s);
    }

    /** The tick ends well, but without leaving an idle interval running. */
    method EndInterval(ghost hint: Hint)
      requires Valid() && InTick(view.at)
      requires ControllerMove(cfg, settled, owner, Self(), Proceed(owner, hint))
            == Some(Move(EndTick(Self(), NotIdle), NoRequest))
      modifies `idleSince, `view, `cluster, `past, `settled
      ensures Valid() && Continues() && SameTask() && idleSince == None
      ensures cluster.api == old(cluster.api) && cluster.workers == old(cluster.workers)
      ensures view.at == Free && view.log == old(view.log) + [NotIdle]
    {
      hide Reaches, Run, ControllerMove, AllStale;
      ghost var before := Self();
      idleSince := None;
      view := EndTick(view, NotIdle);
      Send(before, Proceed(owner, hint), NoRequest);
    }

    // ---------- what holds since a state holds since an earlier one ----------

    lemma UndoneEarlier(
      at: Point, from: Look, mid: Look, turns: seq<Turn>, p: int, permit: int, observed: Look)
      requires from.when <= mid.when && mid.seen.workers.resumes == from.seen.workers.resumes
      requires Undone(at, mid, turns, p, permit, observed)
      ensures Undone(at, from, turns, p, permit, observed)
    {
      hide Unusable, StoppedIn, Arrives, FencedBehind;
    }

    lemma WrittenEarlier(
      at: Point, from: Look, mid: Look, turns: seq<Turn>, m: Patch, p: int, permit: int, written: Look, observed: Look)
      requires OnlyFences(from, mid) && Written(at, mid, turns, m, p, permit, written, observed)
      ensures Written(at, from, turns, m, p, permit, written, observed)
    {
      hide Undone, Arrives, AllStale;
      if !at.Free? {
        UndoneEarlier(at, from, mid, Rest(turns, 1), p, permit, observed);
      }
    }

    lemma NappedEarlier(
      at: Point, from: Look, mid: Look, turns: seq<Turn>, current: Deployment, p: int, boot: int, request: int, n: Nap)
      requires OnlyFences(from, mid) && Napped(at, mid, turns, current, p, boot, request, n)
      ensures Napped(at, from, turns, current, p, boot, request, n)
    {
      hide Written, Unusable, StoppedIn, Arrives;
      if !at.TickSuspend? && n.answer.permit.Some? {
        WrittenEarlier(at, from, mid, Rest(turns, 1), ScaleTo(current, owner, n.reply.seen.nextId, 0), p,
                       n.answer.permit.value, n.written, n.observed);
      }
    }

    lemma FoundEarlier(
      at: Point, from: Look, mid: Look, turns: seq<Turn>, current: Deployment, p: int, idle: Option<Idle>,
      status: Look, n: Nap)
      requires p in status.seen.workers.pods
      requires OnlyFences(from, mid) && Found(at, mid, turns, current, p, idle, status, n)
      ensures Found(at, from, turns, current, p, idle, status, n)
    {
      hide Napped, Unusable, StoppedIn, Arrives;
      var boot := status.seen.workers.pods[p].boot;
      if Napped(at, Suspending(mid, status, p), turns, current, p, boot, status.seen.nextId, n) {
        NappedEarlier(at, Suspending(from, status, p), Suspending(mid, status, p), turns, current, p, boot,
                      status.seen.nextId, n);
      }
    }

    lemma HandledEarlier(
      at: Point, from: Look, mid: Look, turns: seq<Turn>, current: Deployment, p: int, idle: Option<Idle>,
      status: Look, n: Nap)
      requires OnlyFences(from, mid) && Handled(at, mid, turns, current, p, idle, status, n)
      ensures Handled(at, from, turns, current, p, idle, status, n)
    {
      hide Found, Unusable, StoppedIn, Arrives;
      if !at.TickStatus? {
        FoundEarlier(at, from, mid, Rest(turns, 1), current, p, idle, status, n);
      }
    }

    lemma PickedEarlier(
      at: Point, from: Look, mid: Look, turns: seq<Turn>, current: Deployment, idle: Option<Idle>, s: Sight)
      requires OnlyFences(from, mid) && Picked(at, mid, turns, current, idle, s)
      ensures Picked(at, from, turns, current, idle, s)
    {
      hide Handled, Unusable, StoppedIn, Arrives, Chosen;
      if !at.TickList? && s.pod.Some? {
        HandledEarlier(at, from, mid, Rest(turns, 1), current, s.pod.value, idle, s.status, s.nap);
      }
    }

    lemma LookedEarlier(at: Point, from: Look, mid: Look, turns: seq<Turn>, idle: Option<Idle>, s: Sight)
      requires OnlyFences(from, mid) && Looked(at, mid, turns, idle, s)
      ensures Looked(at, from, turns, idle, s)
    {
      hide Picked, Unusable, StoppedIn, Arrives;
      var d := s.deployment.seen.api.server;
      if Picked(at, mid, Rest(turns, 1), d, idle, s) {
        PickedEarlier(at, from, mid, Rest(turns, 1), d, idle, s);
      }
    }

    // ---------- the parts of a tick ----------

    /** The flag is lowered first, if it is up. */
    method EnterTick() returns (ok: bool)
      requires Valid() && view.at == Free && view.ticking
      modifies `needsFence, `view, `cluster, `future, `past, `settled
      ensures Valid() && Continues() && OnlyFenced() && view == old(view).(at := view.at)
      ensures OnlyFencesSince(old(Now()))
      ensures if ok then view.at == TickEntry && !needsFence && Answered(if old(needsFence) then 2 else 0)
              else old(needsFence) && Fencing(view.at) && view.at.purpose.Ticking?
                   && Stopped(if view.at.FenceGet? then 1 else 2, view.at)
    {
      hide Reaches, Run, AllStale, ControllerMove, Arrives, Unusable, StoppedIn;
      BeginMoves(cfg, settled, owner, Self());
      ghost var before := Self();
      view := view.(at := if needsFence then FenceGet(Ticking) else TickEntry);
      Send(before, BeginTick(owner), NoRequest);
      NoneTaken(future);
      if !needsFence {
        return true;
      }
      ok := Fence(Ticking);
    }

    /** The tick's read of the Deployment; at zero replicas the tick is over. */
    method TickRead() returns (current: Result<Deployment>, ghost deployment: Look)
      requires Valid() && view.at == TickEntry && connections <= 0
      modifies `idleSince, `view, `cluster, `future, `past, `settled
      ensures Valid() && Continues() && Silent() && SameTask()
      ensures current.Ok? ==> if current.value.replicas == 0 then view.at == Free && idleSince == None
                              else current.value.replicas == 1 && view.at == TickList(current.value)
      ensures current.Ok? ==> Read(deployment) && deployment.seen.api.server == current.value && Answered(1)
                              && current.value.uid == uid && (!needsFence ==> current.value.owner == owner)
      ensures current.Err? ==> view.at == TickGet && Stopped(1, view.at)
      ensures view.at != Free ==> idleSince == old(idleSince)
      ensures view.log == old(view.log) + if view.at == Free then [NotIdle] else []
    {
      hide Reaches, Run, ControllerMove, AllStale, Rest, Arrives;
      BeginRead();
      OneTaken(future);
      current := Current();
      ReadNow();
      deployment := Now();
      if current.Err? || (current.value.replicas != 0 && current.value.replicas != 1) {
        current := Err;
        return;
      }
      TickGetMoves(cfg, settled, owner, Self());
      if current.value.replicas == 0 {
        EndInterval(NoHint);
        return;
      }
      GoOn(NoHint, TickList(current.value));
    }

    method BeginRead()
      requires Valid() && view.at == TickEntry && connections <= 0
      modifies `view, `cluster, `past, `settled
      ensures Valid() && Continues() && view == old(view).(at := TickGet)
      ensures cluster.api == old(cluster.api) && cluster.workers == old(cluster.workers)
    {
      hide Reaches, Run, ControllerMove, AllStale;
      TickEntryMoves(cfg, settled, owner, Self());
      GoOn(NoHint, TickGet);
    }

    /** Look for the one ready pod, and at its status. */
    method TickPod(current: Deployment, ghost before: Sight) returns (ok: bool, ghost s: Sight)
      requires Valid() && view.at == TickList(current) && connections <= 0
      modifies `needsFence, `idleSince, `view, `cluster, `future, `past, `settled
      ensures Valid() && Continues() && SameTask()
      ensures if ok then view.at == Free
              else Beyond(view.at)
      ensures ok ==> |view.log| > |old(view.log)|
      ensures Picked(view.at, old(Now()), old(future), current, old(idleSince), s) && s.deployment == before.deployment
    {
      hide Reaches, Run, ControllerMove, AllStale, Rest, Arrives, AllArrive, StoppedIn, Unusable, Handled, Chosen;
      hide ReadyBackend, NoReadyBackend;
      OneTaken(future);
      ghost var from := Now();
      var pod := ReadyPod();
      ReadNow();
      s := before.(listing := Now());
      if pod.Err? {
        Unanswered(old(future), future, 1, Unusable(view.at));
        return false, s;
      }
      s := s.(pod := pod.value);
      TickListedMoves(cfg, settled, owner, Self(), pod.value);
      if pod.value.None? {
        EndInterval(NoHint);
        return true, s;
      }
      GoOn(OnlyPod(pod.value.value), TickStatus(current, pod.value.value));
      ghost var mid, turns := Now(), future;
      ghost var status, nap;
      ok, status, nap := TickWorker(current, pod.value.value);
      s := s.(status := status, nap := nap);
      HandledEarlier(view.at, from, mid, turns, current, pod.value.value, old(idleSince), status, nap);
    }

    /** A suspended worker is resumed, a busy one ends the interval, and one that has been
        idle for the whole timeout is suspended. */
    method TickWorker(current: Deployment, p: int) returns (ok: bool, ghost status: Look, ghost nap: Nap)
      requires Valid() && view.at == TickStatus(current, p) && connections <= 0
      modifies `needsFence, `idleSince, `view, `cluster, `future, `past, `settled
      ensures Valid() && Continues() && SameTask()
      ensures if ok then view.at == Free else view.at.TickStatus? || view.at.TickSuspend? || Undoing(view.at)
      ensures ok ==> |view.log| > |old(view.log)|
      ensures Handled(view.at, old(Now()), old(future), current, p, old(idleSince), status, nap)
    {
      hide Reaches, Run, ControllerMove, AllStale, Rest, AllArrive, Found;
      OneTaken(future);
      ghost var from := Now();
      var arrives := Await();
      ReadNow();
      status, nap := Now(), NoNap(Now());
      if !arrives || p !in cluster.workers.pods {
        ok := false;
        return;
      }
      ghost var turns := future;
      ok, nap := TickFound(current, p);
      FoundEarlier(view.at, from, status, turns, current, p, old(idleSince), status, nap);
    }

    /** The worker's status has come. */
    method TickFound(current: Deployment, p: int) returns (ok: bool, ghost nap: Nap)
      requires Valid() && view.at == TickStatus(current, p) && connections <= 0 && p in cluster.workers.pods
      modifies `needsFence, `idleSince, `view, `cluster, `future, `past, `settled
      ensures Valid() && Continues() && SameTask()
      ensures if ok then view.at == Free else view.at.TickSuspend? || Undoing(view.at)
      ensures ok ==> |view.log| > |old(view.log)|
      ensures Found(view.at, old(Now()), old(future), current, p, old(idleSince), old(Now()), nap)
    {
      hide Reaches, Run, ControllerMove, AllStale, Rest, Arrives, AllArrive, StoppedIn, Unusable, Idled, SinceOf;
      nap := NoNap(Now());
      TickStatusMoves(cfg, settled, owner, Self());
      var found := StatusOf(cluster.workers.pods[p]);
      if found.permit.Some? {
        SendResume(p, found.permit.value);
        ok := Recover(found.permit.value);
        return;
      }
      if found.busy {
        EndInterval(NoHint);
        ok := true;
        return;
      }
      ok, nap := TickIdle(current, p, found.boot);
    }

    /** The worker is idle: start or continue the interval, and suspend it at its end. */
    method TickIdle(current: Deployment, p: int, boot: int) returns (ok: bool, ghost nap: Nap)
      requires Valid() && view.at == TickStatus(current, p) && connections <= 0
      requires p in cluster.workers.pods && StatusOf(cluster.workers.pods[p]) == Status(boot, false, None)
      modifies `needsFence, `idleSince, `view, `cluster, `future, `past, `settled
      ensures Valid() && Continues() && SameTask()
      ensures if ok then view.at == Free else view.at.TickSuspend? || Undoing(view.at)
      ensures ok ==> |view.log| > |old(view.log)|
      ensures Idled(view.at, old(Now()), old(future), current, p, boot,
                    SinceOf(old(idleSince), p, boot, old(cluster.now)), old(Now()), nap)
    {
      hide Reaches, Run, ControllerMove, AllStale, IdleFrom, SinceOf, Napped, StoppedIn, Unusable, Rest, Arrives;
      hide AllArrive;
      nap := NoNap(Now());
      ghost var from := Suspending(Now(), Now(), p);
      ghost var before := Self();
      var since := NoteIdle(p, boot);
      var request := cluster.nextId;
      var due := cluster.now - since >= cfg.idleTimeout;
      SendIdle(before, current, p, boot, since, if due then SuspendRequest(p) else NoRequest);
      if !due {
        return true, nap;
      }
      ghost var mid, turns := Now(), future;
      ok, nap := Sleep(current, p, boot, request);
      NappedEarlier(view.at, from, mid, turns, current, p, boot, request, nap);
    }

    /** The observation is recorded, and the tick is over or, with the interval as old as the
        timeout, asks for the suspension. */
    method SendIdle(ghost c: Controller, current: Deployment, p: int, boot: int, since: int, r: Request)
      requires SettledAs(c) && view.uid == uid && Self() == c.(idleSince := Some(Idle(p, boot, since)))
      requires view.at == TickStatus(current, p) && since == IdleFrom(c, p, boot, cluster.now)
      requires p in cluster.workers.pods && StatusOf(cluster.workers.pods[p]) == Status(boot, false, None)
      requires r == if cluster.now - since >= cfg.idleTimeout then SuspendRequest(p) else NoRequest
      modifies `view, `cluster, `past, `settled
      ensures Valid() && Continues() && cluster.api == old(cluster.api)
      ensures cluster.workers == WorkersAfter(old(cluster.workers), r, old(cluster.nextId))
      ensures view == old(view).(at := if r.NoRequest? then Free else TickSuspend(current, p, boot, old(cluster.nextId)),
                                 log := old(view.log) + [SawIdle(p, boot, old(cluster.now))])
    {
      hide Reaches, Run, ControllerMove, AllStale, IdleFrom;
      TickIdleMoves(cfg, settled, owner, c, p, boot, since);
      view := view.(at := if r.NoRequest? then Free else TickSuspend(current, p, boot, cluster.nextId),
                    log := view.log + [SawIdle(p, boot, cluster.now)]);
      Send(c, Proceed(owner, NoHint), r);
    }

    /** The interval goes on if it was for this pod and boot, and otherwise starts now. */
    method NoteIdle(p: int, boot: int) returns (since: int)
      modifies `idleSince
      ensures idleSince == Some(Idle(p, boot, since))
      ensures since == SinceOf(old(idleSince), p, boot, cluster.now) == IdleFrom(old(Self()), p, boot, cluster.now)
    {
      since := cluster.now;
      if idleSince.Some? && idleSince.value.pod == p && idleSince.value.boot == boot {
        since := idleSince.value.since;
      } else {
        idleSince := Some(Idle(p, boot, since));
      }
    }

    /** A resume goes out. */
    method SendResume(p: int, permit: int)
      requires Valid() && InTick(view.at)
      requires ControllerMove(cfg, settled, owner, Self(), Proceed(owner, NoHint))
            == Some(Move(Self().(at := TickResume(permit)), ResumeRequest(p, permit)))
      modifies `view, `cluster, `past, `settled
      ensures Valid() && Continues() && cluster.api == old(cluster.api) && Unsuspended()
      ensures cluster.workers.resumes == old(cluster.workers.resumes) + {Resume(p, permit, old(cluster.nextId))}
      ensures view == old(view).(at := TickResume(permit))
    {
      hide Reaches, Run, ControllerMove, AllStale;
      ghost var before := Self();
      view := view.(at := TickResume(permit));
      Send(before, Proceed(owner, NoHint), ResumeRequest(p, permit));
    }

    /** Recovery of a worker found suspended: its resume is awaited. */
    method Recover(permit: int) returns (ok: bool)
      requires Valid() && view.at == TickResume(permit)
      modifies `idleSince, `view, `cluster, `future, `past, `settled
      ensures Valid() && Continues() && SameTask() && Silent()
      ensures if ok then view.at == Free && idleSince == None && permit in cluster.workers.honoured
              else view == old(view) && Stopped(1, view.at)
      ensures ok ==> view.log == old(view.log) + [NotIdle]
    {
      hide Reaches, Run, AllStale, Rest, Arrives;
      var arrives := Await();
      if !arrives || permit !in cluster.workers.honoured {
        return false;
      }
      EndInterval(NoHint);
      return true;
    }

    /** The suspend request is answered: if the gate closed, scale to zero; when the outcome
        of that write is not known, fence it off before the worker is resumed. */
    method Sleep(current: Deployment, p: int, boot: int, request: int) returns (ok: bool, ghost nap: Nap)
      requires Valid() && view.at == TickSuspend(current, p, boot, request) && connections <= 0
      modifies `needsFence, `idleSince, `view, `cluster, `future, `past, `settled
      ensures Valid() && Continues() && SameTask() && Unsuspended()
      ensures if ok then view.at == Free && idleSince == None else view.at.TickSuspend? || Undoing(view.at)
      ensures ok ==> view.log == old(view.log) + [NotIdle]
      ensures Napped(view.at, old(Now()), old(future), current, p, boot, request, nap)
    {
      hide Reaches, Run, ControllerMove, AllStale, Rest, AllArrive, Written;
      ghost var from := Now();
      var arrives := Await();
      ReadNow();
      nap := NoNap(Now());
      if !arrives || !exists x :: x in cluster.workers.answers && x.request == request {
        ok := false;
        return;
      }
      var answer :| answer in cluster.workers.answers && answer.request == request;
      var suspended := answer.status;
      nap := nap.(answer := suspended);
      SuspendedMoves(cfg, settled, owner, Self(), suspended);
      if suspended.permit.None? {
        EndInterval(Reply(suspended));
        ok := true;
        return;
      }
      if suspended.busy || suspended.boot != boot {
        ok := false;
        return;
      }
      ghost var mid, turns := Now(), future;
      ghost var written, observed;
      ok, written, observed := ScaleDown(current, p, boot, request, suspended);
      nap := nap.(written := written, observed := observed);
      WrittenEarlier(view.at, from, mid, turns, ScaleTo(current, owner, mid.seen.nextId, 0), p,
                     suspended.permit.value, written, observed);
    }

    /** The scale to zero, against the version read at the start of the tick. */
    method ScaleDown(current: Deployment, p: int, boot: int, request: int, suspended: Status)
      returns (ok: bool, ghost written: Look, ghost observed: Look)
      requires Valid() && view.at == TickSuspend(current, p, boot, request) && connections <= 0
      requires Answer(request, suspended) in cluster.workers.answers
      requires suspended.permit.Some? && !suspended.busy && suspended.boot == boot
      modifies `needsFence, `idleSince, `view, `cluster, `future, `past, `settled
      ensures Valid() && Continues() && SameTask() && Unsuspended()
      ensures if ok then view.at == Free && idleSince == None else Undoing(view.at)
      ensures ok ==> view.log == old(view.log) + [NotIdle]
      ensures Written(view.at, old(Now()), old(future), ScaleTo(current, owner, old(cluster.nextId), 0), p,
                      suspended.permit.value, written, observed)
    {
      hide Reaches, Run, ControllerMove, AllStale, Rest, Undone;
      SuspendedMoves(cfg, settled, owner, Self(), suspended);
      ghost var from, before := Now(), Self();
      var m := PatchOf(current, owner, cluster.nextId, Some(0));
      needsFence := true;
      view := view.(at := TickScale(p, suspended.permit.value, m));
      ok := Patch(before, Reply(suspended), SleepRequest(m, p, boot), m);
      ReadNow();
      written := Now();
      ghost var mid, turns := Now(), future;
      ok, observed := AfterSleep(ok, p, suspended.permit.value);
      if !ok {
        UndoneEarlier(view.at, from, mid, turns, p, suspended.permit.value, observed);
      }
    }

    method AfterSleep(applied: bool, p: int, permit: int) returns (ok: bool, ghost observed: Look)
      requires Valid() && view.at.TickScale? && view.at.pod == p && view.at.permit == permit && needsFence
      requires applied ==> view.at.patch.operation in cluster.api.applied
      modifies `needsFence, `idleSince, `view, `cluster, `future, `past, `settled
      ensures Valid() && Continues() && SameTask() && OnlyFenced() && Unsuspended()
      ensures if ok then view.at == Free && idleSince == None && !needsFence && Unresumed()
              else Undoing(view.at)
      ensures ok == applied && (ok ==> view.log == old(view.log) + [NotIdle])
      ensures !needsFence ==> ok || AllStale(cluster.api)
      ensures !ok ==> Undone(view.at, old(Now()), old(future), p, permit, observed)
    {
      hide Reaches, Run, ControllerMove, AllStale, Undone;
      SleptMoves(cfg, settled, owner, Self());
      ghost var from, before := Now(), Self();
      observed := from;
      if applied {
        needsFence := false;
        idleSince := None;
        view := EndTick(view, NotIdle);
        Send(before, Proceed(owner, NoHint), NoRequest);
        return true, observed;
      }
      view := view.(at := FenceGet(Rollback(p, permit)));
      Send(before, Fail(owner), NoRequest);
      ghost var mid, turns := Now(), future;
      observed := UndoSleep(p, permit);
      UndoneEarlier(view.at, from, mid, turns, p, permit, observed);
      return false, observed;
    }

    /** After the fence, if one replica is still wanted, the worker is resumed. */
    method UndoSleep(p: int, permit: int) returns (ghost observed: Look)
      requires Valid() && view.at == FenceGet(Rollback(p, permit)) && needsFence
      modifies `needsFence, `view, `cluster, `future, `past, `settled
      ensures Valid() && Continues() && SameTask() && OnlyFenced() && Unsuspended()
      ensures Undoing(view.at)
      ensures !needsFence ==> AllStale(cluster.api)
      ensures Undone(view.at, old(Now()), old(future), p, permit, observed)
    {
      hide Reaches, Run, ControllerMove, AllStale, Rest, Arrives, AllArrive, StoppedIn, Unusable;
      observed := Now();
      var ok := Fence(Rollback(p, permit));
      if ok {
        Composed(old(future), 2, 0);
        observed := ResumeIfWanted(p, permit);
      } else {
        Trusted();
      }
    }

    /** The worker is resumed exactly if one replica is still wanted. */
    method ResumeIfWanted(p: int, permit: int) returns (ghost observed: Look)
      requires Valid() && view.at == TickObserve(p, permit) && !needsFence
      modifies `view, `cluster, `future, `past, `settled
      ensures Valid() && Continues() && SameTask() && cluster.api.sent == old(cluster.api.sent) && Unsuspended()
      ensures AllStale(cluster.api) && (view.at.TickObserve? || view.at.TickResume?)
      ensures Read(observed) && FencedBehind(observed.when)
      ensures var d := observed.seen.api.server;
              cluster.workers.resumes == old(cluster.workers.resumes)
                + if Arrives(old(future), 0) && d.uid == uid && d.owner == owner && d.replicas == 1
                  then {Resume(p, permit, observed.seen.nextId)} else {}
    {
      hide Reaches, Run, ControllerMove, AllStale, Rest, Arrives;
      var current := Current();
      ReadNow();
      observed := Now();
      if current.Ok? && current.value.replicas == 1 {
        ObservedMoves(cfg, settled, owner, Self());
        SendResume(p, permit);
        var arrives := Await();
      }
      Trusted();
    }

    // ---------- the tasks of the program ----------

    /** The start of the process, once its first fence is awaited. */
    method Open() returns (ok: bool)
      requires Valid() && view.at == FenceGet(Serve) && needsFence
      modifies `needsFence, `view, `cluster, `future, `past, `settled
      ensures Valid() && Continues() && SameTask()
      ensures if ok then Serving() && AllStale(cluster.api) && !needsFence && Answered(2)
              else Fencing(view.at) && Stopped(if view.at.FenceGet? then 1 else 2, view.at)
    {
      ok := Fence(Serve);
    }

    /** No operation holds the mutex. */
    ghost predicate Serving()
      reads this
    {
      view.at == Free
    }

    /** Nothing was sent or read meanwhile, and no flag or count changed. */
    twostate predicate GaveUp()
      reads this
    {
      && Continues() && future == old(future) && needsFence == old(needsFence) && connections == old(connections)
      && cluster.api == old(cluster.api) && cluster.workers == old(cluster.workers)
    }

    twostate lemma WrittenStays(
      new at: Point, new from: Look, new turns: seq<Turn>, new m: Patch, new p: int, new permit: int,
      new written: Look, new observed: Look)
      requires !at.Free? && GaveUp()
      ensures old(Written(at, from, turns, m, p, permit, written, observed)) ==>
                Written(at, from, turns, m, p, permit, written, observed)
    {
      hide StoppedIn, Rest, Arrives, AllStale, Unusable;
      UnusableStays(at);
    }

    twostate lemma HandledStays(
      new at: Point, new from: Look, new turns: seq<Turn>, new current: Deployment, new p: int, new idle: Option<Idle>,
      new status: Look, new n: Nap)
      requires !at.Free? && GaveUp()
      ensures old(Handled(at, from, turns, current, p, idle, status, n)) ==>
                Handled(at, from, turns, current, p, idle, status, n)
    {
      hide StoppedIn, Rest, Arrives, SinceOf, Unusable, Written;
      UnusableStays(at);
      if p in status.seen.workers.pods && n.answer.permit.Some? {
        WrittenStays(at, Suspending(from, status, p), Rest(Rest(turns, 1), 1),
                     ScaleTo(current, owner, n.reply.seen.nextId, 0), p, n.answer.permit.value, n.written, n.observed);
      }
    }

    twostate lemma UnusableStays(new at: Point)
      requires cluster.api == old(cluster.api) && cluster.workers == old(cluster.workers)
      requires needsFence == old(needsFence)
      ensures Unusable(at) == old(Unusable(at))
    {
    }

    twostate lemma ExcusedStays(new at: Point, new turns: seq<Turn>, new fence: bool, new s: Sight)
      requires GaveUp() && old(Excused(at, turns, fence, s))
      ensures Excused(at, turns, fence, s)
    {
      hide StoppedIn, Arrives, Unusable;
      UnusableStays(at);
    }

    /** What holds of a tick when it fails still holds when it is given up. */
    twostate lemma TickedStays(
      new at: Point, new from: Look, new turns: seq<Turn>, new fence: bool, new idle: Option<Idle>, new s: Sight)
      requires !at.Free? && GaveUp() && old(Ticked(at, from, turns, fence, idle, s))
      ensures Ticked(at, from, turns, fence, idle, s)
    {
      hide Rest, Arrives, AllArrive, Looked, Unfenced;
      UnfencedStays(at, from, turns);
      LookedStays(at, from, Rest(turns, if fence then 2 else 0), idle, s);
    }

    twostate lemma UnfencedStays(new at: Point, new from: Look, new turns: seq<Turn>)
      requires GaveUp()
      ensures old(Unfenced(at, from, turns)) ==> Unfenced(at, from, turns)
    {
      hide StoppedIn, Unusable;
      UnusableStays(at);
    }

    twostate lemma LookedStays(
      new at: Point, new from: Look, new turns: seq<Turn>, new idle: Option<Idle>, new s: Sight)
      requires !at.Free? && GaveUp()
      ensures old(Looked(at, from, turns, idle, s)) ==> Looked(at, from, turns, idle, s)
    {
      hide StoppedIn, Rest, Arrives, Chosen, Handled, Unusable;
      UnusableStays(at);
      if s.pod.Some? {
        HandledStays(at, from, Rest(Rest(turns, 1), 1), s.deployment.seen.api.server, s.pod.value, idle, s.status,
                     s.nap);
      }
    }

    /** The idle task's turn: a tick that reports an error leaves no idle interval. */
    method TickTask() returns (ghost at: Point, ghost s: Sight)
      requires Valid() && Serving() && view.ticking
      modifies `needsFence, `idleSince, `view, `cluster, `future, `past, `settled
      ensures Valid() && Continues() && SentWithCare() && SameTask() && Serving()
      ensures |view.log| > |old(view.log)|
      ensures Ticked(at, old(Now()), old(future), old(needsFence), old(idleSince), s)
      ensures at.Free? || (Excused(at, old(future), old(needsFence), s) && idleSince == None)
    {
      hide Reaches, Run, Ticked, Excused;
      ghost var from, turns, fence, idle := Now(), future, needsFence, idleSince;
      var ok;
      ok, s := IdleTick();
      at := view.at;
      if !ok {
        Refuse(from, turns, fence, idle, s);
      }
    }

    /** The idle check is refused: its interval is cleared. */
    method Refuse(ghost from: Look, ghost turns: seq<Turn>, ghost fence: bool, ghost idle: Option<Idle>, ghost s: Sight)
      requires Valid() && Failing(view.at)
      requires Ticked(view.at, from, turns, fence, idle, s) && Excused(view.at, turns, fence, s)
      modifies `idleSince, `view, `cluster, `past, `settled
      ensures Valid() && Serving() && idleSince == None && GaveUp()
      ensures view.log == old(view.log) + [TickFailed]
      ensures view.open == old(view.open) && view.ticking == old(view.ticking)
      ensures Ticked(old(view.at), from, turns, fence, idle, s) && Excused(old(view.at), turns, fence, s)
    {
      hide Reaches, Run, Ticked, Excused;
      ghost var before := Self();
      idleSince := None;
      view := EndTick(view, TickFailed);
      Send(before, Fail(owner), NoRequest);
      TickedStays(before.at, from, turns, fence, idle, s);
      ExcusedStays(before.at, turns, fence, s);
    }

    /** A client has sent its first byte: the count goes up, and down again if waking fails. */
    method Connect() returns (r: Result<int>, ghost deployment: Look, ghost listing: Look, ghost stop: Stop)
      requires Valid() && Serving()
      modifies `needsFence, `connections, `idleSince, `view, `cluster, `future, `past, `settled
      ensures Valid() && Continues() && Serving() && view.ticking == old(view.ticking) && idleSince == None
      ensures view.log == old(view.log) + [WakeStarted]
      ensures r.Ok? ==> connections == old(connections) + 1 && view.open == old(view.open) + [r.value]
                        && HandedOut(r.value)
      ensures r.Ok? ==> Read(listing) && OnlyReady(listing.seen.workers.pods, r.value)
      ensures r.Err? ==> connections == old(connections) && view.open == old(view.open) && WakeFailed(stop)
      ensures r.Err? && !Awaiting(stop.at) && cfg.coldStart > 0 ==>
                Read(deployment) && Read(listing) && Turned(None, deployment.seen.api.server, listing.seen)
    {
      hide Reaches, Run, StoppedIn, Rest, WakeAwaits, Chosen;
      connections := connections + 1;
      r, deployment, listing, stop := Wake();
      if r.Err? {
        Release(stop.at);
      }
    }

    /** Waking failed, so the connection is not counted any more. */
    method Release(ghost at: Point)
      requires Valid() && GivesUp()
      modifies `connections, `view, `cluster, `past, `settled
      ensures Valid() && Continues() && Serving() && SameTask() && connections == old(connections) - 1
      ensures cluster.api == old(cluster.api) && view.log == old(view.log) && Unusable(at) == old(Unusable(at))
    {
      hide Reaches, Run, Unusable;
      ghost var before := Self();
      connections := connections - 1;
      view := view.(at := Free);
      Send(before, Fail(owner), NoRequest);
      UnusableStays(at);
    }

    /** A connection ends: its place in the count is released and the interval ended. */
    method Disconnect(ghost k: nat)
      requires Valid() && Serving() && k < |view.open|
      modifies `connections, `idleSince, `view, `cluster, `past, `settled
      ensures Valid() && Continues() && Serving() && view.ticking == old(view.ticking) && idleSince == None
      ensures connections == old(connections) - 1 && view.open == old(view.open[..k] + view.open[k + 1..])
      ensures view.log == old(view.log) + [ConnectionEnded]
      ensures cluster.api == old(cluster.api) && cluster.workers == old(cluster.workers)
    {
      hide Reaches, Run;
      ghost var before := Self();
      connections := connections - 1;
      idleSince := None;
      view := view.(idleSince := None, log := view.log + [ConnectionEnded],
                    open := view.open[..k] + view.open[k + 1..]);
      Send(before, EndConnection(owner, k), NoRequest);
    }

    /** Between tasks the count is exactly the number of open connections, and while one is
        open no scale-to-zero that was ever sent can take effect. */
    lemma CountIsExact()
      requires Valid() && Serving()
      ensures connections == |view.open|
      ensures view.open != [] ==> forall m | m in cluster.api.sent && m.replicas == Some(0) ::
                                    !CanApply(cluster.api.server, m)
    {
      LocalAlways(cfg, first, past);
      SafeAlways(cfg, first, past);
      assert LocalOk(cfg, settled, settled.live[owner]);
      assert forall m | m in cluster.api.sent :: LivePatch(settled, m);
    }

    /** The program: connections come and go and the idle task ticks, one at a time under
        the mutex, in any order. Every task is carried out, and the count follows. */
    method RunTasks(tasks: seq<Task>) returns (ghost done: seq<Done>)
      requires Valid() && Serving() && view.ticking && connections == 0 && view.open == []
      modifies `needsFence, `connections, `idleSince, `view, `cluster, `future, `past, `settled
      ensures Valid() && Continues() && Serving()
      ensures 0 <= connections == |view.open| == CountAfter(done)
      ensures |done| == |tasks| && AllCarriedOut(tasks, done) && view.log == old(view.log) + WrittenDown(done)
    {
      hide Reaches, Run, SettledAs, CarriedOut, AllCarriedOut;
      done := [];
      NothingCarriedOut();
      for n := 0 to |tasks|
        invariant Valid() && Continues() && Serving() && view.ticking
        invariant 0 <= connections == |view.open| == CountAfter(done)
        invariant |done| == n && AllCarriedOut(tasks[..n], done) && view.log == old(view.log) + WrittenDown(done)
      {
        ghost var d := DoTask(tasks[n]);
        OneMoreCarriedOut(tasks, n, done, d);
        done := done + [d];
      }
      assert tasks[..|tasks|] == tasks;
    }

    method DoTask(task: Task) returns (ghost d: Done)
      requires Valid() && Serving() && view.ticking && 0 <= connections == |view.open|
      modifies `needsFence, `connections, `idleSince, `view, `cluster, `future, `past, `settled
      ensures Valid() && Continues() && Serving() && view.ticking && 0 <= connections == |view.open|
      ensures d.before == old(connections) && d.after == connections && CarriedOut(task, d)
      ensures view.log == old(view.log) + d.events
    {
      hide Reaches, Run, SettledAs, Ticked, Excused, WakeFailed, OnlyReady;
      match task {
        case Tick =>
          ghost var at, s := TickTask();
        case Client =>
          ghost var deployment, listing, stop;
          var r;
          r, deployment, listing, stop := Connect();
        case Leaving(k) =>
          if k < connections {
            Disconnect(k);
          }
      }
      d := Done(old(connections), view.log[|old(view.log)|..], connections);
    }
  }
}
