/** Any number of live controllers, and any administrator: a scale write only takes effect
    under its writer's own annotation, on the Deployment its writer started with. */
module Ownership {
  import opened Wrappers

  import opened Cluster
  import opened IdleProtocol
  import opened Identifiers

  /** While a write is awaited the fence is needed; while a read is used it is not. */
  ghost predicate FlagOk(c: Controller) {
    && (Fencing(c.at) || Awaited(c.at).Some? ==> c.needsFence)
    && ((InWake(c.at) || InTick(c.at)) && !Fencing(c.at) && Awaited(c.at).None?
        ==> !c.needsFence || c.at.WakeSleep? || c.at.WakeLoop?)
  }

  /** What a controller holds was read under its own name on its own Deployment. */
  ghost predicate Holder(born: map<int, int>, i: int, c: Controller) {
    && i in born && born[i] == c.uid && FlagOk(c)
    && (Captured(c.at).Some? ==> Captured(c.at).value.owner == i && Captured(c.at).value.uid == c.uid)
  }

  /** A scale write that can still take effect finds its writer named on the server. */
  ghost predicate Signed(api: Api, born: map<int, int>, m: Patch) {
    && m.owner in born && m.uid == born[m.owner]
    && (m.replicas.Some? && m.version == api.server.version ==> api.server.owner == m.owner)
  }

  ghost predicate Owned(s: State) {
    && (forall i | i in s.live :: Holder(s.born, i, s.live[i]))
    && (forall m | m in s.api.sent :: Signed(s.api, s.born, m))
  }

  lemma WakeHolder(cfg: Config, s: State, i: int, c: Controller, hint: Hint)
    requires Holder(s.born, i, c) && InWake(c.at) && WakeStep(cfg, s, i, c, hint).Some?
    ensures Holder(s.born, i, WakeStep(cfg, s, i, c, hint).value.controller)
  {
  }

  lemma TickHolder(cfg: Config, s: State, i: int, c: Controller, hint: Hint)
    requires Holder(s.born, i, c) && TickStep(cfg, s, i, c, hint).Some?
    ensures Holder(s.born, i, TickStep(cfg, s, i, c, hint).value.controller)
  {
  }

  lemma MoveHolder(cfg: Config, s: State, i: int, c: Controller, a: Action)
    requires Holder(s.born, i, c) && ControllerMove(cfg, s, i, c, a).Some?
    ensures Holder(s.born, i, ControllerMove(cfg, s, i, c, a).value.controller)
  {
    if a.Proceed? && !Fencing(c.at) {
      if InWake(c.at) {
        WakeHolder(cfg, s, i, c, a.hint);
      } else {
        TickHolder(cfg, s, i, c, a.hint);
      }
    }
  }

  /** Scale writes are made from a read that named the writer. */
  lemma MoveSigned(cfg: Config, s: State, i: int, a: Action)
    requires Ids(s) && Owned(s) && i in s.live && ControllerMove(cfg, s, i, s.live[i], a).Some?
    ensures var m := ControllerMove(cfg, s, i, s.live[i], a).value;
            forall p | p in ApiAfter(s.api, m.request).sent :: Signed(s.api, s.born, p)
  {
    assert Holder(s.born, i, s.live[i]);
    assert PointOk(s.api, s.live[i].at, s.nextId);
  }

  lemma OwnedKeptByController(cfg: Config, s: State, a: Action)
    requires Ids(s) && Owned(s) && IsController(a) && ControllerStep(cfg, s, a).Some?
    ensures Owned(ControllerStep(cfg, s, a).value)
  {
    hide ControllerMove, PointOk, CurrentOk;
    var s' := ControllerStep(cfg, s, a).value;
    assert forall i | i in s.live :: Holder(s.born, i, s.live[i]);
    if a.Start? || Exits(s.live[a.id], a) {
      assert forall m | m in s.api.sent :: Signed(s.api, s.born, m);
    } else {
      MoveHolder(cfg, s, a.id, s.live[a.id], a);
      MoveSigned(cfg, s, a.id, a);
      assert forall m | m in s'.api.sent :: Signed(s.api, s.born, m);
    }
  }

  lemma OwnedKept(cfg: Config, s: State, a: Action)
    requires Ids(s) && Owned(s) && Step(cfg, s, a).Some?
    ensures Owned(Step(cfg, s, a).value)
  {
    var s' := Step(cfg, s, a).value;
    if IsController(a) {
      OwnedKeptByController(cfg, s, a);
    } else {
      IdsKeptByEnvironment(s, a);
      assert forall i | i in s.live :: Holder(s.born, i, s.live[i]);
      forall m | m in s.api.sent ensures Signed(s'.api, s'.born, m) {
        assert Signed(s.api, s.born, m) && PatchOk(s'.api, m, s'.nextId);
      }
    }
  }

  lemma {:induction false} OwnedAlways(cfg: Config, s0: State, actions: seq<Action>)
    requires Initial(s0) && Run(cfg, s0, actions).Some?
    ensures Ids(Run(cfg, s0, actions).value) && Owned(Run(cfg, s0, actions).value)
  {
    if actions == [] {
      InitialIds(s0);
    } else {
      var before := actions[..|actions| - 1];
      OwnedAlways(cfg, s0, before);
      IdsKept(cfg, Run(cfg, s0, before).value, actions[|actions| - 1]);
      OwnedKept(cfg, Run(cfg, s0, before).value, actions[|actions| - 1]);
    }
  }

  /** Whichever controllers are alive, a write that changes the replica count takes effect
      only while the owner annotation already names its writer and the Deployment is the
      one its writer started with. */
  lemma ScaleWritesAreOwned(cfg: Config, s0: State, actions: seq<Action>, s: State, m: Patch)
    requires Initial(s0) && Run(cfg, s0, actions) == Some(s)
    requires Effective(s, DeliverPatch(m)) && m.replicas.Some?
    ensures s.api.server.owner == m.owner && m.owner in s.born && s.api.server.uid == s.born[m.owner]
  {
    OwnedAlways(cfg, s0, actions);
    assert Signed(s.api, s.born, m);
  }

  /** Short of a replacement of the Deployment, its owner changes only through a fence, and
      a fence never changes the replica count. */
  lemma OwnerChangesOnlyByFence(cfg: Config, s0: State, actions: seq<Action>, s: State, a: Action)
    requires Initial(s0) && Run(cfg, s0, actions) == Some(s) && !a.Replace?
    requires Step(cfg, s, a).Some?
    ensures var s' := Step(cfg, s, a).value;
            s'.api.server.owner != s.api.server.owner ==>
              && Effective(s, a) && a.patch.replicas.None?
              && s'.api.server.owner == a.patch.owner && s'.api.server.replicas == s.api.server.replicas
  {
    if Effective(s, a) && a.patch.replicas.Some? {
      ScaleWritesAreOwned(cfg, s0, actions, s, a.patch);
    }
  }
}
