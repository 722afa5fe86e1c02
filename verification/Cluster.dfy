/** The parts of the cluster that the idle proxy talks to: the Deployment kept by the
    Kubernetes API server, the worker pods, and the worker's admission gate. */
module Cluster {
  import opened Wrappers

  /** The fields of the worker Deployment that the proxy reads or writes.
      `version` stands for metadata.resourceVersion. */
  datatype Deployment = Deployment(uid: int, version: int, owner: int, operation: int, replicas: int)

  /** A merge patch: the captured version and uid are preconditions, the two
      annotations are always written, and the replica count only when present. */
  datatype Patch = Patch(uid: int, version: int, owner: int, operation: int, replicas: Option<int>)

  /** A worker pod. The gate is closed exactly when `permit` is present. */
  datatype Pod = Pod(boot: int, sessions: int, permit: Option<int>, terminating: bool, ready: bool)

  /** The worker's answer to a status or a suspend request. */
  datatype Status = Status(boot: int, busy: bool, permit: Option<int>)

  predicate CanApply(d: Deployment, p: Patch) {
    p.uid == d.uid && p.version == d.version
  }

  /** The server after it accepted `p`; a patch that changes nothing keeps the version. */
  function Applied(d: Deployment, p: Patch): Deployment
    requires CanApply(d, p)
  {
    var merged := d.(
      owner := p.owner,
      operation := p.operation,
      replicas := if p.replicas.Some? then p.replicas.value else d.replicas
    );
    if merged == d then d else merged.(version := d.version + 1)
  }

  function PatchOf(current: Deployment, owner: int, operation: int, replicas: Option<int>): Patch {
    Patch(current.uid, current.version, owner, operation, replicas)
  }

  predicate Ready(pod: Pod) {
    !pod.terminating && pod.ready
  }

  /** The cluster's only pod is this one, ready and not being deleted. */
  predicate OnlyReady(pods: map<int, Pod>, p: int) {
    pods.Keys == {p} && pods[p].ready && !pods[p].terminating
  }

  function StatusOf(pod: Pod): Status {
    Status(pod.boot, pod.sessions > 0, pod.permit)
  }

  /** Suspension is refused while a session is held; a gate already closed keeps its
      permit or, when `renew` is set, receives a new one. */
  function Suspended(pod: Pod, freshPermit: int, renew: bool): Pod {
    if pod.sessions > 0 || (pod.permit.Some? && !renew) then pod
    else pod.(permit := Some(freshPermit))
  }

  /** Only the current permit opens the gate. */
  function Resumed(pod: Pod, permit: int): Pod {
    if pod.permit == Some(permit) then pod.(permit := None) else pod
  }
}
