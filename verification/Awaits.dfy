/** The awaits of the controller: what happens during each, which of them were answered, and
    in which states the answers were read. */
module Awaits {
  import opened Wrappers

  import opened Cluster
  import opened IdleProtocol

  /** What happens during one await, and whether an answer arrives in time. */
  datatype Turn = Turn(meanwhile: seq<Action>, arrives: bool)

  /** What is left of the turns after `k` awaits; when they are over no answer arrives. */
  function Rest(turns: seq<Turn>, k: nat): seq<Turn> {
    if k <= |turns| then turns[k..] else []
  }

  predicate Arrives(turns: seq<Turn>, k: nat) {
    k < |turns| && turns[k].arrives
  }

  predicate AllArrive(turns: seq<Turn>, k: nat) {
    forall j | 0 <= j < k :: Arrives(turns, j)
  }

  /** Awaits behind others. */
  lemma Composed(turns: seq<Turn>, a: nat, b: nat)
    ensures Rest(Rest(turns, a), b) == Rest(turns, a + b)
    ensures Arrives(Rest(turns, a), b) <==> Arrives(turns, a + b)
    ensures AllArrive(turns, a) && AllArrive(Rest(turns, a), b) <==> AllArrive(turns, a + b)
  {
    forall j: nat ensures Arrives(Rest(turns, a), j) <==> Arrives(turns, a + j) {
    }
    if AllArrive(turns, a + b) {
      forall j | 0 <= j < b ensures Arrives(Rest(turns, a), j) {
        assert Arrives(turns, a + j);
      }
    }
    if AllArrive(turns, a) && AllArrive(Rest(turns, a), b) {
      forall j | 0 <= j < a + b ensures Arrives(turns, j) {
        if j >= a {
          assert Arrives(Rest(turns, a), j - a);
        }
      }
    }
  }

  /** From `turns` to `rest` this many awaits were made, and all were answered. */
  predicate AnsweredIn(turns: seq<Turn>, rest: seq<Turn>, k: nat) {
    rest == Rest(turns, k) && AllArrive(turns, k)
  }

  /** This many awaits were made; the last was not answered, or its answer is unusable. */
  predicate StoppedIn(turns: seq<Turn>, rest: seq<Turn>, k: nat, unusable: bool) {
    && k > 0 && rest == Rest(turns, k) && AllArrive(turns, k - 1)
    && (Arrives(turns, k - 1) ==> unusable)
  }

  lemma Later(turns: seq<Turn>, mid: seq<Turn>, rest: seq<Turn>, a: nat, k: nat, unusable: bool)
    requires AnsweredIn(turns, mid, a)
    ensures AnsweredIn(mid, rest, k) ==> AnsweredIn(turns, rest, a + k)
    ensures StoppedIn(mid, rest, k, unusable) ==> StoppedIn(turns, rest, a + k, unusable)
  {
    Composed(turns, a, k);
    if k > 0 {
      Composed(turns, a, k - 1);
    }
  }

  /** Without an answer it does not matter which answers could be used. */
  lemma Unanswered(turns: seq<Turn>, rest: seq<Turn>, k: nat, unusable: bool)
    requires StoppedIn(turns, rest, k, false)
    ensures StoppedIn(turns, rest, k, unusable)
  {
  }

  lemma OneTaken(turns: seq<Turn>)
    ensures AllArrive(turns, 0) && (AllArrive(turns, 1) <==> Arrives(turns, 0))
  {
  }

  lemma NoneTaken(turns: seq<Turn>)
    ensures Rest(turns, 0) == turns
  {
  }

  /** Where an operation stopped, the turns before it, and whether a fence came first. */
  datatype Stop = Stop(at: Point, from: nat, fenced: bool)

  /** How many awaits a turn of the wake loop has made when it is at this point. */
  function WakeAwaits(at: Point, fenced: bool): nat {
    var fence := if fenced then 2 else 0;
    match at
    case FenceGet(_) => 1
    case FenceWait(_, _) => 2
    case WakeGet => fence + 1
    case WakeEmpty(_) => fence + 2
    case WakeScale(_) => fence + 3
    case WakeList => fence + 2
    case WakeStatus(_) => fence + 3
    case WakeResume(_, _) => fence + 4
    case _ => 0
  }

  /** How many awaits an idle tick has made when it is at this point, short of a scale. */
  function TickAwaits(at: Point, fenced: bool): nat {
    var fence := if fenced then 2 else 0;
    match at
    case FenceGet(_) => 1
    case FenceWait(_, _) => 2
    case TickGet => fence + 1
    case TickList(_) => fence + 2
    case TickStatus(_, _) => fence + 3
    case TickSuspend(_, _, _, _) => fence + 4
    case TickResume(_) => fence + 4
    case _ => 0
  }

  /** The state in which an answer was read, behind the actions `when`. */
  datatype Look = Look(when: seq<Action>, seen: State)

  /** This choice of a pod is right: the only one, ready and not terminating, if there is one. */
  ghost predicate Chosen(pods: map<int, Pod>, pod: Option<int>) {
    if pod.Some? then OnlyReady(pods, pod.value) else forall p :: !OnlyReady(pods, p)
  }

  /** When the interval began that an observation of this pod and boot belongs to. */
  function SinceOf(idle: Option<Idle>, p: int, boot: int, now: int): int {
    match idle
    case Some(Idle(pod, b, since)) => if pod == p && b == boot then since else now
    case None => now
  }

  /** What was read after a suspend request: its answer, the outcome of the scale to zero and,
      if that was not known, the Deployment behind the fence. */
  datatype Nap = Nap(reply: Look, answer: Status, written: Look, observed: Look)

  function NoNap(look: Look): Nap {
    Nap(look, Status(0, false, None), look, look)
  }

  /** What a tick has read: the Deployment, the pod it chose from the listing, the status. */
  datatype Sight = Sight(deployment: Look, listing: Look, pod: Option<int>, status: Look, nap: Nap)

  function Unseen(look: Look): Sight {
    Sight(look, look, None, look, NoNap(look))
  }

  /** The write of this replica count against the version that was read. */
  function ScaleTo(read: Deployment, owner: int, operation: int, replicas: int): Patch {
    Patch(read.uid, read.version, owner, operation, Some(replicas))
  }
}
