// internal/domain/lifecycle.go: the one card lifecycle that synchronous commands,
// batches and expiry share.
module Lifecycle {
  import opened Wrappers

  datatype Status = Pending | Issued | Active | Suspended | Closed | Expired

  // The operation vocabulary of the schema. Transition knows five of these.
  datatype Action = Issue | Activate | Suspend | Resume | Close | Expire | Replace

  datatype Verdict = Verdict(target: Option<Status>, valid: bool, ignored: bool)

  function TargetOf(action: Action): Option<Status> {
    match action
    case Activate => Some(Active)
    case Suspend => Some(Suspended)
    case Resume => Some(Active)
    case Close => Some(Closed)
    case Expire => Some(Expired)
    case _ => None
  }

  function Transition(current: Status, action: Action): Verdict {
    var target := TargetOf(action);
    if target.None? then Verdict(None, false, false)
    else if current == target.value then Verdict(target, true, true)
    else match action
      case Activate => Verdict(target, current == Issued, false)
      case Suspend => Verdict(target, current == Active, false)
      case Resume => Verdict(target, current == Suspended, false)
      case Close => Verdict(target, current == Issued || current == Active || current == Suspended, false)
      case Expire =>
        Verdict(target, current == Pending || current == Issued || current == Active || current == Suspended, false)
      case _ => Verdict(None, false, false)
  }

  const ACTIONS: seq<Action> := [Activate, Suspend, Resume, Close, Expire]

  predicate Reaches(from: Status, to: Status, action: Action) {
    var v := Transition(from, action);
    v.valid && v.target == Some(to)
  }

  // The search over the action list inside CanTransition.
  predicate SomeActionReaches(current: Status, target: Status, actions: seq<Action>) {
    actions != [] && (Reaches(current, target, actions[0]) || SomeActionReaches(current, target, actions[1..]))
  }

  datatype DirectVerdict = DirectVerdict(valid: bool, ignored: bool)

  function CanTransition(current: Status, target: Status): DirectVerdict {
    if current == target then DirectVerdict(true, true)
    else DirectVerdict(SomeActionReaches(current, target, ACTIONS), false)
  }

  // The lifecycle graph, written out as its edges.
  predicate Legal(from: Status, to: Status) {
    match to
    case Active => from == Issued || from == Suspended
    case Suspended => from == Active
    case Closed => from == Issued || from == Active || from == Suspended
    case Expired => from == Pending || from == Issued || from == Active || from == Suspended
    case _ => false
  }

  // A direct move is allowed exactly along an edge, and is a no-op exactly at the target.
  lemma {:induction false} SearchFinds(from: Status, to: Status, actions: seq<Action>)
    ensures SomeActionReaches(from, to, actions) <==>
      exists k :: 0 <= k < |actions| && Reaches(from, to, actions[k])
  {
    if actions != [] {
      SearchFinds(from, to, actions[1..]);
      if SomeActionReaches(from, to, actions[1..]) {
        var k :| 0 <= k < |actions[1..]| && Reaches(from, to, actions[1..][k]);
        assert Reaches(from, to, actions[k+1]);
      }
      if k :| 0 <= k < |actions| && Reaches(from, to, actions[k]) {
        if k > 0 { assert Reaches(from, to, actions[1..][k-1]); }
      }
    }
  }

  lemma {:induction false} CanTransitionIsTheGraph(from: Status, to: Status)
    ensures CanTransition(from, to).valid <==> Legal(from, to) || from == to
    ensures CanTransition(from, to).ignored <==> from == to
    ensures !Legal(from, from)
  {
    SearchFinds(from, to, ACTIONS);
    forall k | 0 <= k < |ACTIONS| && Reaches(from, to, ACTIONS[k]) ensures Legal(from, to) || from == to {
      TransitionFollowsTheGraph(from, ACTIONS[k]);
    }
    if Legal(from, to) {
      assert Reaches(from, to, ACTIONS[0]) || Reaches(from, to, ACTIONS[1]) || Reaches(from, to, ACTIONS[2]) ||
        Reaches(from, to, ACTIONS[3]) || Reaches(from, to, ACTIONS[4]);
    }
  }

  // An action that is valid and not a no-op moves along an edge to the action's target; the only
  // valid action at its own target is the no-op.
  lemma {:induction false} TransitionFollowsTheGraph(from: Status, action: Action)
    ensures var v := Transition(from, action);
      (v.valid ==> v.target == TargetOf(action) && v.target.Some?) &&
      (v.valid && (action == Activate || action == Resume) ==> v.target == Some(Active)) &&
      (v.valid && action == Suspend ==> v.target == Some(Suspended)) &&
      (v.valid && action == Close ==> v.target == Some(Closed)) &&
      (v.valid && action == Expire ==> v.target == Some(Expired)) &&
      (v.valid && !v.ignored ==> Legal(from, v.target.value)) &&
      (v.ignored <==> TargetOf(action) == Some(from))
  {
  }

  predicate Final(s: Status) {
    s == Closed || s == Expired
  }

  // A walk along the graph, with any number of steps.
  predicate Walk(path: seq<Status>) {
    path != [] && forall k :: 0 < k < |path| ==> Legal(path[k-1], path[k])
  }

  // Closed and expired are final, and no walk returns to pending or issued.
  lemma {:induction false} WalksEndForGood(path: seq<Status>, i: nat, j: nat)
    requires Walk(path) && i < j < |path|
    ensures !Final(path[i])
    ensures path[j] != Pending && path[j] != Issued
  {
    assert Legal(path[i], path[i+1]);
    assert Legal(path[j-1], path[j]);
  }
}
