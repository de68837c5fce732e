/** Go error values as trees, and the reading of them that decides whether a
    failed notification is acknowledged (internal/provider/errors.go). */
module GoErrors {

  /** An `error`: nil, a plain error, a `*SendError`, an error wrapping one other
      with `%w` (its child may be nil), or the result of joining several (a child may
      be nil when it was not `errors.Join` that built it). */
  datatype Error =
    | Nil
    | Plain(msg: string)
    | SendError(channel: string, permanent: bool, err: Error)
    | Wrap(msg: string, inner: Error)
    | Joined(errs: seq<Error>)

  datatype Result<+T> = Ok(value: T) | Err(error: Error)

  /** `PermanentSendError` and `TemporarySendError`: no error stays no error. */
  function PermanentSendError(channel: string, err: Error): Error {
    if err.Nil? then Nil else SendError(channel, true, err)
  }

  function TemporarySendError(channel: string, err: Error): Error {
    if err.Nil? then Nil else SendError(channel, false, err)
  }

  /** `errors.Join(a, b)`: nil arguments are dropped, all nil gives nil. */
  function Join(a: Error, b: Error): Error {
    if a.Nil? && b.Nil? then Nil
    else if a.Nil? then Joined([b])
    else if b.Nil? then Joined([a])
    else Joined([a, b])
  }

  /** `if e != nil { acc = errors.Join(acc, e) }` over a list of errors. */
  function JoinAll(acc: Error, es: seq<Error>): Error
    decreases |es|
  {
    if es == [] then acc else JoinOne(JoinAll(acc, es[..|es| - 1]), es[|es| - 1])
  }

  function JoinOne(acc: Error, e: Error): Error {
    if e.Nil? then acc else Join(acc, e)
  }

  /** The errors a walk visits, in order: it stops at a `SendError`, at an error that
      wraps nothing, and at a join of nothing; nil children are skipped. */
  function Leaves(e: Error): seq<Error>
    decreases e, 1
  {
    match e
    case Nil => []
    case Plain(_) => [e]
    case SendError(_, _, _) => [e]
    case Wrap(_, inner) => if inner.Nil? then [e] else Leaves(inner)
    case Joined(errs) => if errs == [] then [e] else LeavesOfAll(errs)
  }

  function LeavesOfAll(es: seq<Error>): seq<Error>
    decreases es, 0
  {
    if es == [] then [] else Leaves(es[0]) + LeavesOfAll(es[1..])
  }

  /** The `*SendError` that `errors.As` finds first in a depth-first search, or nil. */
  function AsSendError(e: Error): (found: Error)
    ensures found.Nil? || found.SendError?
    decreases e, 1
  {
    match e
    case Nil => Nil
    case Plain(_) => Nil
    case SendError(_, _, _) => e
    case Wrap(_, inner) => AsSendError(inner)
    case Joined(errs) => FirstSendError(errs)
  }

  function FirstSendError(es: seq<Error>): (found: Error)
    ensures found.Nil? || found.SendError?
    decreases es, 0
  {
    if es == [] then Nil
    else
      var first := AsSendError(es[0]);
      if first.Nil? then FirstSendError(es[1..]) else first
  }

  predicate PermanentOn(leaf: Error, channel: string) {
    leaf.SendError? && leaf.channel == channel && leaf.permanent
  }

  predicate AllPermanentOn(leaves: seq<Error>, channel: string) {
    forall l <- leaves :: PermanentOn(l, channel)
  }

  predicate SomePermanentOn(leaves: seq<Error>, channel: string) {
    exists l <- leaves :: PermanentOn(l, channel)
  }

  /** No `SendError` is reachable by walking: what storage, Redis and JSON errors look like. */
  predicate SendFree(e: Error) {
    forall l <- Leaves(e) :: !l.SendError?
  }

  lemma {:induction false} LeavesOfAllConcat(es: seq<Error>, fs: seq<Error>)
    ensures LeavesOfAll(es + fs) == LeavesOfAll(es) + LeavesOfAll(fs)
    decreases |es|
  {
    if es == [] {
      assert es + fs == fs;
    } else {
      LeavesOfAllConcat(es[1..], fs);
      assert (es + fs)[1..] == es[1..] + fs;
    }
  }

  lemma LeavesOfOne(e: Error)
    ensures LeavesOfAll([e]) == Leaves(e)
  {
    assert [e][1..] == [];
  }

  /** Joining concatenates what a walk will see, whatever shape the trees have. */
  lemma LeavesOfJoin(a: Error, b: Error)
    ensures Leaves(Join(a, b)) == Leaves(a) + Leaves(b)
    ensures Join(a, b).Nil? <==> a.Nil? && b.Nil?
  {
    LeavesOfOne(a);
    LeavesOfOne(b);
    assert [a, b] == [a] + [b];
    LeavesOfAllConcat([a], [b]);
  }

  lemma {:induction false} LeavesOfJoinAll(acc: Error, es: seq<Error>)
    ensures Leaves(JoinAll(acc, es)) == Leaves(acc) + LeavesOfAll(es)
    decreases |es|
  {
    if es != [] {
      var init, last := es[..|es| - 1], es[|es| - 1];
      LeavesOfJoinAll(acc, init);
      LeavesOfJoin(JoinAll(acc, init), last);
      LeavesOfAllConcat(init, [last]);
      LeavesOfOne(last);
      assert es == init + [last];
    }
  }

  lemma {:induction false} NilJoinAll(acc: Error, es: seq<Error>)
    ensures JoinAll(acc, es).Nil? <==> acc.Nil? && forall i :: 0 <= i < |es| ==> es[i].Nil?
    decreases |es|
  {
    if es != [] {
      NilJoinAll(acc, es[..|es| - 1]);
    }
  }

  lemma JoinAllStep(acc: Error, es: seq<Error>, e: Error)
    ensures JoinAll(acc, es + [e]) == JoinOne(JoinAll(acc, es), e)
  {
    assert (es + [e])[..|es|] == es;
  }

  /** `errors.As` at a leaf says exactly whether the leaf itself is a `SendError`: the
      search below a leaf never finds one that the walk passed over. */
  lemma {:induction false} AsAtLeaf(e: Error, leaf: Error)
    requires leaf in Leaves(e)
    ensures AsSendError(leaf) == if leaf.SendError? then leaf else Nil
    decreases e, 1
  {
    match e
    case Wrap(_, inner) => if !inner.Nil? { AsAtLeaf(inner, leaf); }
    case Joined(errs) => if errs != [] { AsAtLeafOfAll(errs, leaf); }
    case _ =>
  }

  lemma {:induction false} AsAtLeafOfAll(es: seq<Error>, leaf: Error)
    requires leaf in LeavesOfAll(es)
    ensures AsSendError(leaf) == if leaf.SendError? then leaf else Nil
    decreases es, 0
  {
    if leaf in Leaves(es[0]) {
      AsAtLeaf(es[0], leaf);
    } else {
      AsAtLeafOfAll(es[1..], leaf);
    }
  }

  lemma VerdictConcat(ls: seq<Error>, ms: seq<Error>, channel: string)
    ensures AllPermanentOn(ls + ms, channel) <==> AllPermanentOn(ls, channel) && AllPermanentOn(ms, channel)
    ensures SomePermanentOn(ls + ms, channel) <==> SomePermanentOn(ls, channel) || SomePermanentOn(ms, channel)
  {
    assert forall l :: l in ls + ms <==> l in ls || l in ms;
  }

  /** What `errors.As` finds at the leaf is a permanent `SendError` of the channel. */
  predicate Hit(leaf: Error, channel: string) {
    PermanentOn(AsSendError(leaf), channel)
  }

  /** The flags that the visiting closure of `IsPermanentChannelOnly` captures, and the
      history of its calls. */
  class Verdict {
    const channel: string
    var matched: bool
    var only: bool
    ghost var visited: seq<Error>

    /** The flags tell whether some visit was a hit and whether all were. */
    ghost predicate Valid()
      reads this
    {
      && (matched <==> exists leaf <- visited :: Hit(leaf, channel))
      && (only <==> forall leaf <- visited :: Hit(leaf, channel))
    }

    constructor (channel: string)
      ensures Valid() && this.channel == channel && visited == []
    {
      this.channel := channel;
      matched, only, visited := false, true, [];
    }

    method Visit(leaf: Error)
      requires Valid()
      modifies this
      ensures Valid() && visited == old(visited) + [leaf]
    {
      hide AsSendError;
      visited := visited + [leaf];
      assert leaf in visited;
      assert forall l <- old(visited) :: l in visited;
      var sendErr := AsSendError(leaf);
      if sendErr.Nil? || sendErr.channel != channel || !sendErr.permanent {
        only := false;
        return;
      }
      matched := true;
    }
  }

  /** The walk visits exactly the leaves, each once and in order. */
  method WalkLeafErrors(err: Error, v: Verdict)
    requires !err.Nil? && v.Valid()
    modifies v
    ensures v.Valid() && v.visited == old(v.visited) + Leaves(err)
    decreases err
  {
    hide Verdict.Valid, AsSendError, SendFree;
    match err
    case SendError(_, _, _) =>
      v.Visit(err);
    case Joined(children) =>
      if |children| == 0 {
        v.Visit(err);
        return;
      }
      var i := 0;
      while i < |children|
        invariant 0 <= i <= |children|
        invariant v.Valid() && v.visited == old(v.visited) + LeavesOfAll(children[..i])
      {
        assert children[..i + 1] == children[..i] + [children[i]];
        LeavesOfAllConcat(children[..i], [children[i]]);
        LeavesOfOne(children[i]);
        if !children[i].Nil? {
          WalkLeafErrors(children[i], v);
        }
        i := i + 1;
      }
      assert children[..i] == children;
    case Wrap(_, child) =>
      if child.Nil? {
        v.Visit(err);
        return;
      }
      WalkLeafErrors(child, v);
    case Plain(_) =>
      v.Visit(err);
  }

  /** True exactly when the walk sees at least one leaf and every leaf it sees is a
      permanent `SendError` on the channel. */
  predicate PermanentOnly(err: Error, channel: string) {
    Leaves(err) != [] && AllPermanentOn(Leaves(err), channel)
  }

  method IsPermanentChannelOnly(err: Error, channel: string) returns (answer: bool)
    ensures answer <==> PermanentOnly(err, channel)
  {
    if err.Nil? {
      return false;
    }
    var v := new Verdict(channel);
    WalkLeafErrors(err, v);
    forall leaf <- Leaves(err) ensures Hit(leaf, channel) <==> PermanentOn(leaf, channel) {
      AsAtLeaf(err, leaf);
    }
    assert v.visited == Leaves(err);
    assert Leaves(err) != [] ==> Leaves(err)[0] in Leaves(err);
    return v.only && v.matched;
  }
}
