/** Collecting, classifying and settling one batch of deliveries
    (internal/rmq/consumer.go, internal/consumer/runner.go). */
module Consumer {
  import opened Wrappers
  import opened GoErrors
  import opened Domain
  import opened Preferences
  import opened Dispatch
  import opened Acknowledge
  import WebPush

  /** The `x-death` header: missing, not of the expected shape, or the first entry's count. */
  datatype XDeath = Absent | Malformed | Deaths(count: int)

  /** One copy of a message in the broker: `body` is what its bytes decode to, if they do. */
  datatype Copy = Copy(cid: nat, body: Option<Notification>, redelivered: bool, xDeath: XDeath)

  /** One handing-over of a copy to the consumer. Tags are numbered across sessions. */
  datatype Delivery = Delivery(tag: nat, copy: Copy)

  function DeathCount(c: Copy): int {
    match c.xDeath
    case Absent => if c.redelivered then 1 else 0
    case Malformed => 0
    case Deaths(count) => count
  }

  predicate IsPoison(d: Delivery, maxRedeliver: int) {
    (maxRedeliver > 0 && DeathCount(d.copy) >= maxRedeliver) || d.copy.body.None?
  }

  /** A delivery is poison when it cannot be decoded, or when its death count has reached a
      positive limit: the first `x-death` entry's count, none for a header of another shape, and
      without the header one for what comes back and none for what does not. */
  lemma PoisonIff(d: Delivery, maxRedeliver: int)
    ensures IsPoison(d, maxRedeliver) <==>
      || d.copy.body.None?
      || (d.copy.xDeath.Deaths? && 0 < maxRedeliver <= d.copy.xDeath.count)
      || (d.copy.xDeath.Absent? && d.copy.redelivered && maxRedeliver == 1)
  {
  }

  // ----- collecting -----

  /** What one `select` in `CollectBatch` comes back with. */
  datatype Event = Cancelled | TimerFired | ChannelClosed | Arrived(d: Delivery)

  /** `CollectBatch`: `select_(i)` is the outcome of its i-th `select`; there is no timer in
      the first. What it returns is exactly what arrived, also together with an error. */
  method CollectBatch(select_: nat -> Event, maxN: int, wait: bool) returns (batch: seq<Delivery>, err: Error)
    requires !select_(0).TimerFired?
    ensures maxN < 1 ==> batch == [] && !err.Nil?
    ensures maxN >= 1 ==> |batch| <= maxN
    ensures forall i :: 0 <= i < |batch| ==> select_(i) == Arrived(batch[i])
    ensures err.Nil? ==>
      |batch| >= 1 && (|batch| == maxN || !wait || select_(|batch|).TimerFired?)
    ensures maxN >= 1 && !err.Nil? ==> select_(|batch|).Cancelled? || select_(|batch|).ChannelClosed?
  {
    if maxN < 1 {
      return [], Plain("rmq: maxN must be >= 1");
    }
    batch := [];
    match select_(0)
    case Cancelled => return [], Plain("context canceled");
    case ChannelClosed => return [], Plain("rmq: deliveries channel closed");
    case Arrived(d) => batch := batch + [d];

    if maxN == 1 || !wait {
      return batch, Nil;
    }

    while |batch| < maxN
      invariant 1 <= |batch| <= maxN
      invariant forall i :: 0 <= i < |batch| ==> select_(i) == Arrived(batch[i])
    {
      match select_(|batch|)
      case Cancelled => return batch, Plain("context canceled");
      case TimerFired => return batch, Nil;
      case ChannelClosed => return batch, Plain("rmq: deliveries channel closed");
      case Arrived(d) => batch := batch + [d];
    }
    return batch, Nil;
  }

  // ----- classifying -----

  /** The poisonous, or the other, deliveries of a batch. */
  function Select(batch: seq<Delivery>, maxRedeliver: int, poison: bool): seq<Delivery>
    decreases |batch|
  {
    if batch == [] then []
    else
      var rest := Select(batch[..|batch| - 1], maxRedeliver, poison);
      var last := batch[|batch| - 1];
      if IsPoison(last, maxRedeliver) == poison then rest + [last] else rest
  }

  method DecodeBatch(batch: seq<Delivery>, maxRedeliver: int)
    returns (notifications: seq<Notification>, good: seq<Delivery>, poison: seq<Delivery>)
    ensures good == Select(batch, maxRedeliver, false) && poison == Select(batch, maxRedeliver, true)
    ensures |notifications| == |good|
    ensures forall i :: 0 <= i < |good| ==> good[i].copy.body == Some(notifications[i])
  {
    notifications, good, poison := [], [], [];
    for i := 0 to |batch|
      invariant good == Select(batch[..i], maxRedeliver, false) && poison == Select(batch[..i], maxRedeliver, true)
      invariant |notifications| == |good|
      invariant forall k :: 0 <= k < |good| ==> good[k].copy.body == Some(notifications[k])
    {
      assert batch[..i + 1][..i] == batch[..i];
      if maxRedeliver > 0 && DeathCount(batch[i].copy) >= maxRedeliver {
        poison := poison + [batch[i]];
        continue;
      }
      if batch[i].copy.body.None? {
        poison := poison + [batch[i]];
        continue;
      }
      notifications := notifications + [batch[i].copy.body.value];
      good := good + [batch[i]];
    }
    assert batch[..|batch|] == batch;
  }

  lemma {:induction false} SelectMembers(batch: seq<Delivery>, maxRedeliver: int, poison: bool)
    ensures forall d :: d in Select(batch, maxRedeliver, poison) <==> d in batch && IsPoison(d, maxRedeliver) == poison
    decreases |batch|
  {
    if batch != [] {
      SelectMembers(batch[..|batch| - 1], maxRedeliver, poison);
      assert batch == batch[..|batch| - 1] + [batch[|batch| - 1]];
    }
  }

  lemma {:induction false} SelectSplits(batch: seq<Delivery>, maxRedeliver: int)
    ensures |Select(batch, maxRedeliver, true)| + |Select(batch, maxRedeliver, false)| == |batch|
    decreases |batch|
  {
    if batch != [] {
      SelectSplits(batch[..|batch| - 1], maxRedeliver);
    }
  }

  /** Two selected deliveries stand in the batch in the same order. */
  lemma {:induction false} SelectKeepsOrder(batch: seq<Delivery>, maxRedeliver: int, poison: bool, i: nat, j: nat)
    requires i < j < |Select(batch, maxRedeliver, poison)|
    ensures
      var chosen := Select(batch, maxRedeliver, poison);
      exists a, b :: 0 <= a < b < |batch| && batch[a] == chosen[i] && batch[b] == chosen[j]
    decreases |batch|
  {
    var init, last := batch[..|batch| - 1], batch[|batch| - 1];
    var chosen := Select(init, maxRedeliver, poison);
    if j < |chosen| {
      SelectKeepsOrder(init, maxRedeliver, poison, i, j);
      var a, b :| 0 <= a < b < |init| && init[a] == chosen[i] && init[b] == chosen[j];
      assert batch[a] == init[a] && batch[b] == init[b];
    } else {
      SelectMembers(init, maxRedeliver, poison);
      assert chosen[i] in init;
      var a :| 0 <= a < |init| && init[a] == chosen[i];
      assert batch[a] == init[a] && batch[|batch| - 1] == last;
    }
  }

  ghost predicate DistinctTags(ds: seq<Delivery>) {
    forall i, j :: 0 <= i < j < |ds| ==> ds[i].tag != ds[j].tag
  }

  lemma {:induction false} SelectDistinct(batch: seq<Delivery>, maxRedeliver: int, poison: bool)
    requires DistinctTags(batch)
    ensures DistinctTags(Select(batch, maxRedeliver, poison))
    decreases |batch|
  {
    if batch != [] {
      var init, last := batch[..|batch| - 1], batch[|batch| - 1];
      SelectDistinct(init, maxRedeliver, poison);
      SelectMembers(init, maxRedeliver, poison);
      var chosen := Select(init, maxRedeliver, poison);
      forall i | 0 <= i < |chosen| ensures chosen[i].tag != last.tag {
        assert chosen[i] in init;
        var a :| 0 <= a < |init| && init[a] == chosen[i];
      }
    }
  }

  // ----- settling -----

  datatype Settlement = Ack | Requeue | DeadLetter

  /** One call of `Ack` or `Nack`, whether or not it reached the broker. */
  datatype Attempt = Attempt(tag: nat, settlement: Settlement)

  /** What the loop does with a delivery whose dispatch returned this error. */
  function SettlementAfter(err: Error): Settlement {
    if Acknowledged(err) then Ack else Requeue
  }

  /** Acknowledged after no error, and after an error whose leaves are all permanent web push
      failures, of which there is at least one; else back into the queue, and never dead-lettered. */
  lemma SettlementIff(err: Error)
    ensures SettlementAfter(err) ==
      if err.Nil? || (Leaves(err) != [] &&
        forall l <- Leaves(err) :: l.SendError? && l.channel == "web_push" && l.permanent) then Ack
      else Requeue
  {
    hide Leaves;
  }

  /** With web push behind its calls, a dispatch is acknowledged exactly when it reached its
      sends and everything at every recipient, channel and subscription was served, gone, or
      refused for good by a push service. */
  lemma AcknowledgedIff(n: Notification, w: World, subs: string -> seq<string>, push: string -> WebPush.PushWorld)
    requires SaneWorld(w) && PushBehind(w, subs, push)
    ensures SettlementAfter(DispatchError(n, w)) ==
      if Prepared(n, w).Through?
         && forall r <- Prepared(n, w).recipients :: AllFine(r, Prepared(n, w).n, w, subs, push) then Ack
      else Requeue
  {
    hide PushBehind, AllFine, OnlyPermanentPush, SaneWorld, FailedAt, RefusedAt;
    if Prepared(n, w).Stopped? {
      StoppedIsNotAcknowledged(n, w);
    } else {
      AckDownToSubscriptions(n, w, subs, push);
      AckAfterErrorIff(n, w);
      var Through(m, rs) := Prepared(n, w);
      DispatchFailed(rs, m, w);
      hide Prepared;
      forall r <- rs
        ensures AllFine(r, m, w, subs, push) <==> OnlyPermanentPush(r, m, w)
        ensures FailedAt(r, m, w) || AllFine(r, m, w, subs, push)
      {
        FineIsPermanent(r, m, w, subs, push);
        NotFailedIsFine(r, m, w);
      }
    }
  }

  lemma NotFailedIsFine(r: string, n: Notification, w: World)
    ensures FailedAt(r, n, w) || OnlyPermanentPush(r, n, w)
  {
    hide PermanentPush, CallsTo;
    NilIsPermanentPush();
  }

  function DeadLettered(poison: seq<Delivery>): (attempts: seq<Attempt>)
    ensures |attempts| == |poison|
  {
    seq(|poison|, i requires 0 <= i < |poison| => Attempt(poison[i].tag, DeadLetter))
  }

  /** `dispatch(i, n)` is the error of dispatching the i-th good delivery. */
  function ByOwnDispatch(good: seq<Delivery>, dispatch: (nat, Notification) -> Error): (attempts: seq<Attempt>)
    requires forall d <- good :: d.copy.body.Some?
    ensures |attempts| == |good|
  {
    seq(|good|, i requires 0 <= i < |good| =>
      assert good[i] in good;
      Attempt(good[i].tag, SettlementAfter(dispatch(i, good[i].copy.body.value))))
  }

  /** Poison first, then the others, each by its own dispatch. */
  function AttemptsOf(batch: seq<Delivery>, maxRedeliver: int, dispatch: (nat, Notification) -> Error): seq<Attempt> {
    SelectMembers(batch, maxRedeliver, false);
    DeadLettered(Select(batch, maxRedeliver, true)) + ByOwnDispatch(Select(batch, maxRedeliver, false), dispatch)
  }

  /** The body of the session loop for a batch obtained without error. */
  method RunBatch(batch: seq<Delivery>, maxRedeliver: int, dispatch: (nat, Notification) -> Error)
    returns (attempts: seq<Attempt>)
    ensures attempts == AttemptsOf(batch, maxRedeliver, dispatch)
  {
    SelectMembers(batch, maxRedeliver, false);
    attempts := [];
    if |batch| == 0 {
      return;
    }
    var notifications, good, poison := DecodeBatch(batch, maxRedeliver);
    for i := 0 to |poison|
      invariant attempts == DeadLettered(poison)[..i]
    {
      attempts := attempts + [Attempt(poison[i].tag, DeadLetter)];
    }
    assert attempts == DeadLettered(poison);
    if |notifications| == 0 {
      assert ByOwnDispatch(good, dispatch) == [];
      return;
    }
    for i := 0 to |notifications|
      invariant attempts == DeadLettered(poison) + ByOwnDispatch(good, dispatch)[..i]
    {
      var err := dispatch(i, notifications[i]);
      if !err.Nil? {
        var permanent := IsPermanentChannelOnly(err, WEB_PUSH);
        if permanent {
          attempts := attempts + [Attempt(good[i].tag, Ack)];
          continue;
        }
        attempts := attempts + [Attempt(good[i].tag, Requeue)];
        continue;
      }
      attempts := attempts + [Attempt(good[i].tag, Ack)];
    }
    assert ByOwnDispatch(good, dispatch)[..|good|] == ByOwnDispatch(good, dispatch);
  }

  /** Poison first, each to the dead-letter queue; then the others in order, each acknowledged
      when its own dispatch returned no error or nothing but permanent web push failures, else
      put back. */
  lemma AttemptsMeaning(batch: seq<Delivery>, maxRedeliver: int, dispatch: (nat, Notification) -> Error)
    ensures
      var good, poison := Select(batch, maxRedeliver, false), Select(batch, maxRedeliver, true);
      var attempts := AttemptsOf(batch, maxRedeliver, dispatch);
      && |attempts| == |poison| + |good|
      && (forall i :: 0 <= i < |poison| ==> attempts[i] == Attempt(poison[i].tag, DeadLetter))
      && (forall i :: 0 <= i < |good| ==>
            && good[i].copy.body.Some? && attempts[|poison| + i].tag == good[i].tag
            && var err := dispatch(i, good[i].copy.body.value);
               attempts[|poison| + i].settlement ==
                 if err.Nil? || (Leaves(err) != [] &&
                   forall l <- Leaves(err) :: l.SendError? && l.channel == "web_push" && l.permanent) then Ack
                 else Requeue)
  {
    hide Select, IsPoison, SettlementAfter;
    SelectMembers(batch, maxRedeliver, false);
    var good := Select(batch, maxRedeliver, false);
    forall i | 0 <= i < |good| ensures good[i].copy.body.Some? {
      NotPoisonDecodes(good[i], maxRedeliver);
      assert good[i] in good;
    }
    forall i | 0 <= i < |good| {
      SettlementIff(dispatch(i, good[i].copy.body.value));
    }
  }

  lemma NotPoisonDecodes(d: Delivery, maxRedeliver: int)
    ensures !IsPoison(d, maxRedeliver) ==> d.copy.body.Some?
  {
  }

  /** The delivery is the i-th good one and is settled by the error of its own dispatch. */
  ghost predicate SettledByOwn(d: Delivery, i: nat, good: seq<Delivery>,
                               dispatch: (nat, Notification) -> Error, attempts: seq<Attempt>) {
    && i < |good| && good[i] == d && d.copy.body.Some?
    && Attempt(d.tag, SettlementAfter(dispatch(i, d.copy.body.value))) in attempts
  }

  lemma PoisonDeadLettered(batch: seq<Delivery>, maxRedeliver: int, dispatch: (nat, Notification) -> Error, d: Delivery)
    requires d in batch && IsPoison(d, maxRedeliver)
    ensures Attempt(d.tag, DeadLetter) in AttemptsOf(batch, maxRedeliver, dispatch)
  {
    hide ByOwnDispatch, IsPoison;
    SelectMembers(batch, maxRedeliver, true);
    SelectMembers(batch, maxRedeliver, false);
    var poison := Select(batch, maxRedeliver, true);
    var i :| 0 <= i < |poison| && poison[i] == d;
    assert AttemptsOf(batch, maxRedeliver, dispatch)[i] == Attempt(d.tag, DeadLetter);
  }

  lemma GoodSettled(batch: seq<Delivery>, maxRedeliver: int, dispatch: (nat, Notification) -> Error, d: Delivery)
    returns (i: nat)
    requires d in batch && !IsPoison(d, maxRedeliver)
    ensures SettledByOwn(d, i, Select(batch, maxRedeliver, false), dispatch, AttemptsOf(batch, maxRedeliver, dispatch))
  {
    hide SettlementAfter;
    SelectMembers(batch, maxRedeliver, false);
    var good, poison := Select(batch, maxRedeliver, false), Select(batch, maxRedeliver, true);
    i :| 0 <= i < |good| && good[i] == d;
    var attempts := AttemptsOf(batch, maxRedeliver, dispatch);
    assert attempts[|poison| + i] == Attempt(d.tag, SettlementAfter(dispatch(i, d.copy.body.value)));
  }

  lemma NothingElseSettled(batch: seq<Delivery>, maxRedeliver: int, dispatch: (nat, Notification) -> Error, a: Attempt)
    requires a in AttemptsOf(batch, maxRedeliver, dispatch)
    ensures exists d <- batch :: d.tag == a.tag
  {
    hide SettlementAfter;
    SelectMembers(batch, maxRedeliver, true);
    SelectMembers(batch, maxRedeliver, false);
    var order := SettlingOrder(batch, maxRedeliver);
    var attempts := AttemptsOf(batch, maxRedeliver, dispatch);
    var i :| 0 <= i < |attempts| && attempts[i] == a;
    assert order[i] in batch && attempts[i].tag == order[i].tag;
  }

  /** Every delivery of the batch gets exactly one Ack or Nack: a poisonous one is sent to
      the dead-letter queue, any other is settled by the error of its own dispatch; and
      nothing else is settled. */
  lemma EachSettledOnce(batch: seq<Delivery>, maxRedeliver: int, dispatch: (nat, Notification) -> Error)
    requires DistinctTags(batch)
    ensures
      var attempts := AttemptsOf(batch, maxRedeliver, dispatch);
      var good := Select(batch, maxRedeliver, false);
      && |attempts| == |batch|
      && (forall i, j :: 0 <= i < j < |attempts| ==> attempts[i].tag != attempts[j].tag)
      && (forall d <- batch :: IsPoison(d, maxRedeliver) ==> Attempt(d.tag, DeadLetter) in attempts)
      && (forall d <- batch :: !IsPoison(d, maxRedeliver) ==> exists i :: SettledByOwn(d, i, good, dispatch, attempts))
      && (forall a <- attempts :: exists d <- batch :: d.tag == a.tag)
  {
    hide SettledByOwn, IsPoison, Select, ByOwnDispatch, DeadLettered;
    SelectSplits(batch, maxRedeliver);
    TagsDiffer(batch, maxRedeliver, dispatch);
    var attempts := AttemptsOf(batch, maxRedeliver, dispatch);
    forall d <- batch | IsPoison(d, maxRedeliver) ensures Attempt(d.tag, DeadLetter) in attempts {
      PoisonDeadLettered(batch, maxRedeliver, dispatch, d);
    }
    forall d <- batch | !IsPoison(d, maxRedeliver)
      ensures exists i :: SettledByOwn(d, i, Select(batch, maxRedeliver, false), dispatch, attempts)
    {
      var i := GoodSettled(batch, maxRedeliver, dispatch, d);
    }
    forall a <- attempts ensures exists d <- batch :: d.tag == a.tag {
      NothingElseSettled(batch, maxRedeliver, dispatch, a);
    }
  }

  lemma TagsDiffer(batch: seq<Delivery>, maxRedeliver: int, dispatch: (nat, Notification) -> Error)
    requires DistinctTags(batch)
    ensures
      var attempts := AttemptsOf(batch, maxRedeliver, dispatch);
      forall i, j :: 0 <= i < j < |attempts| ==> attempts[i].tag != attempts[j].tag
  {
    hide Acknowledged, SettlementAfter;
    PlanDistinct(batch, maxRedeliver);
    SelectMembers(batch, maxRedeliver, false);
    var attempts := AttemptsOf(batch, maxRedeliver, dispatch);
    var order := Select(batch, maxRedeliver, true) + Select(batch, maxRedeliver, false);
    assert forall i :: 0 <= i < |attempts| ==> attempts[i].tag == order[i].tag;
  }

  /** The order of settling: poison first. */
  function SettlingOrder(batch: seq<Delivery>, maxRedeliver: int): seq<Delivery> {
    Select(batch, maxRedeliver, true) + Select(batch, maxRedeliver, false)
  }

  lemma PlanDistinct(batch: seq<Delivery>, maxRedeliver: int)
    requires DistinctTags(batch)
    ensures DistinctTags(SettlingOrder(batch, maxRedeliver))
    ensures forall d :: d in SettlingOrder(batch, maxRedeliver) <==> d in batch
  {
    var good, poison := Select(batch, maxRedeliver, false), Select(batch, maxRedeliver, true);
    SelectMembers(batch, maxRedeliver, false);
    SelectMembers(batch, maxRedeliver, true);
    SelectDistinct(batch, maxRedeliver, false);
    SelectDistinct(batch, maxRedeliver, true);
    forall i, j | 0 <= i < |poison| && 0 <= j < |good| ensures poison[i].tag != good[j].tag {
      assert poison[i] in batch && good[j] in batch && poison[i] != good[j];
      var a :| 0 <= a < |batch| && batch[a] == poison[i];
      var b :| 0 <= b < |batch| && batch[b] == good[j];
    }
  }
}
