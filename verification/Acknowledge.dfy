/** When a dispatched notification is acknowledged: what the error tree of a whole
    dispatch tells about its individual sends. */
module Acknowledge {
  import opened GoErrors
  import opened Strings
  import opened Domain
  import opened Preferences
  import opened Dispatch
  import WebPush

  /** Built by `errors.New`, `fmt.Errorf`, `errors.Join` and the `SendError` constructors:
      no join holds a nil child. */
  predicate WellBuilt(e: Error) {
    match e
    case Wrap(_, inner) => WellBuilt(inner)
    case Joined(errs) => forall c <- errs :: !c.Nil? && WellBuilt(c)
    case _ => true
  }

  lemma {:induction false} FailureIsVisible(e: Error)
    requires WellBuilt(e) && !e.Nil?
    ensures Leaves(e) != []
  {
    match e
    case Wrap(_, inner) => if !inner.Nil? { FailureIsVisible(inner); }
    case Joined(errs) => if errs != [] { FailureIsVisible(errs[0]); }
    case _ =>
  }

  /** Errors of storage: real, well built, and never a `SendError`. */
  predicate StorageError(e: Error) {
    !e.Nil? && WellBuilt(e) && SendFree(e)
  }

  ghost predicate SaneWorld(w: World) {
    && (forall n :: w.upsert(n).Err? ==> StorageError(w.upsert(n).error))
    && (forall t :: w.subscribers(t).Err? ==> StorageError(w.subscribers(t).error))
    && (forall r :: w.preferences(r).Err? ==> StorageError(w.preferences(r).error))
    && (forall n, call :: WellBuilt(w.send(n, call)))
  }

  // ----- the leaves of a dispatch -----

  /** The leaves that the sends of a list of calls return, in order. */
  function SentLeaves(calls: seq<SendCall>, n: Notification, w: World): seq<Error>
    decreases |calls|
  {
    if calls == [] then []
    else SentLeaves(calls[..|calls| - 1], n, w) + Leaves(w.send(n, calls[|calls| - 1]))
  }

  function LeavesTo(recipient: string, n: Notification, w: World): seq<Error> {
    match w.preferences(recipient)
    case Err(e) => Leaves(e)
    case Ok(_) => SentLeaves(CallsTo(recipient, n, w), n, w)
  }

  /** Recipient by recipient: the leaves of the failed preference read, or of each send. */
  function AllLeaves(recipients: seq<string>, n: Notification, w: World): seq<Error>
    decreases |recipients|
  {
    if recipients == [] then []
    else AllLeaves(recipients[..|recipients| - 1], n, w) + LeavesTo(recipients[|recipients| - 1], n, w)
  }

  lemma {:induction false} LeavesOfCallErrors(calls: seq<SendCall>, n: Notification, w: World)
    ensures LeavesOfAll(CallErrors(calls, n, w)) == SentLeaves(calls, n, w)
    decreases |calls|
  {
    if calls != [] {
      var init, last := calls[..|calls| - 1], calls[|calls| - 1];
      LeavesOfCallErrors(init, n, w);
      assert CallErrors(calls, n, w) == CallErrors(init, n, w) + [CallError(last, n, w)];
      LeavesOfAllConcat(CallErrors(init, n, w), [CallError(last, n, w)]);
      LeavesOfOne(CallError(last, n, w));
    }
  }

  lemma {:induction false} LeavesOfFailures(recipients: seq<string>, n: Notification, w: World)
    requires SaneWorld(w)
    ensures LeavesOfAll(Failures(recipients, n, w)) == AllLeaves(recipients, n, w)
    decreases |recipients|
  {
    if recipients != [] {
      var init, last := recipients[..|recipients| - 1], recipients[|recipients| - 1];
      LeavesOfFailures(init, n, w);
      LeavesOfAllConcat(Failures(init, n, w), FailuresTo(last, n, w));
      match w.preferences(last)
      case Err(e) => LeavesOfOne(Wrap("resolve channels for " + last, e));
      case Ok(_) => LeavesOfCallErrors(CallsTo(last, n, w), n, w);
    }
  }

  /** The wrapping and joining that `Dispatch` does hides nothing and adds nothing: a walk
      over its error meets exactly the leaves of each failed preference read and each
      failed send, in the order they happened. */
  lemma DispatchLeaves(n: Notification, w: World)
    requires SaneWorld(w) && Prepared(n, w).Through?
    ensures Leaves(DispatchError(n, w)) == AllLeaves(Prepared(n, w).recipients, Prepared(n, w).n, w)
  {
    var Through(m, rs) := Prepared(n, w);
    LeavesOfJoinAll(Nil, Failures(rs, m, w));
    LeavesOfFailures(rs, m, w);
  }

  /** With web push behind the call, its leaves are its failed subscriptions, in order. */
  lemma WebPushLeavesInDispatch(calls: seq<SendCall>, call: SendCall, n: Notification, w: World,
                                endpoints: seq<string>, p: WebPush.PushWorld)
    requires w.send(n, call) == JoinAll(Nil, WebPush.Outcomes(endpoints, p))
    ensures SentLeaves(calls + [call], n, w)
            == SentLeaves(calls, n, w) + WebPush.Failed(WebPush.Outcomes(endpoints, p))
  {
    hide WebPush.Outcome;
    assert (calls + [call])[..|calls|] == calls;
    forall o | o in WebPush.Outcomes(endpoints, p) ensures o.Nil? || o.SendError? {
      var i :| 0 <= i < |endpoints| && o == WebPush.Outcomes(endpoints, p)[i];
      OutcomeShape(endpoints[i], p);
    }
    WebPush.PushLeaves(WebPush.Outcomes(endpoints, p));
  }

  lemma OutcomeShape(endpoint: string, p: WebPush.PushWorld)
    ensures var o := WebPush.Outcome(endpoint, p); o.Nil? || (o.SendError? && o.channel == WEB_PUSH)
  {
    hide WebPush.StatusError;
  }

  // ----- the decision -----

  /** Acknowledge: no error at all, or `shouldAckAfterDispatchError`. */
  predicate Acknowledged(err: Error) {
    err.Nil? || PermanentOnly(err, WEB_PUSH)
  }

  /** Spelled out: no error, or leaves that are all permanent web push failures. */
  lemma AcknowledgedSpelled(err: Error)
    ensures Acknowledged(err) <==>
      || err.Nil?
      || (Leaves(err) != [] && forall l <- Leaves(err) :: l.SendError? && l.channel == "web_push" && l.permanent)
  {
    hide Leaves;
  }

  predicate PermanentPush(e: Error) {
    AllPermanentOn(Leaves(e), WEB_PUSH)
  }

  lemma {:induction false} SentLeavesPermanent(calls: seq<SendCall>, n: Notification, w: World)
    ensures AllPermanentOn(SentLeaves(calls, n, w), WEB_PUSH) <==>
            forall c <- calls :: PermanentPush(w.send(n, c))
    decreases |calls|
  {
    hide Leaves;
    if calls != [] {
      var init, last := calls[..|calls| - 1], calls[|calls| - 1];
      assert calls == init + [last];
      SentLeavesPermanent(init, n, w);
      VerdictConcat(SentLeaves(init, n, w), Leaves(w.send(n, last)), WEB_PUSH);
    }
  }

  /** Nothing went wrong for the recipient but permanent web push failures. */
  ghost predicate OnlyPermanentPush(recipient: string, n: Notification, w: World) {
    && w.preferences(recipient).Ok?
    && forall c <- CallsTo(recipient, n, w) :: PermanentPush(w.send(n, c))
  }

  lemma StorageErrorIsNotPermanentPush(e: Error)
    requires StorageError(e)
    ensures !PermanentPush(e)
  {
    FailureIsVisible(e);
    assert Leaves(e)[0] in Leaves(e);
  }

  lemma LeavesToPermanent(recipient: string, n: Notification, w: World)
    requires SaneWorld(w)
    ensures AllPermanentOn(LeavesTo(recipient, n, w), WEB_PUSH) <==> OnlyPermanentPush(recipient, n, w)
  {
    match w.preferences(recipient)
    case Err(e) => StorageErrorIsNotPermanentPush(e);
    case Ok(_) => SentLeavesPermanent(CallsTo(recipient, n, w), n, w);
  }

  lemma {:induction false} AllLeavesPermanent(recipients: seq<string>, n: Notification, w: World)
    requires SaneWorld(w)
    ensures AllPermanentOn(AllLeaves(recipients, n, w), WEB_PUSH) <==>
            forall r <- recipients :: OnlyPermanentPush(r, n, w)
    decreases |recipients|
  {
    hide OnlyPermanentPush, LeavesTo;
    if recipients != [] {
      var init, last := recipients[..|recipients| - 1], recipients[|recipients| - 1];
      AllLeavesPermanent(init, n, w);
      VerdictConcat(AllLeaves(init, n, w), LeavesTo(last, n, w), WEB_PUSH);
      LeavesToPermanent(last, n, w);
      assert recipients == init + [last];
      assert forall r :: r in recipients <==> r in init || r == last;
    }
  }

  /** The recipient's preference read, or some send to the recipient, failed. */
  ghost predicate FailedAt(recipient: string, n: Notification, w: World) {
    w.preferences(recipient).Err? || exists c <- CallsTo(recipient, n, w) :: !w.send(n, c).Nil?
  }

  ghost predicate SomethingFailed(recipients: seq<string>, n: Notification, w: World) {
    exists r <- recipients :: FailedAt(r, n, w)
  }

  ghost predicate AnyError(es: seq<Error>) {
    exists e <- es :: !e.Nil?
  }

  lemma FailuresAt(recipient: string, n: Notification, w: World)
    ensures AnyError(FailuresTo(recipient, n, w)) <==> FailedAt(recipient, n, w)
  {
    var fs := FailuresTo(recipient, n, w);
    if w.preferences(recipient).Err? {
      assert fs[0] in fs;
    } else {
      var calls := CallsTo(recipient, n, w);
      if c :| c in calls && !w.send(n, c).Nil? {
        var i :| 0 <= i < |calls| && calls[i] == c;
        assert fs[i] in fs && !fs[i].Nil?;
      }
      if f :| f in fs && !f.Nil? {
        var i :| 0 <= i < |fs| && fs[i] == f;
        assert calls[i] in calls;
      }
    }
  }

  lemma {:induction false} FailuresExist(recipients: seq<string>, n: Notification, w: World)
    ensures AnyError(Failures(recipients, n, w)) <==> SomethingFailed(recipients, n, w)
    decreases |recipients|
  {
    hide FailedAt, FailuresTo;
    if recipients != [] {
      var init, last := recipients[..|recipients| - 1], recipients[|recipients| - 1];
      FailuresExist(init, n, w);
      FailuresAt(last, n, w);
      assert recipients == init + [last];
      assert forall r :: r in recipients <==> r in init || r == last;
      var all := Failures(recipients, n, w);
      assert forall e :: e in all <==> e in Failures(init, n, w) || e in FailuresTo(last, n, w);
    }
  }

  lemma DispatchFailed(recipients: seq<string>, n: Notification, w: World)
    ensures !JoinAll(Nil, Failures(recipients, n, w)).Nil? <==> SomethingFailed(recipients, n, w)
  {
    var fs := Failures(recipients, n, w);
    NilJoinAll(Nil, fs);
    FailuresExist(recipients, n, w);
    assert AnyError(fs) <==> exists i :: 0 <= i < |fs| && !fs[i].Nil?;
  }

  /** A dispatch that reached its sends and returned an error is acknowledged exactly when
      something failed, every recipient's preferences were read, and every failed send met
      nothing but permanent web push failures. */
  lemma AckAfterErrorIff(n: Notification, w: World)
    requires SaneWorld(w) && Prepared(n, w).Through?
    ensures
      var Through(m, rs) := Prepared(n, w);
      var err := DispatchError(n, w);
      !err.Nil? && PermanentOnly(err, WEB_PUSH) <==>
        SomethingFailed(rs, m, w) && forall r <- rs :: OnlyPermanentPush(r, m, w)
  {
    var Through(m, rs) := Prepared(n, w);
    var err := DispatchError(n, w);
    DispatchFailed(rs, m, w);
    DispatchLeaves(n, w);
    AllLeavesPermanent(rs, m, w);
    if !err.Nil? {
      JoinAllWellBuilt(rs, m, w);
      FailureIsVisible(err);
    }
  }

  // ----- down to the subscriptions -----

  /** Web push is behind the web push calls of the dispatch, and the other providers, like
      storage, return no `SendError`s. */
  ghost predicate PushBehind(w: World, subs: string -> seq<string>, push: string -> WebPush.PushWorld) {
    && (forall n, call: SendCall :: call.channel == WEB_PUSH ==>
          w.send(n, call) == WebPush.SendResult(subs(call.recipient), push(call.recipient)))
    && (forall n, call: SendCall :: call.channel != WEB_PUSH ==> w.send(n, call).Nil? || StorageError(w.send(n, call)))
    && (forall r :: push(r).listError.Nil? || StorageError(push(r).listError))
    && (forall r :: push(r).encodeError.Nil? || StorageError(push(r).encodeError))
  }

  /** The subscriptions could be listed and the payload encoded, and each was served, gone, or
      refused for good. */
  ghost predicate PushFine(subs: seq<string>, p: WebPush.PushWorld) {
    && p.listError.Nil? && (subs != [] ==> p.encodeError.Nil?)
    && forall e <- subs :: WebPush.Outcome(e, p).Nil? || WebPush.PermanentlyRefused(e, p)
  }

  lemma PushCallPermanent(subs: seq<string>, p: WebPush.PushWorld)
    requires p.listError.Nil? || StorageError(p.listError)
    requires p.encodeError.Nil? || StorageError(p.encodeError)
    ensures PermanentPush(WebPush.SendResult(subs, p)) <==> PushFine(subs, p)
    ensures PushFine(subs, p) ==>
      (WebPush.SendResult(subs, p).Nil? <==> forall e <- subs :: !WebPush.PermanentlyRefused(e, p))
  {
    hide StorageError, WebPush.Outcome, WebPush.PermanentlyRefused;
    var err := WebPush.SendResult(subs, p);
    if !p.listError.Nil? {
      WrappedIsNotPermanentPush("list push subscriptions", p.listError);
    } else if subs != [] && !p.encodeError.Nil? {
      WrappedIsNotPermanentPush("marshal web push payload", p.encodeError);
    } else {
      OutcomesPermanent(subs, p);
    }
  }

  lemma WrappedIsNotPermanentPush(msg: string, e: Error)
    requires StorageError(e)
    ensures !PermanentPush(Wrap(msg, e)) && !Acknowledged(Wrap(msg, e))
  {
    StorageErrorIsNotPermanentPush(e);
    assert Leaves(Wrap(msg, e)) == Leaves(e);
  }

  lemma OutcomesPermanent(subs: seq<string>, p: WebPush.PushWorld)
    ensures
      var err := JoinAll(Nil, WebPush.Outcomes(subs, p));
      && (PermanentPush(err) <==>
            forall e <- subs :: WebPush.Outcome(e, p).Nil? || WebPush.PermanentlyRefused(e, p))
      && (err.Nil? <==> forall e <- subs :: WebPush.Outcome(e, p).Nil?)
      && (forall e <- subs :: WebPush.PermanentlyRefused(e, p) ==> !WebPush.Outcome(e, p).Nil?)
  {
    var outcomes := WebPush.Outcomes(subs, p);
    var err := JoinAll(Nil, outcomes);
    forall e <- subs ensures WebPush.PermanentlyRefused(e, p) ==> !WebPush.Outcome(e, p).Nil? {
    }
    hide WebPush.Outcome, WebPush.PermanentlyRefused;
    NilJoinAll(Nil, outcomes);
    WebPush.PushPermanentOnly(subs, p);
    assert err.Nil? <==> forall e <- subs :: WebPush.Outcome(e, p).Nil?;
    if !err.Nil? {
      OutcomesWellBuilt(subs, p);
      FailureIsVisible(err);
    }
  }

  lemma OutcomesWellBuilt(subs: seq<string>, p: WebPush.PushWorld)
    ensures WellBuilt(JoinAll(Nil, WebPush.Outcomes(subs, p)))
  {
    hide WebPush.Outcome;
    forall o <- WebPush.Outcomes(subs, p) ensures WellBuilt(o) {
      var i :| 0 <= i < |subs| && o == WebPush.Outcomes(subs, p)[i];
      OutcomeShape(subs[i], p);
    }
    WellBuiltJoinAll(Nil, WebPush.Outcomes(subs, p));
  }

  /** All of the recipient's sends went well or were refused for good. */
  ghost predicate AllFine(r: string, n: Notification, w: World,
                          subs: string -> seq<string>, push: string -> WebPush.PushWorld) {
    && w.preferences(r).Ok?
    && forall c <- CallsTo(r, n, w) ::
         if c.channel == WEB_PUSH then PushFine(subs(r), push(r)) else w.send(n, c).Nil?
  }

  /** Some subscription of the recipient, sent to, was refused for good. */
  ghost predicate RefusedAt(r: string, n: Notification, w: World,
                            subs: string -> seq<string>, push: string -> WebPush.PushWorld) {
    && (exists c <- CallsTo(r, n, w) :: c.channel == WEB_PUSH)
    && exists e <- subs(r) :: WebPush.PermanentlyRefused(e, push(r))
  }

  lemma CallsAreTheRecipients(r: string, n: Notification, w: World)
    ensures forall c <- CallsTo(r, n, w) :: c.recipient == r
  {
    hide Resolved;
    if w.preferences(r).Ok? {
      WithProviderMeaning(r, Resolved(w.preferences(r).value, n.channels, n.topic), w.registered);
    }
  }

  lemma FineIsPermanent(r: string, n: Notification, w: World,
                        subs: string -> seq<string>, push: string -> WebPush.PushWorld)
    requires PushBehind(w, subs, push)
    ensures AllFine(r, n, w, subs, push) <==> OnlyPermanentPush(r, n, w)
    ensures AllFine(r, n, w, subs, push) ==> (RefusedAt(r, n, w, subs, push) <==> FailedAt(r, n, w))
  {
    hide PushFine, PermanentPush, StorageError, WebPush.SendResult, WebPush.PermanentlyRefused, CallsTo;
    CallsAreTheRecipients(r, n, w);
    PushCallPermanent(subs(r), push(r));
    forall c <- CallsTo(r, n, w) | c.channel != WEB_PUSH ensures PermanentPush(w.send(n, c)) <==> w.send(n, c).Nil? {
      NilIsPermanentPush();
      if !w.send(n, c).Nil? {
        StorageErrorIsNotPermanentPush(w.send(n, c));
      }
    }
  }

  lemma NilIsPermanentPush()
    ensures PermanentPush(Nil)
  {
  }

  /** A dispatch that reached its sends and returned an error is acknowledged exactly when
      some push service refused some subscription for good and nothing else went wrong: all
      preferences were read, every other channel's send succeeded, and every subscription
      sent to was served, gone, or refused for good. */
  lemma AckDownToSubscriptions(n: Notification, w: World,
                               subs: string -> seq<string>, push: string -> WebPush.PushWorld)
    requires SaneWorld(w) && PushBehind(w, subs, push) && Prepared(n, w).Through?
    ensures
      var Through(m, rs) := Prepared(n, w);
      var err := DispatchError(n, w);
      !err.Nil? && PermanentOnly(err, WEB_PUSH) <==>
        && (exists r <- rs :: RefusedAt(r, m, w, subs, push))
        && (forall r <- rs :: AllFine(r, m, w, subs, push))
  {
    hide PushBehind, AllFine, RefusedAt, OnlyPermanentPush, FailedAt, DispatchError, PermanentOnly, SaneWorld;
    AckAfterErrorIff(n, w);
    var Through(m, rs) := Prepared(n, w);
    hide Prepared;
    forall r <- rs
      ensures AllFine(r, m, w, subs, push) <==> OnlyPermanentPush(r, m, w)
      ensures AllFine(r, m, w, subs, push) ==> (RefusedAt(r, m, w, subs, push) <==> FailedAt(r, m, w))
    {
      FineIsPermanent(r, m, w, subs, push);
    }
  }

  lemma {:induction false} WellBuiltJoinAll(acc: Error, es: seq<Error>)
    requires WellBuilt(acc) && forall e <- es :: WellBuilt(e)
    ensures WellBuilt(JoinAll(acc, es))
    decreases |es|
  {
    if es != [] {
      assert es[|es| - 1] in es;
      assert forall e <- es[..|es| - 1] :: e in es;
      WellBuiltJoinAll(acc, es[..|es| - 1]);
    }
  }

  lemma {:induction false} FailuresWellBuilt(recipients: seq<string>, n: Notification, w: World)
    requires SaneWorld(w)
    ensures forall f <- Failures(recipients, n, w) :: WellBuilt(f)
    decreases |recipients|
  {
    if recipients != [] {
      FailuresWellBuilt(recipients[..|recipients| - 1], n, w);
    }
  }

  lemma JoinAllWellBuilt(recipients: seq<string>, n: Notification, w: World)
    requires SaneWorld(w)
    ensures WellBuilt(JoinAll(Nil, Failures(recipients, n, w)))
  {
    FailuresWellBuilt(recipients, n, w);
    WellBuiltJoinAll(Nil, Failures(recipients, n, w));
  }

  /** A dispatch stopped before its sends is never acknowledged. */
  lemma StoppedIsNotAcknowledged(n: Notification, w: World)
    requires SaneWorld(w) && Prepared(n, w).Stopped?
    ensures !Acknowledged(DispatchError(n, w))
  {
    hide Normalized, Violation;
    var m := Normalized(n);
    if Violation(m, w.isUUID).Nil? {
      match w.upsert(m)
      case Err(e) =>
        StorageErrorIsNotPermanentPush(e);
      case Ok(id) =>
        StorageErrorIsNotPermanentPush(w.subscribers(m.topic).error);
    } else {
      ViolationIsPlain(m, w.isUUID);
      var v := Violation(m, w.isUUID);
      assert Leaves(Wrap("dispatch validate notification", v)) == [v];
      assert v in [v];
    }
  }

  lemma ViolationIsPlain(m: Notification, isUUID: string -> bool)
    ensures Violation(m, isUUID).Nil? || Violation(m, isUUID).Plain?
  {
  }

  /** Acknowledged means delivered: the notification was stored, every recipient's
      preferences were read, and every send succeeded except refusals by a web push
      service that would refuse again. */
  lemma AcknowledgedMeansDelivered(n: Notification, w: World)
    requires SaneWorld(w) && Acknowledged(DispatchError(n, w))
    ensures Prepared(n, w).Through?
    ensures
      var Through(m, rs) := Prepared(n, w);
      forall r <- rs :: w.preferences(r).Ok? &&
        forall c <- CallsTo(r, m, w) :: w.send(m, c).Nil? || PermanentPush(w.send(m, c))
  {
    if Prepared(n, w).Stopped? {
      StoppedIsNotAcknowledged(n, w);
      assert false;
    } else {
      var Through(m, rs) := Prepared(n, w);
      DispatchFailed(rs, m, w);
      AckAfterErrorIff(n, w);
    }
  }

  // ----- the sends that are attempted -----

  /** No (recipient, channel) pair is sent to twice. */
  ghost predicate AtMostOnce(calls: seq<SendCall>) {
    forall i, j :: 0 <= i < j < |calls| ==>
      calls[i].recipient != calls[j].recipient || calls[i].channel != calls[j].channel
  }

  lemma AtMostOnceConcat(before: seq<SendCall>, more: seq<SendCall>)
    requires AtMostOnce(before) && AtMostOnce(more)
    requires forall c <- before, d <- more :: c.recipient != d.recipient || c.channel != d.channel
    ensures AtMostOnce(before + more)
  {
    var calls := before + more;
    forall i, j | 0 <= i < j < |calls|
      ensures calls[i].recipient != calls[j].recipient || calls[i].channel != calls[j].channel
    {
      if i < |before| <= j {
        assert before[i] in before && more[j - |before|] in more;
      }
    }
  }

  lemma {:induction false} WithProviderMeaning(recipient: string, resolved: seq<ResolvedPreference>,
                                               registered: set<Channel>)
    ensures forall c :: c in WithProvider(recipient, resolved, registered) <==>
      c.recipient == recipient && c.channel in registered && ResolvedPreference(c.channel, c.config) in resolved
    ensures DistinctChannels(resolved) ==> AtMostOnce(WithProvider(recipient, resolved, registered))
    decreases |resolved|
  {
    if resolved != [] {
      var init, last := resolved[..|resolved| - 1], resolved[|resolved| - 1];
      assert resolved == init + [last];
      WithProviderMeaning(recipient, init, registered);
      if DistinctChannels(resolved) {
        var calls := WithProvider(recipient, init, registered);
        assert forall k :: 0 <= k < |init| ==> init[k] == resolved[k];
        assert DistinctChannels(init);
        forall c <- calls ensures c.channel != last.channel {
          var k :| 0 <= k < |init| && init[k] == ResolvedPreference(c.channel, c.config);
        }
        AtMostOnceConcat(calls, [SendCall(recipient, last.channel, last.config)]);
      }
    }
  }

  /** A dispatch serves its recipients one after the other. */
  lemma {:induction false} CallsInOrder(recipients: seq<string>, n: Notification, w: World, i: nat, j: nat)
    requires i < j < |Calls(recipients, n, w)|
    ensures
      var calls := Calls(recipients, n, w);
      exists a, b ::
        0 <= a <= b < |recipients| && recipients[a] == calls[i].recipient && recipients[b] == calls[j].recipient
    decreases |recipients|
  {
    hide CallsTo;
    var init, last := recipients[..|recipients| - 1], recipients[|recipients| - 1];
    var before, more := Calls(init, n, w), CallsTo(last, n, w);
    CallsAreTheRecipients(last, n, w);
    assert forall k :: 0 <= k < |init| ==> init[k] == recipients[k];
    if j < |before| {
      CallsInOrder(init, n, w, i, j);
      var a, b :| 0 <= a <= b < |init| && init[a] == before[i].recipient && init[b] == before[j].recipient;
      assert recipients[a] == before[i].recipient && recipients[b] == before[j].recipient;
    } else {
      assert more[j - |before|] in more;
      if i < |before| {
        CallBelongs(init, n, w, i);
        var a :| 0 <= a < |init| && init[a] == before[i].recipient;
        assert recipients[a] == before[i].recipient && recipients[|init|] == last;
      } else {
        assert more[i - |before|] in more;
        assert recipients[|init|] == last;
      }
    }
  }

  lemma {:induction false} CallBelongs(recipients: seq<string>, n: Notification, w: World, i: nat)
    requires i < |Calls(recipients, n, w)|
    ensures exists a :: 0 <= a < |recipients| && recipients[a] == Calls(recipients, n, w)[i].recipient
    decreases |recipients|
  {
    hide CallsTo;
    var init, last := recipients[..|recipients| - 1], recipients[|recipients| - 1];
    var before, more := Calls(init, n, w), CallsTo(last, n, w);
    CallsAreTheRecipients(last, n, w);
    if i < |before| {
      CallBelongs(init, n, w, i);
      var a :| 0 <= a < |init| && init[a] == before[i].recipient;
      assert recipients[a] == before[i].recipient;
    } else {
      assert more[i - |before|] in more;
      assert recipients[|init|] == last;
    }
  }

  /** The pair belongs to the dispatch: its recipient's preferences load and resolve to the
      channel, and the channel has a provider. */
  ghost predicate Due(c: SendCall, recipients: seq<string>, n: Notification, w: World) {
    && c.recipient in recipients
    && w.preferences(c.recipient).Ok?
    && c.channel in w.registered
    && ShouldUse(ResolvedPreference(c.channel, c.config), w.preferences(c.recipient).value, n.channels, n.topic)
  }

  /** The unique constraints of the tables: one preference row per channel, one
      subscription row per subject. */
  ghost predicate KeysHold(w: World) {
    && (forall r :: w.preferences(r).Ok? ==> UniqueByChannel(w.preferences(r).value))
    && (forall t :: w.subscribers(t).Ok? ==> Distinct(w.subscribers(t).value))
  }

  lemma {:induction false} CallsMeaning(recipients: seq<string>, n: Notification, w: World)
    requires KeysHold(w) && Distinct(n.channels)
    ensures forall c :: c in Calls(recipients, n, w) <==> Due(c, recipients, n, w)
    ensures Distinct(recipients) ==> AtMostOnce(Calls(recipients, n, w))
    decreases |recipients|
  {
    hide ShouldUse, Resolved, WithProvider;
    if recipients != [] {
      var init, last := recipients[..|recipients| - 1], recipients[|recipients| - 1];
      assert recipients == init + [last];
      CallsMeaning(init, n, w);
      if w.preferences(last).Ok? {
        var prefs := w.preferences(last).value;
        ResolvedMeaning(prefs, n.channels, n.topic);
        WithProviderMeaning(last, Resolved(prefs, n.channels, n.topic), w.registered);
      }
      var before, more := Calls(init, n, w), CallsTo(last, n, w);
      if Distinct(recipients) {
        assert forall k :: 0 <= k < |init| ==> init[k] == recipients[k];
        assert Distinct(init) && last !in init;
        AtMostOnceConcat(before, more);
      }
    }
  }

  /** The notification names a recipient; blanks do not count. */
  ghost predicate NamesSomeone(n: Notification) {
    exists x <- n.recipients :: TrimSpace(x) != ""
  }

  /** Whom a dispatch reaches, in terms of the notification as decoded: each trimmed recipient
      it names, or, if it names none but blanks, everybody subscribed to its topic; each
      once. Only in the latter case can the listing fail, and then nobody is reached. */
  lemma RecipientsReached(n: Notification, w: World)
    requires KeysHold(w) && Violation(Normalized(n), w.isUUID).Nil? && w.upsert(Normalized(n)).Ok?
    ensures
      var listed := w.subscribers(TrimSpace(n.topic));
      Prepared(n, w).Stopped? <==> !NamesSomeone(n) && listed.Err?
    ensures Prepared(n, w).Through? ==>
      var rs := Prepared(n, w).recipients;
      && Distinct(rs)
      && (NamesSomeone(n) ==> forall r :: r in rs <==> r != "" && exists x <- n.recipients :: TrimSpace(x) == r)
      && (!NamesSomeone(n) ==> rs == w.subscribers(TrimSpace(n.topic)).value)
  {
    hide TrimSpace, Violation, Unique;
    NormalizedIsClean(n);
    forall v ensures v in Unique(n.recipients) <==> v != "" && exists x :: x in n.recipients && TrimSpace(x) == v {
      UniqueMembers(n.recipients, v);
    }
    if Unique(n.recipients) != [] {
      assert Unique(n.recipients)[0] in Unique(n.recipients);
    }
    if NamesSomeone(n) {
      var x :| x in n.recipients && TrimSpace(x) != "";
      assert TrimSpace(x) in Unique(n.recipients);
    }
  }

  /** A dispatch sends exactly once to every (recipient, channel) that is due and to nothing
      else. The right-hand side mentions no send result, so no failure elsewhere matters. */
  lemma ExactAttempts(n: Notification, w: World)
    requires KeysHold(w) && Prepared(n, w).Through?
    ensures AtMostOnce(DispatchCalls(n, w))
    ensures
      var Through(m, rs) := Prepared(n, w);
      forall c :: c in DispatchCalls(n, w) <==> Due(c, rs, m, w)
  {
    hide Normalized, Violation, Due;
    NormalizedIsClean(n);
    var Through(m, rs) := Prepared(n, w);
    CallsMeaning(rs, m, w);
  }
}
