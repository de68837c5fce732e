/** Sending to a recipient's browser subscriptions (internal/provider/webpush/webpush.go)
    and the subscription table (internal/store/postgres.go). */
module WebPush {
  import opened Strings
  import opened GoErrors
  import opened Domain

  /** What `SendNotificationWithContext` returned for one endpoint. */
  datatype Reply =
    | TransportError(err: Error)
    | NoResponse
    | Response(status: int, body: string)

  /** The outside world of one `Send`: the table read, the payload encoding, each
      endpoint's reply, each deletion's error, and the `reason` field of a JSON body. */
  datatype PushWorld = PushWorld(
    listError: Error,
    encodeError: Error,
    reply: string -> Reply,
    deleteError: string -> Error,
    reason: string -> string)

  predicate Expired(reply: Reply) {
    reply.Response? && (reply.status == 404 || reply.status == 410)
  }

  predicate IsPermanentFailure(status: int, reason: string) {
    || (status == 429 && reason == "TooManyProviderTokenUpdates")
    || status == 400 || status == 403 || status == 404 || status == 410
  }

  predicate Rejected(reply: Reply) {
    reply.Response? && !Expired(reply) && (reply.status < 200 || reply.status >= 300)
  }

  function StatusError(reply: Reply): (e: Error)
    requires reply.Response?
    ensures !e.Nil?
  {
    var text := TrimSpace(reply.body);
    var e := Plain("web push unexpected status");
    if text == "" then e else Wrap("web push unexpected status: " + text, e)
  }

  /** What one subscription contributes to the error of the send. */
  function Outcome(endpoint: string, w: PushWorld): Error {
    var reply := w.reply(endpoint);
    if reply.TransportError? then TemporarySendError(WEB_PUSH, reply.err)
    else if Expired(reply) then TemporarySendError(WEB_PUSH, w.deleteError(endpoint))
    else if !Rejected(reply) then Nil
    else if IsPermanentFailure(reply.status, w.reason(TrimSpace(reply.body))) then
      PermanentSendError(WEB_PUSH, StatusError(reply))
    else
      TemporarySendError(WEB_PUSH, StatusError(reply))
  }

  function Outcomes(endpoints: seq<string>, w: PushWorld): (outcomes: seq<Error>)
    ensures |outcomes| == |endpoints|
    ensures forall i :: 0 <= i < |endpoints| ==> outcomes[i] == Outcome(endpoints[i], w)
  {
    seq(|endpoints|, i requires 0 <= i < |endpoints| => Outcome(endpoints[i], w))
  }

  /** A subscription failed for good: the push service refused it and would refuse it again. */
  predicate PermanentlyRefused(endpoint: string, w: PushWorld) {
    var reply := w.reply(endpoint);
    Rejected(reply) && IsPermanentFailure(reply.status, w.reason(TrimSpace(reply.body)))
  }

  /** What each answer of a push service comes to. A deletion that fails is tried again later,
      as is what the service did not refuse for good. */
  lemma OutcomeTable(endpoint: string, w: PushWorld)
    ensures
      var reply, o := w.reply(endpoint), Outcome(endpoint, w);
      match reply
      case TransportError(err) => o == if err.Nil? then Nil else SendError("web_push", false, err)
      case NoResponse => o.Nil?
      case Response(status, body) =>
        if 200 <= status < 300 then o.Nil?
        else if status == 404 || status == 410 then
          var err := w.deleteError(endpoint);
          o == if err.Nil? then Nil else SendError("web_push", false, err)
        else
          && o.SendError? && o.channel == "web_push" && !o.err.Nil?
          && (o.permanent <==>
                || status in {400, 403}
                || (status == 429 && w.reason(TrimSpace(body)) == "TooManyProviderTokenUpdates"))
  {
    hide TrimSpace;
  }

  /** The failures among the outcomes, in order. */
  function Failed(outcomes: seq<Error>): seq<Error>
    decreases |outcomes|
  {
    if outcomes == [] then []
    else
      var rest := Failed(outcomes[..|outcomes| - 1]);
      var last := outcomes[|outcomes| - 1];
      if last.Nil? then rest else rest + [last]
  }

  lemma {:induction false} FailedMembers(outcomes: seq<Error>)
    ensures forall e :: e in Failed(outcomes) <==> e in outcomes && !e.Nil?
    decreases |outcomes|
  {
    if outcomes != [] {
      var init, last := outcomes[..|outcomes| - 1], outcomes[|outcomes| - 1];
      assert outcomes == init + [last];
      FailedMembers(init);
    }
  }

  /** A walk over the error of a send meets the failed subscriptions one by one, in order. */
  lemma {:induction false} PushLeaves(outcomes: seq<Error>)
    requires forall o <- outcomes :: o.Nil? || o.SendError?
    ensures Leaves(JoinAll(Nil, outcomes)) == Failed(outcomes)
    decreases |outcomes|
  {
    if outcomes != [] {
      var init, last := outcomes[..|outcomes| - 1], outcomes[|outcomes| - 1];
      assert outcomes == init + [last];
      PushLeaves(init);
      LeavesOfJoin(JoinAll(Nil, init), last);
    }
  }

  /** The send as a whole counts as permanent exactly when something failed and whatever
      failed was refused for good; an expired endpoint that was deleted is no failure. */
  lemma PushPermanentOnly(endpoints: seq<string>, w: PushWorld)
    ensures
      var err := JoinAll(Nil, Outcomes(endpoints, w));
      PermanentOnly(err, WEB_PUSH) <==>
        && (exists e <- endpoints :: !Outcome(e, w).Nil?)
        && (forall e <- endpoints :: !Outcome(e, w).Nil? ==> PermanentlyRefused(e, w))
  {
    hide TrimSpace, StatusError, Leaves, JoinAll;
    var outcomes := Outcomes(endpoints, w);
    PushLeaves(outcomes);
    FailedMembers(outcomes);
    var leaves := Leaves(JoinAll(Nil, outcomes));
    forall e <- endpoints ensures Outcome(e, w) in outcomes {
      var i :| 0 <= i < |endpoints| && endpoints[i] == e;
      assert outcomes[i] == Outcome(e, w);
    }
    forall e <- endpoints
      ensures !Outcome(e, w).Nil? ==> (PermanentOn(Outcome(e, w), WEB_PUSH) <==> PermanentlyRefused(e, w))
    {
    }
    if leaves != [] {
      assert leaves[0] in leaves;
    }
  }

  datatype PushKeys = PushKeys(p256dh: string, auth: string, userAgent: string)

  type PushRows = map<(string, string), PushKeys>

  /** A successful statement on the subscription table. */
  datatype PushChange =
    | Subscribed(subject: string, endpoint: string, keys: PushKeys)
    | Unsubscribed(subject: string, endpoint: string)

  function Changed(rows: PushRows, c: PushChange): PushRows {
    match c
    case Subscribed(subject, endpoint, keys) => rows[(subject, endpoint) := keys]
    case Unsubscribed(subject, endpoint) => rows - {(subject, endpoint)}
  }

  function Subscriptions(changes: seq<PushChange>): PushRows
    decreases |changes|
  {
    if changes == [] then map[] else Changed(Subscriptions(changes[..|changes| - 1]), changes[|changes| - 1])
  }

  /** Position of the last change of this subscription, or the length. */
  function LastChange(changes: seq<PushChange>, subject: string, endpoint: string): (i: nat)
    ensures i <= |changes|
    ensures i < |changes| ==> changes[i].subject == subject && changes[i].endpoint == endpoint
    ensures forall k :: 0 <= k < |changes| && (k > i || i == |changes|) ==>
      changes[k].subject != subject || changes[k].endpoint != endpoint
    decreases |changes|
  {
    if changes == [] then 0
    else
      var last := |changes| - 1;
      if changes[last].subject == subject && changes[last].endpoint == endpoint then last
      else
        var i := LastChange(changes[..last], subject, endpoint);
        if i == last then |changes| else i
  }

  /** After any sequence of subscribing and unsubscribing, by anybody, a subject is listed
      with exactly the endpoints whose own last change was a subscription, each with the keys
      of that last one. */
  lemma {:induction false} ListedIffSubscribedLast(changes: seq<PushChange>, subject: string, endpoint: string)
    ensures
      var rows, i := Subscriptions(changes), LastChange(changes, subject, endpoint);
      && ((subject, endpoint) in rows <==> i < |changes| && changes[i].Subscribed?)
      && ((subject, endpoint) in rows ==> rows[(subject, endpoint)] == changes[i].keys)
    decreases |changes|
  {
    if changes != [] {
      ListedIffSubscribedLast(changes[..|changes| - 1], subject, endpoint);
    }
  }

  /** The `push_subscriptions` table, unique by (subject, endpoint). */
  class PushStore {
    var rows: PushRows

    constructor ()
      ensures rows == Subscriptions([])
    {
      rows := map[];
    }

    method Upsert(subject: string, endpoint: string, keys: PushKeys)
      modifies this
      ensures rows == Changed(old(rows), Subscribed(subject, endpoint, keys))
      ensures forall e :: (subject, e) in rows <==> e == endpoint || (subject, e) in old(rows)
      ensures forall k <- old(rows) :: k != (subject, endpoint) ==> k in rows && rows[k] == old(rows)[k]
    {
      rows := rows[(subject, endpoint) := keys];
    }

    /** The error, when there is one, is the database's and leaves the row in place. */
    method Delete(subject: string, endpoint: string, failure: Error) returns (err: Error)
      modifies this
      ensures err == failure
      ensures rows == if failure.Nil? then Changed(old(rows), Unsubscribed(subject, endpoint)) else old(rows)
      ensures failure.Nil? ==> forall e :: (subject, e) in rows <==> e != endpoint && (subject, e) in old(rows)
      ensures forall k <- old(rows) :: k != (subject, endpoint) ==> k in rows && rows[k] == old(rows)[k]
    {
      if !failure.Nil? {
        return failure;
      }
      rows := rows - {(subject, endpoint)};
      return Nil;
    }

    /** No order is asked of the database, so any order may come back. */
    method ListForSubject(subject: string) returns (endpoints: seq<string>)
      ensures Distinct(endpoints)
      ensures forall e :: e in endpoints <==> (subject, e) in rows
    {
      endpoints := [];
      var rest := set k <- rows.Keys | k.0 == subject :: k.1;
      assert forall e :: (subject, e) in rows ==> (subject, e).1 in rest;
      while rest != {}
        invariant Distinct(endpoints)
        invariant forall e :: (subject, e) in rows <==> e in endpoints || e in rest
        invariant forall e <- endpoints :: e !in rest
        decreases |rest|
      {
        var e :| e in rest;
        endpoints := endpoints + [e];
        rest := rest - {e};
      }
    }
  }

  /** The rows that one send removes: expired endpoints whose deletion succeeded. */
  ghost function Removed(recipient: string, endpoints: seq<string>, w: PushWorld): set<(string, string)> {
    set e <- endpoints | Expired(w.reply(e)) && w.deleteError(e).Nil? :: (recipient, e)
  }

  /** The error of a whole send, given what the database lists. */
  function SendResult(subs: seq<string>, w: PushWorld): Error {
    if !w.listError.Nil? then Wrap("list push subscriptions", w.listError)
    else if subs == [] then Nil
    else if !w.encodeError.Nil? then Wrap("marshal web push payload", w.encodeError)
    else JoinAll(Nil, Outcomes(subs, w))
  }

  /** One turn of the loop in `Send`. */
  method SendOne(store: PushStore, recipient: string, endpoint: string, w: PushWorld, sendErr: Error)
    returns (err: Error)
    modifies store
    ensures err == JoinOne(sendErr, Outcome(endpoint, w))
    ensures store.rows == old(store.rows) - Removed(recipient, [endpoint], w)
  {
    hide TrimSpace, StatusError;
    var reply := w.reply(endpoint);
    if reply.TransportError? && !reply.err.Nil? {
      return Join(sendErr, TemporarySendError(WEB_PUSH, reply.err));
    }
    if reply.Response? {
      var bodyText := TrimSpace(reply.body);
      if reply.status == 404 || reply.status == 410 {
        var delErr := store.Delete(recipient, endpoint, w.deleteError(endpoint));
        if !delErr.Nil? {
          return Join(sendErr, TemporarySendError(WEB_PUSH, delErr));
        }
        return sendErr;
      }
      if reply.status < 200 || reply.status >= 300 {
        var statusErr := StatusError(reply);
        if IsPermanentFailure(reply.status, w.reason(bodyText)) {
          return Join(sendErr, PermanentSendError(WEB_PUSH, statusErr));
        }
        return Join(sendErr, TemporarySendError(WEB_PUSH, statusErr));
      }
    }
    return sendErr;
  }

  /** `Send`. `subs` reports the order in which the database listed the subscriptions. */
  method Send(store: PushStore, recipient: string, w: PushWorld) returns (err: Error, subs: seq<string>)
    modifies store
    ensures !w.listError.Nil? ==>
      err == Wrap("list push subscriptions", w.listError) && store.rows == old(store.rows)
    ensures w.listError.Nil? ==>
      Distinct(subs) && forall e :: e in subs <==> (recipient, e) in old(store.rows)
    ensures w.listError.Nil? && w.encodeError.Nil? ==>
      && err == JoinAll(Nil, Outcomes(subs, w))
      && store.rows == old(store.rows) - Removed(recipient, subs, w)
    ensures w.listError.Nil? && !w.encodeError.Nil? ==>
      store.rows == old(store.rows) && (err.Nil? <==> subs == [])
    ensures err == SendResult(subs, w)
    ensures w.listError.Nil? && w.encodeError.Nil? ==> forall k :: k in store.rows <==>
      && k in old(store.rows)
      && !(k.0 == recipient && w.reply(k.1).Response? && w.reply(k.1).status in {404, 410} && w.deleteError(k.1).Nil?)
  {
    hide Outcome;
    subs := [];
    if !w.listError.Nil? {
      return Wrap("list push subscriptions", w.listError), subs;
    }
    subs := store.ListForSubject(recipient);
    if |subs| == 0 {
      return Nil, subs;
    }
    if !w.encodeError.Nil? {
      return Wrap("marshal web push payload", w.encodeError), subs;
    }

    var sendErr := Nil;
    for i := 0 to |subs|
      invariant sendErr == JoinAll(Nil, Outcomes(subs, w)[..i])
      invariant store.rows == old(store.rows) - Removed(recipient, subs[..i], w)
    {
      assert subs[..i + 1] == subs[..i] + [subs[i]];
      assert Removed(recipient, subs[..i + 1], w)
        == Removed(recipient, subs[..i], w) + Removed(recipient, [subs[i]], w);
      assert Outcomes(subs, w)[..i + 1] == Outcomes(subs, w)[..i] + [Outcome(subs[i], w)];
      JoinAllStep(Nil, Outcomes(subs, w)[..i], Outcome(subs[i], w));
      sendErr := SendOne(store, recipient, subs[i], w, sendErr);
    }
    assert subs[..|subs|] == subs && Outcomes(subs, w)[..|subs|] == Outcomes(subs, w);
    return sendErr, subs;
  }
}
