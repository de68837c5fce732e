/** One dispatch of a notification (internal/dispatch/dispatcher.go) and the decision
    to acknowledge it (internal/consumer/runner.go). */
module Dispatch {
  import opened GoErrors
  import opened Domain
  import opened Preferences

  datatype SendCall = SendCall(recipient: string, channel: Channel, config: string)

  /** What storage and providers answer during one dispatch. */
  datatype World = World(
    isUUID: string -> bool,
    upsert: Notification -> Result<string>,
    subscribers: string -> Result<seq<string>>,
    preferences: string -> Result<seq<Preference>>,
    registered: set<Channel>,
    send: (Notification, SendCall) -> Error)

  /** The resolved channels that have a provider, in order. */
  function WithProvider(recipient: string, resolved: seq<ResolvedPreference>, registered: set<Channel>): seq<SendCall>
    decreases |resolved|
  {
    if resolved == [] then []
    else
      var rest := WithProvider(recipient, resolved[..|resolved| - 1], registered);
      var r := resolved[|resolved| - 1];
      if r.channel in registered then rest + [SendCall(recipient, r.channel, r.config)] else rest
  }

  function CallsTo(recipient: string, n: Notification, w: World): seq<SendCall> {
    match w.preferences(recipient)
    case Err(_) => []
    case Ok(prefs) => WithProvider(recipient, Resolved(prefs, n.channels, n.topic), w.registered)
  }

  function Calls(recipients: seq<string>, n: Notification, w: World): seq<SendCall>
    decreases |recipients|
  {
    if recipients == [] then []
    else Calls(recipients[..|recipients| - 1], n, w) + CallsTo(recipients[|recipients| - 1], n, w)
  }

  function WrapCall(call: SendCall, e: Error): Error {
    if e.Nil? then Nil else Wrap(call.channel + " send to " + call.recipient, e)
  }

  function CallError(call: SendCall, n: Notification, w: World): Error {
    WrapCall(call, w.send(n, call))
  }

  /** What each call contributed to the error, nil for a success. */
  function CallErrors(calls: seq<SendCall>, n: Notification, w: World): (errs: seq<Error>)
    ensures |errs| == |calls|
    ensures forall i :: 0 <= i < |calls| ==> errs[i] == CallError(calls[i], n, w)
  {
    seq(|calls|, i requires 0 <= i < |calls| => CallError(calls[i], n, w))
  }

  function FailuresTo(recipient: string, n: Notification, w: World): seq<Error> {
    match w.preferences(recipient)
    case Err(e) => [Wrap("resolve channels for " + recipient, e)]
    case Ok(_) => CallErrors(CallsTo(recipient, n, w), n, w)
  }

  function Failures(recipients: seq<string>, n: Notification, w: World): seq<Error>
    decreases |recipients|
  {
    if recipients == [] then []
    else Failures(recipients[..|recipients| - 1], n, w) + FailuresTo(recipients[|recipients| - 1], n, w)
  }

  function Recipients(n: Notification, w: World): Result<seq<string>> {
    if n.recipients != [] then Ok(n.recipients)
    else
      match w.subscribers(n.topic)
      case Ok(rs) => Ok(rs)
      case Err(e) => Err(Wrap("list topic subscribers", e))
  }

  /** How far a dispatch got: stopped by an early error, or through all its sends. */
  datatype Outcome = Stopped(err: Error) | Through(n: Notification, recipients: seq<string>)

  /** The notification is validated as normalised, and stored before anything is sent. */
  function Prepared(n: Notification, w: World): Outcome {
    var m := Normalized(n);
    var v := Violation(m, w.isUUID);
    if !v.Nil? then Stopped(Wrap("dispatch validate notification", v))
    else
      match w.upsert(m)
      case Err(e) => Stopped(Wrap("persist notification", e))
      case Ok(id) =>
        var stored := m.(id := id);
        match Recipients(stored, w)
        case Err(e) => Stopped(e)
        case Ok(rs) => Through(stored, rs)
  }

  /** The record after a dispatch: normalised, and with the id it was stored under, unless
      validation or storage failed. */
  function Recorded(n: Notification, w: World): Notification {
    var m := Normalized(n);
    if Violation(m, w.isUUID).Nil? && w.upsert(m).Ok? then m.(id := w.upsert(m).value) else m
  }

  function DispatchError(n: Notification, w: World): Error {
    match Prepared(n, w)
    case Stopped(e) => e
    case Through(m, rs) => JoinAll(Nil, Failures(rs, m, w))
  }

  function DispatchCalls(n: Notification, w: World): seq<SendCall> {
    match Prepared(n, w)
    case Stopped(_) => []
    case Through(m, rs) => Calls(rs, m, w)
  }

  lemma {:induction false} JoinAllConcat(acc: Error, es: seq<Error>, fs: seq<Error>)
    ensures JoinAll(acc, es + fs) == JoinAll(JoinAll(acc, es), fs)
    decreases |fs|
  {
    if fs == [] {
      assert es + fs == es;
    } else {
      assert (es + fs)[..|es + fs| - 1] == es + fs[..|fs| - 1];
      JoinAllConcat(acc, es, fs[..|fs| - 1]);
    }
  }

  /** The sends to one recipient, `sendErr` going in and coming out. */
  method SendTo(recipient: string, n: Notification, w: World, sendErr: Error)
    returns (err: Error, calls: seq<SendCall>)
    ensures calls == CallsTo(recipient, n, w)
    ensures err == JoinAll(sendErr, FailuresTo(recipient, n, w))
  {
    err, calls := sendErr, [];
    var loaded := w.preferences(recipient);
    if loaded.Err? {
      err := Join(err, Wrap("resolve channels for " + recipient, loaded.error));
      var failure := Wrap("resolve channels for " + recipient, loaded.error);
      assert [failure][..0] == [];
      return;
    }
    var resolved := ResolveChannels(loaded.value, n.channels, n.topic);
    for i := 0 to |resolved|
      invariant calls == WithProvider(recipient, resolved[..i], w.registered)
      invariant err == JoinAll(sendErr, CallErrors(calls, n, w))
    {
      var target := resolved[i];
      assert resolved[..i + 1][..i] == resolved[..i];
      if target.channel !in w.registered {
        continue;
      }
      var call := SendCall(recipient, target.channel, target.config);
      JoinAllStep(sendErr, CallErrors(calls, n, w), CallError(call, n, w));
      assert CallErrors(calls + [call], n, w) == CallErrors(calls, n, w) + [CallError(call, n, w)];
      calls := calls + [call];
      var e := w.send(n, call);
      if !e.Nil? {
        err := Join(err, Wrap(target.channel + " send to " + recipient, e));
      }
    }
    assert resolved[..|resolved|] == resolved;
  }

  method ResolveRecipients(n: Notification, w: World) returns (r: Result<seq<string>>)
    ensures r == Recipients(n, w)
  {
    if |n.recipients| > 0 {
      return Ok(n.recipients);
    }
    var listed := w.subscribers(n.topic);
    if listed.Err? {
      return Err(Wrap("list topic subscribers", listed.error));
    }
    return Ok(listed.value);
  }

  /** `Dispatch`; `calls` logs the provider sends in order. The record is normalised in
      place and takes the id that storage assigned. */
  method Dispatch(n: NotificationRecord, w: World) returns (err: Error, calls: seq<SendCall>)
    modifies n
    ensures err == DispatchError(old(n.Value()), w)
    ensures calls == DispatchCalls(old(n.Value()), w)
    ensures n.Value() == Recorded(old(n.Value()), w)
  {
    hide Normalized, Violation, Resolved, JoinAll, CallsTo, FailuresTo;
    calls := [];
    var invalid := ValidateNotification(n, w.isUUID);
    if !invalid.Nil? {
      return Wrap("dispatch validate notification", invalid), calls;
    }
    var upserted := w.upsert(n.Value());
    if upserted.Err? {
      return Wrap("persist notification", upserted.error), calls;
    }
    n.id := upserted.value;
    var stored := n.Value();
    var listed := ResolveRecipients(stored, w);
    if listed.Err? {
      return listed.error, calls;
    }
    var recipients := listed.value;
    err, calls := SendAll(recipients, stored, w);
  }

  method SendAll(recipients: seq<string>, n: Notification, w: World) returns (err: Error, calls: seq<SendCall>)
    ensures err == JoinAll(Nil, Failures(recipients, n, w))
    ensures calls == Calls(recipients, n, w)
  {
    err, calls := Nil, [];
    if |recipients| == 0 {
      return;
    }
    for i := 0 to |recipients|
      invariant calls == Calls(recipients[..i], n, w)
      invariant err == JoinAll(Nil, Failures(recipients[..i], n, w))
    {
      assert recipients[..i + 1][..i] == recipients[..i];
      JoinAllConcat(Nil, Failures(recipients[..i], n, w), FailuresTo(recipients[i], n, w));
      var more;
      err, more := SendTo(recipients[i], n, w, err);
      calls := calls + more;
    }
    assert recipients[..|recipients|] == recipients;
  }
}
