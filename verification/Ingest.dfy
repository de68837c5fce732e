/** The two loops of the ingest handler (internal/ingest/http.go): validate everything, then
    submit one by one until the buffer is full. */
module Ingest {
  import opened Wrappers
  import opened GoErrors
  import opened Domain
  import Buffer

  datatype Reply =
    | NotificationsRequired
    | Invalid(err: Error)
    | BufferFull(accepted: nat)
    | Accepted(count: nat)

  /** What the record at each position would be once normalised. */
  ghost function NormalizedValues(body: seq<NotificationRecord?>): (values: seq<Notification>)
    reads set r <- body | r != null :: r
    requires forall r <- body :: r != null
    ensures |values| == |body|
  {
    seq(|body|, i requires 0 <= i < |body| reads set r <- body | r != null :: r =>
      assert body[i] in body;
      Normalized(body[i].Value()))
  }

  ghost predicate AllValid(body: seq<NotificationRecord?>, isUUID: string -> bool)
    reads set r <- body | r != null :: r
  {
    forall r <- body :: r != null && Violation(Normalized(r.Value()), isUUID).Nil?
  }

  /** Nothing is submitted unless every notification is valid; then exactly the longest
      prefix of the request that fits is accepted, normalised and in order. The same record
      may occur twice in a request. */
  method Ingest(body: seq<NotificationRecord?>, isUUID: string -> bool, buf: Buffer.Queue) returns (reply: Reply)
    modifies buf, set r <- body | r != null :: r
    ensures body == [] ==> reply == NotificationsRequired && buf.ch == old(buf.ch)
    ensures body != [] && !old(AllValid(body, isUUID)) ==>
      reply.Invalid? && !reply.err.Nil? && buf.ch == old(buf.ch)
    ensures body != [] && old(AllValid(body, isUUID)) && |old(buf.ch)| <= buf.capacity ==>
      var room := buf.capacity - |old(buf.ch)|;
      var values := old(NormalizedValues(body));
      if |body| <= room then
        reply == Accepted(|body|) && buf.ch == old(buf.ch) + values
      else
        reply == BufferFull(room) && buf.ch == old(buf.ch) + values[..room]
  {
    hide Normalized, Violation, FirstBad;
    if |body| == 0 {
      return NotificationsRequired;
    }
    assert forall i :: 0 <= i < |body| ==> body[i] in body;
    var invalid := ValidateAll(body, isUUID);
    if !invalid.Nil? {
      return Invalid(invalid);
    }
    var idx := SubmitAll(body, buf);
    if idx < |body| {
      return BufferFull(idx);
    }
    return Accepted(|body|);
  }

  method ValidateAll(body: seq<NotificationRecord?>, isUUID: string -> bool) returns (err: Error)
    modifies set r <- body | r != null :: r
    ensures err.Nil? <==> old(AllValid(body, isUUID))
    ensures err.Nil? ==> forall i :: 0 <= i < |body| ==>
      body[i] != null && body[i].Value() == Normalized(old(body[i].Value()))
  {
    hide Normalized, Violation;
    for i := 0 to |body|
      invariant forall k :: 0 <= k < i ==>
        && body[k] != null
        && body[k].Value() == Normalized(old(body[k].Value()))
        && Violation(Normalized(old(body[k].Value())), isUUID).Nil?
      invariant forall r <- body :: r != null ==>
        r.Value() == old(r.Value()) || r.Value() == Normalized(old(r.Value()))
    {
      var n := body[i];
      assert n in body;
      if n != null {
        NormalizeIdempotent(old(n.Value()));
      }
      err := ValidateNotification(n, isUUID);
      if !err.Nil? {
        return;
      }
    }
    return Nil;
  }

  /** How many were accepted before the buffer was full. */
  method SubmitAll(body: seq<NotificationRecord?>, buf: Buffer.Queue) returns (accepted: nat)
    requires forall i :: 0 <= i < |body| ==> body[i] != null
    modifies buf
    ensures accepted <= |body|
    ensures |buf.ch| == |old(buf.ch)| + accepted && buf.ch[..|old(buf.ch)|] == old(buf.ch)
    ensures forall k :: 0 <= k < accepted ==> buf.ch[|old(buf.ch)| + k] == body[k].Value()
    ensures accepted < |body| ==> |buf.ch| >= buf.capacity
    ensures |old(buf.ch)| <= buf.capacity ==> |buf.ch| <= buf.capacity
  {
    accepted := 0;
    for idx := 0 to |body|
      invariant forall i :: 0 <= i < |body| ==> body[i] != null
      invariant |buf.ch| == |old(buf.ch)| + idx && buf.ch[..|old(buf.ch)|] == old(buf.ch)
      invariant forall k :: 0 <= k < idx ==> buf.ch[|old(buf.ch)| + k] == body[k].Value()
      invariant accepted == idx
      invariant |old(buf.ch)| <= buf.capacity ==> |buf.ch| <= buf.capacity
    {
      var err := buf.Submit(Some(body[idx].Value()));
      if !err.Nil? {
        return;
      }
      accepted := idx + 1;
    }
  }
}
