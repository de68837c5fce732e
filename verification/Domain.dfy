/** Notifications, their normalisation and validation (internal/domain/types.go). */
module Domain {
  import opened Strings
  import opened GoErrors

  type Channel = string

  const SITE: Channel := "site"
  const TELEGRAM: Channel := "telegram"
  const EMAIL: Channel := "email"
  const WEB_PUSH: Channel := "web_push"

  predicate ValidChannel(c: Channel) {
    c == SITE || c == TELEGRAM || c == EMAIL || c == WEB_PUSH
  }

  const PRIORITY_NORMAL := "normal"

  predicate ValidPriority(p: string) {
    p == "low" || p == PRIORITY_NORMAL || p == "high" || p == "urgent"
  }

  /** The fields of a notification that travel in its JSON body. */
  datatype Notification = Notification(
    id: string,
    topic: string,
    title: string,
    body: string,
    link: string,
    metadata: map<string, string>,
    priority: string,
    recipients: seq<string>,
    channels: seq<Channel>,
    sender: string)

  ghost predicate Distinct<T>(s: seq<T>) {
    forall i, j :: 0 <= i < j < |s| ==> s[i] != s[j]
  }

  /** Trimmed, non-empty values, each at its first occurrence. */
  function Unique(values: seq<string>): seq<string>
    decreases |values|
  {
    if values == [] then []
    else
      var rest := Unique(values[..|values| - 1]);
      var v := TrimSpace(values[|values| - 1]);
      if v == "" || v in rest then rest else rest + [v]
  }

  /** `uniqueStrings`; `uniqueChannels` and the preference handler's `normalizeTopics`
      run the same loop. Nil and empty slices are both the empty sequence here. */
  method UniqueStrings(values: seq<string>) returns (out: seq<string>)
    ensures out == Unique(values)
  {
    out := [];
    if |values| == 0 {
      return;
    }
    var seen: set<string> := {};
    for i := 0 to |values|
      invariant out == Unique(values[..i])
      invariant seen == set v | v in out
    {
      assert values[..i + 1][..i] == values[..i];
      var value := TrimSpace(values[i]);
      if value == "" {
        continue;
      }
      if value in seen {
        continue;
      }
      seen := seen + {value};
      out := out + [value];
    }
    assert values[..|values|] == values;
  }

  /** Already normalised: nothing to trim, drop or merge. */
  ghost predicate Clean(values: seq<string>) {
    Distinct(values) && forall v <- values :: v != "" && Trimmed(v)
  }

  /** Position of the first value that trims to `v`, or the length. */
  function FirstAt(values: seq<string>, v: string): (i: nat)
    ensures i <= |values|
    ensures i < |values| ==> TrimSpace(values[i]) == v
    ensures forall k :: 0 <= k < i ==> TrimSpace(values[k]) != v
  {
    if values == [] || TrimSpace(values[0]) == v then 0 else 1 + FirstAt(values[1..], v)
  }

  lemma {:induction false} UniqueMembers(values: seq<string>, v: string)
    ensures v in Unique(values) <==> v != "" && exists x :: x in values && TrimSpace(x) == v
    decreases |values|
  {
    if values != [] {
      var init, last := values[..|values| - 1], values[|values| - 1];
      UniqueMembers(init, v);
      assert values == init + [last];
      assert v in Unique(values) <==> v in Unique(init) || (v != "" && v == TrimSpace(last));
    }
  }

  lemma {:induction false} UniqueIsClean(values: seq<string>)
    ensures Clean(Unique(values))
    decreases |values|
  {
    if values != [] {
      UniqueIsClean(values[..|values| - 1]);
      TrimSpaceSplits(values[|values| - 1]);
    }
  }

  lemma {:induction false} CleanIsFixed(values: seq<string>)
    requires Clean(values)
    ensures Unique(values) == values
    decreases |values|
  {
    if values != [] {
      var init, last := values[..|values| - 1], values[|values| - 1];
      assert values == init + [last];
      assert forall v <- init :: v in values;
      CleanIsFixed(init);
      assert last in values;
      TrimmedIsFixed(last);
      assert last !in init;
    }
  }

  lemma FirstAtExtended(values: seq<string>, last: string, v: string)
    ensures
      var i := FirstAt(values, v);
      FirstAt(values + [last], v) ==
        if i < |values| then i else if TrimSpace(last) == v then |values| else |values| + 1
  {
    var i, j := FirstAt(values, v), FirstAt(values + [last], v);
    assert forall k :: 0 <= k < |values| ==> (values + [last])[k] == values[k];
    assert (values + [last])[|values|] == last;
  }

  /** The kept values appear in the order of their first occurrences. */
  lemma {:induction false} UniqueKeepsOrder(values: seq<string>, i: nat, j: nat)
    requires i < j < |Unique(values)|
    ensures FirstAt(values, Unique(values)[i]) < FirstAt(values, Unique(values)[j]) < |values|
    decreases |values|
  {
    var init, last := values[..|values| - 1], values[|values| - 1];
    var vi, vj := Unique(values)[i], Unique(values)[j];
    assert values == init + [last];
    FirstAtExtended(init, last, vi);
    FirstAtExtended(init, last, vj);
    UniqueIsClean(values);
    assert vi in Unique(values) && vj in Unique(values);
    UniqueFound(init, vi);
    if j < |Unique(init)| {
      UniqueKeepsOrder(init, i, j);
    } else {
      UniqueFound(init, vj);
    }
  }

  lemma UniqueFound(values: seq<string>, v: string)
    requires v != ""
    ensures v in Unique(values) <==> FirstAt(values, v) < |values|
  {
    UniqueMembers(values, v);
    var i := FirstAt(values, v);
    if i < |values| {
      assert values[i] in values;
    }
  }

  /** `Normalize` as a function of the fields. */
  function Normalized(n: Notification): Notification {
    n.(topic := TrimSpace(n.topic),
       title := TrimSpace(n.title),
       body := TrimSpace(n.body),
       link := TrimSpace(n.link),
       sender := TrimSpace(n.sender),
       recipients := Unique(n.recipients),
       channels := Unique(n.channels),
       priority := if n.priority == "" then PRIORITY_NORMAL else n.priority)
  }

  /** Field by field: texts trimmed, lists trimmed and without blanks and repeats, an absent
      priority made normal, and nothing else touched. */
  lemma NormalizedFields(n: Notification)
    ensures
      var m := Normalized(n);
      && m.topic == TrimSpace(n.topic) && m.title == TrimSpace(n.title) && m.body == TrimSpace(n.body)
      && m.link == TrimSpace(n.link) && m.sender == TrimSpace(n.sender)
      && m.priority == (if n.priority == "" then "normal" else n.priority)
      && (forall r :: r in m.recipients <==> r != "" && exists x <- n.recipients :: TrimSpace(x) == r)
      && (forall c :: c in m.channels <==> c != "" && exists x <- n.channels :: TrimSpace(x) == c)
      && m.id == n.id && m.metadata == n.metadata
  {
    hide TrimSpace, Unique;
    forall v
      ensures v in Unique(n.recipients) <==> v != "" && exists x <- n.recipients :: TrimSpace(x) == v
      ensures v in Unique(n.channels) <==> v != "" && exists x <- n.channels :: TrimSpace(x) == v
    {
      UniqueMembers(n.recipients, v);
      UniqueMembers(n.channels, v);
    }
  }

  lemma NormalizedIsClean(n: Notification)
    ensures Clean(Normalized(n).recipients) && Clean(Normalized(n).channels)
    ensures Trimmed(Normalized(n).topic) && Trimmed(Normalized(n).title)
  {
    UniqueIsClean(n.recipients);
    UniqueIsClean(n.channels);
    TrimSpaceSplits(n.topic);
    TrimSpaceSplits(n.title);
  }

  lemma NormalizeIdempotent(n: Notification)
    ensures Normalized(Normalized(n)) == Normalized(n)
  {
    NormalizedIsClean(n);
    CleanIsFixed(Normalized(n).recipients);
    CleanIsFixed(Normalized(n).channels);
    TrimIdempotent(n.topic);
    TrimIdempotent(n.title);
    TrimIdempotent(n.body);
    TrimIdempotent(n.link);
    TrimIdempotent(n.sender);
  }

  function FirstBad(values: seq<string>, good: string -> bool): (i: nat)
    ensures i <= |values|
    ensures i < |values| ==> !good(values[i])
    ensures forall k :: 0 <= k < i ==> good(values[k])
  {
    if values == [] || !good(values[0]) then 0 else 1 + FirstBad(values[1..], good)
  }

  /** The first rule a normalised notification breaks, in the order the service checks them. */
  function Violation(n: Notification, isUUID: string -> bool): Error {
    var r := FirstBad(n.recipients, isUUID);
    var c := FirstBad(n.channels, (c: Channel) => ValidChannel(c));
    if n.id != "" && !isUUID(n.id) then Plain("notification id must be a valid UUID")
    else if n.topic == "" then Plain("topic is required")
    else if n.title == "" then Plain("title is required")
    else if !ValidPriority(n.priority) then Plain("priority " + n.priority + " is invalid")
    else if r < |n.recipients| then Plain("recipient " + n.recipients[r] + " must be a valid UUID")
    else if c < |n.channels| then Plain("channel " + n.channels[c] + " is invalid")
    else Nil
  }

  /** What a notification must satisfy to be accepted. */
  predicate Acceptable(n: Notification, isUUID: string -> bool) {
    && (n.id == "" || isUUID(n.id))
    && n.topic != "" && n.title != ""
    && ValidPriority(n.priority)
    && (forall r <- n.recipients :: isUUID(r))
    && (forall c <- n.channels :: ValidChannel(c))
  }

  lemma ViolationFindsAll(n: Notification, isUUID: string -> bool)
    ensures Violation(n, isUUID).Nil? <==> Acceptable(n, isUUID)
    ensures Violation(n, isUUID).Nil? <==>
      && (n.id != "" ==> isUUID(n.id))
      && n.topic != "" && n.title != ""
      && n.priority in {"low", "normal", "high", "urgent"}
      && (forall r <- n.recipients :: isUUID(r))
      && (forall c <- n.channels :: c in {"site", "telegram", "email", "web_push"})
  {
    var r := FirstBad(n.recipients, isUUID);
    var c := FirstBad(n.channels, (c: Channel) => ValidChannel(c));
    if Acceptable(n, isUUID) {
      assert forall i :: 0 <= i < |n.recipients| ==> n.recipients[i] in n.recipients;
      assert forall i :: 0 <= i < |n.channels| ==> n.channels[i] in n.channels;
    }
  }

  /** What ingest accepted, dispatch accepts again and does not change. */
  lemma ValidationStable(n: Notification, isUUID: string -> bool)
    requires Violation(Normalized(n), isUUID).Nil?
    ensures Normalized(Normalized(n)) == Normalized(n)
    ensures Violation(Normalized(Normalized(n)), isUUID).Nil?
  {
    NormalizeIdempotent(n);
  }

  /** A notification as the service holds it: a pointer whose fields `Normalize` rewrites. */
  class NotificationRecord {
    var id: string
    var topic: string
    var title: string
    var body: string
    var link: string
    var metadata: map<string, string>
    var priority: string
    var recipients: seq<string>
    var channels: seq<Channel>
    var sender: string

    constructor (n: Notification)
      ensures Value() == n
    {
      id, topic, title, body, link := n.id, n.topic, n.title, n.body, n.link;
      metadata, priority, recipients := n.metadata, n.priority, n.recipients;
      channels, sender := n.channels, n.sender;
    }

    function Value(): Notification
      reads this
    {
      Notification(id, topic, title, body, link, metadata, priority, recipients, channels, sender)
    }

    method Normalize()
      modifies this
      ensures Value() == Normalized(old(Value()))
      ensures topic == TrimSpace(old(topic)) && title == TrimSpace(old(title)) && body == TrimSpace(old(body))
      ensures link == TrimSpace(old(link)) && sender == TrimSpace(old(sender))
      ensures priority == if old(priority) == "" then "normal" else old(priority)
      ensures recipients == Unique(old(recipients)) && channels == Unique(old(channels))
      ensures id == old(id) && metadata == old(metadata)
    {
      hide TrimSpace, Unique;
      topic := TrimSpace(topic);
      title := TrimSpace(title);
      body := TrimSpace(body);
      link := TrimSpace(link);
      sender := TrimSpace(sender);
      recipients := UniqueStrings(recipients);
      channels := UniqueStrings(channels);
      if priority == "" {
        priority := PRIORITY_NORMAL;
      }
    }
  }

  method ValidateNotification(n: NotificationRecord?, isUUID: string -> bool) returns (err: Error)
    modifies if n == null then {} else {n}
    ensures n == null ==> err == Plain("notification is required")
    ensures n != null ==>
      n.Value() == Normalized(old(n.Value())) && err == Violation(n.Value(), isUUID)
  {
    hide TrimSpace, Unique, Normalized, FirstBad;
    if n == null {
      return Plain("notification is required");
    }
    n.Normalize();
    if n.id != "" {
      if !isUUID(n.id) {
        return Plain("notification id must be a valid UUID");
      }
    }
    if n.topic == "" {
      return Plain("topic is required");
    }
    if n.title == "" {
      return Plain("title is required");
    }
    if !ValidPriority(n.priority) {
      return Plain("priority " + n.priority + " is invalid");
    }
    for i := 0 to |n.recipients|
      invariant forall k :: 0 <= k < i ==> isUUID(n.recipients[k])
    {
      if !isUUID(n.recipients[i]) {
        return Plain("recipient " + n.recipients[i] + " must be a valid UUID");
      }
    }
    for i := 0 to |n.channels|
      invariant forall k :: 0 <= k < i ==> ValidChannel(n.channels[k])
    {
      if !ValidChannel(n.channels[i]) {
        return Plain("channel " + n.channels[i] + " is invalid");
      }
    }
    return Nil;
  }
}
