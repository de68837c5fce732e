/** An inbox fed at least once behaves as one fed exactly once: what any interleaving of
    dispatches, redeliveries and user actions leaves in the tables of `Inbox`. */
module ExactlyOnce {
  import opened Wrappers
  import opened Inbox

  /** A successful statement on the tables, with the database's time. */
  datatype Action =
    | Upsert(id: string, content: Content, now: int)
    | Deliver(id: string, recipient: string, now: int)
    | MarkRead(id: string, recipient: string, now: int)
    | Dismiss(id: string, recipient: string)

  function Apply(t: Tables, a: Action): Tables {
    match a
    case Upsert(id, content, now) => Upserted(t, id, content, now)
    case Deliver(id, r, now) => DeliveryInserted(t, id, r, now)
    case MarkRead(id, r, now) => Read(t, id, r, now)
    case Dismiss(id, r) => Dismissed(t, id, r)
  }

  function Replay(log: seq<Action>): Tables
    decreases |log|
  {
    if log == [] then NO_ROWS else Apply(Replay(log[..|log| - 1]), log[|log| - 1])
  }

  /** What a statement is about, apart from its time and content. */
  datatype Key =
    | UpsertOf(id: string)
    | DeliveryOf(id: string, recipient: string)
    | ReadingOf(id: string, recipient: string)
    | DismissalOf(id: string, recipient: string)

  function KeyOf(a: Action): Key {
    match a
    case Upsert(id, _, _) => UpsertOf(id)
    case Deliver(id, r, _) => DeliveryOf(id, r)
    case MarkRead(id, r, _) => ReadingOf(id, r)
    case Dismiss(id, r) => DismissalOf(id, r)
  }

  /** Position of the first statement about the key at or after `from`, or the length. */
  function FirstFrom(log: seq<Action>, from: nat, key: Key): (i: nat)
    requires from <= |log|
    ensures from <= i <= |log|
    ensures i < |log| ==> KeyOf(log[i]) == key
    ensures forall k :: from <= k < i ==> KeyOf(log[k]) != key
    decreases |log| - from
  {
    if from == |log| || KeyOf(log[from]) == key then from else FirstFrom(log, from + 1, key)
  }

  predicate Occurs(log: seq<Action>, key: Key) {
    FirstFrom(log, 0, key) < |log|
  }

  /** One content per notification id. */
  ghost predicate OneContent(log: seq<Action>) {
    forall i, j :: 0 <= i < j < |log| && log[i].Upsert? && log[j].Upsert? && log[i].id == log[j].id ==>
      log[i].content == log[j].content
  }

  /** A delivery succeeds only once its notification is stored. */
  ghost predicate StoredFirst(log: seq<Action>) {
    forall i :: 0 <= i < |log| && log[i].Deliver? ==> Occurs(log[..i], UpsertOf(log[i].id))
  }

  /** Dispatching again does again what was done before. */
  predicate IsRepeat(log: seq<Action>, a: Action) {
    (a.Upsert? || a.Deliver?) && Occurs(log, KeyOf(a))
  }

  /** The log without the repeats. */
  function Distilled(log: seq<Action>): seq<Action>
    decreases |log|
  {
    if log == [] then []
    else
      var init, last := log[..|log| - 1], log[|log| - 1];
      if IsRepeat(init, last) then Distilled(init) else Distilled(init) + [last]
  }

  // ----- the tables a log leaves, stated without replaying it -----

  /** The row that a log leaves for a delivery: created by its first insert, read and
      dismissed by what came after that, at the time of the first reading. */
  function ExpectedDelivery(log: seq<Action>, id: string, recipient: string): DeliveryRow
    requires Occurs(log, DeliveryOf(id, recipient))
  {
    var i := FirstFrom(log, 0, DeliveryOf(id, recipient));
    var reading := FirstFrom(log, i, ReadingOf(id, recipient));
    var dismissal := FirstFrom(log, i, DismissalOf(id, recipient));
    DeliveryRow(
      reading < |log|,
      dismissal < |log|,
      if reading < |log| then Some(log[reading].now) else None,
      log[i].now)
  }

  function ExpectedNotification(log: seq<Action>, id: string): NotificationRow
    requires Occurs(log, UpsertOf(id))
  {
    var first := log[FirstFrom(log, 0, UpsertOf(id))];
    NotificationRow(first.content, first.now)
  }

  ghost predicate Explains(log: seq<Action>, t: Tables) {
    && (forall id :: id in t.notifications <==> Occurs(log, UpsertOf(id)))
    && (forall id <- t.notifications :: t.notifications[id] == ExpectedNotification(log, id))
    && (forall k :: k in t.deliveries <==> Occurs(log, DeliveryOf(k.0, k.1)))
    && (forall k <- t.deliveries :: t.deliveries[k] == ExpectedDelivery(log, k.0, k.1))
  }

  lemma FirstFromExtended(log: seq<Action>, last: Action, from: nat, key: Key)
    requires from <= |log|
    ensures
      var i := FirstFrom(log, from, key);
      FirstFrom(log + [last], from, key) ==
        if i < |log| then i else if KeyOf(last) == key then |log| else |log| + 1
  {
    var i, j := FirstFrom(log, from, key), FirstFrom(log + [last], from, key);
    assert forall k :: 0 <= k < |log| ==> (log + [last])[k] == log[k];
    assert (log + [last])[|log|] == last;
  }

  lemma DeliveryExtended(log: seq<Action>, last: Action, id: string, recipient: string)
    requires Occurs(log, DeliveryOf(id, recipient))
    ensures Occurs(log + [last], DeliveryOf(id, recipient))
    ensures
      var row := ExpectedDelivery(log, id, recipient);
      ExpectedDelivery(log + [last], id, recipient) ==
        if last.MarkRead? && last.id == id && last.recipient == recipient then
          row.(read := true, readAt := if row.readAt.None? then Some(last.now) else row.readAt)
        else if last.Dismiss? && last.id == id && last.recipient == recipient then
          row.(dismissed := true)
        else row
  {
    var i := FirstFrom(log, 0, DeliveryOf(id, recipient));
    FirstFromExtended(log, last, 0, DeliveryOf(id, recipient));
    FirstFromExtended(log, last, i, ReadingOf(id, recipient));
    FirstFromExtended(log, last, i, DismissalOf(id, recipient));
  }

  lemma DeliveryCreated(log: seq<Action>, last: Action)
    requires last.Deliver? && !Occurs(log, KeyOf(last))
    ensures Occurs(log + [last], KeyOf(last))
    ensures ExpectedDelivery(log + [last], last.id, last.recipient) == DeliveryRow(false, false, None, last.now)
  {
    var log' := log + [last];
    FirstFromExtended(log, last, 0, KeyOf(last));
    assert FirstFrom(log', |log|, ReadingOf(last.id, last.recipient)) == |log'|;
    assert FirstFrom(log', |log|, DismissalOf(last.id, last.recipient)) == |log'|;
  }

  lemma NotificationExtended(log: seq<Action>, last: Action, id: string)
    requires Occurs(log, UpsertOf(id))
    ensures Occurs(log + [last], UpsertOf(id))
    ensures ExpectedNotification(log + [last], id) == ExpectedNotification(log, id)
  {
    FirstFromExtended(log, last, 0, UpsertOf(id));
  }

  lemma DeliveryKeysStep(log: seq<Action>, last: Action, t: Tables)
    requires Explains(log, t)
    requires last.Deliver? ==> Occurs(log, UpsertOf(last.id))
    ensures forall k :: k in Apply(t, last).deliveries <==>
      k in t.deliveries || (last.Deliver? && k == (last.id, last.recipient))
    ensures forall k :: k in Apply(t, last).deliveries <==> Occurs(log + [last], DeliveryOf(k.0, k.1))
  {
    hide ExpectedDelivery, ExpectedNotification, FirstFrom;
    forall k ensures k in Apply(t, last).deliveries <==> Occurs(log + [last], DeliveryOf(k.0, k.1)) {
      FirstFromExtended(log, last, 0, DeliveryOf(k.0, k.1));
    }
  }

  lemma DeliveriesStep(log: seq<Action>, last: Action, t: Tables)
    requires Explains(log, t)
    requires last.Deliver? ==> Occurs(log, UpsertOf(last.id))
    ensures
      var t' := Apply(t, last);
      && (forall k :: k in t'.deliveries <==> Occurs(log + [last], DeliveryOf(k.0, k.1)))
      && (forall k <- t'.deliveries :: t'.deliveries[k] == ExpectedDelivery(log + [last], k.0, k.1))
  {
    hide ExpectedDelivery, ExpectedNotification, FirstFrom, Occurs;
    DeliveryKeysStep(log, last, t);
    var t' := Apply(t, last);
    forall k <- t'.deliveries ensures t'.deliveries[k] == ExpectedDelivery(log + [last], k.0, k.1) {
      if k in t.deliveries {
        DeliveryExtended(log, last, k.0, k.1);
      } else {
        DeliveryCreated(log, last);
      }
    }
  }

  lemma NotificationsStep(log: seq<Action>, last: Action, t: Tables)
    requires Explains(log, t)
    requires last.Upsert? && Occurs(log, KeyOf(last)) ==> ExpectedNotification(log, last.id).content == last.content
    ensures
      var t' := Apply(t, last);
      && (forall id :: id in t'.notifications <==> Occurs(log + [last], UpsertOf(id)))
      && (forall id <- t'.notifications :: t'.notifications[id] == ExpectedNotification(log + [last], id))
  {
    hide ExpectedDelivery;
    var t' := Apply(t, last);
    forall id ensures id in t'.notifications <==> Occurs(log + [last], UpsertOf(id)) {
      FirstFromExtended(log, last, 0, UpsertOf(id));
    }
    forall id <- t'.notifications ensures t'.notifications[id] == ExpectedNotification(log + [last], id) {
      if id in t.notifications {
        NotificationExtended(log, last, id);
      } else {
        FirstFromExtended(log, last, 0, UpsertOf(id));
      }
    }
  }

  lemma PrefixHolds(log: seq<Action>)
    requires log != [] && OneContent(log) && StoredFirst(log)
    ensures
      var init, last := log[..|log| - 1], log[|log| - 1];
      && log == init + [last]
      && OneContent(init) && StoredFirst(init)
      && (last.Deliver? ==> Occurs(init, UpsertOf(last.id)))
      && (last.Upsert? && Occurs(init, KeyOf(last)) ==> ExpectedNotification(init, last.id).content == last.content)
  {
    var init, last := log[..|log| - 1], log[|log| - 1];
    assert forall i :: 0 <= i < |init| ==> init[..i] == log[..i];
    if last.Upsert? && Occurs(init, KeyOf(last)) {
      var i := FirstFrom(init, 0, KeyOf(last));
      assert log[i] == init[i] && log[i].id == last.id;
    }
  }

  /** The tables are what the log's first statements and the user's actions after them say,
      however often notifications were dispatched again in between. */
  lemma {:induction false} ReplayIsExplained(log: seq<Action>)
    requires OneContent(log) && StoredFirst(log)
    ensures Explains(log, Replay(log))
    decreases |log|
  {
    hide Apply, ExpectedDelivery, ExpectedNotification;
    if log != [] {
      var init, last := log[..|log| - 1], log[|log| - 1];
      PrefixHolds(log);
      ReplayIsExplained(init);
      DeliveriesStep(init, last, Replay(init));
      NotificationsStep(init, last, Replay(init));
    }
  }

  /** Whatever happens, no delivery is without its notification, as paging requires. */
  lemma {:induction false} ReplayKeepsForeignKeys(log: seq<Action>)
    ensures ForeignKeys(Replay(log))
    decreases |log|
  {
    if log != [] {
      ReplayKeepsForeignKeys(log[..|log| - 1]);
    }
  }

  /** Dispatching again what was dispatched before changes no row: not `read`, `dismissed`,
      `read_at`, a creation time or a content. */
  lemma RepeatChangesNothing(log: seq<Action>, again: Action)
    requires OneContent(log + [again]) && StoredFirst(log + [again]) && IsRepeat(log, again)
    ensures Replay(log + [again]) == Replay(log)
  {
    assert (log + [again])[..|log|] == log;
    PrefixHolds(log + [again]);
    ReplayIsExplained(log);
    var t := Replay(log);
    if again.Upsert? {
      assert t.notifications[again.id] == NotificationRow(again.content, t.notifications[again.id].createdAt);
      assert t.notifications[again.id := t.notifications[again.id]] == t.notifications;
    } else {
      assert (again.id, again.recipient) in t.deliveries;
    }
  }

  /** Nor does any page of any inbox or any unread count. */
  lemma RepeatShowsNothing(log: seq<Action>, again: Action, recipient: string, limit: int, offset: int)
    requires OneContent(log + [again]) && StoredFirst(log + [again]) && IsRepeat(log, again)
    ensures ListInbox(Replay(log + [again]), recipient, limit, offset)
            == ListInbox(Replay(log), recipient, limit, offset)
    ensures CountUnread(Replay(log + [again]), recipient) == CountUnread(Replay(log), recipient)
  {
    RepeatChangesNothing(log, again);
  }

  /** At least once is as good as exactly once: removing every repeat from a log leaves the
      same tables. */
  lemma {:induction false} ExactlyOnceTables(log: seq<Action>)
    requires OneContent(log) && StoredFirst(log)
    ensures Replay(Distilled(log)) == Replay(log)
    decreases |log|
  {
    hide Apply;
    if log != [] {
      var init, last := log[..|log| - 1], log[|log| - 1];
      PrefixHolds(log);
      ExactlyOnceTables(init);
      if IsRepeat(init, last) {
        RepeatChangesNothing(init, last);
      } else {
        assert (Distilled(init) + [last])[..|Distilled(init)|] == Distilled(init);
      }
    }
  }

  lemma {:induction false} DistilledOccurs(log: seq<Action>, key: Key)
    ensures Occurs(Distilled(log), key) <==> Occurs(log, key)
    decreases |log|
  {
    if log != [] {
      var init, last := log[..|log| - 1], log[|log| - 1];
      assert log == init + [last];
      DistilledOccurs(init, key);
      FirstFromExtended(init, last, 0, key);
      FirstFromExtended(Distilled(init), last, 0, key);
    }
  }

  /** And the log without repeats really has none: each notification is stored once and each
      delivery inserted once. */
  lemma {:induction false} DistilledHasNoRepeats(log: seq<Action>, i: nat, j: nat)
    requires i < j < |Distilled(log)|
    ensures
      var d := Distilled(log);
      d[i].Upsert? || d[i].Deliver? ==> KeyOf(d[i]) != KeyOf(d[j])
    decreases |log|
  {
    var init, last := log[..|log| - 1], log[|log| - 1];
    var d := Distilled(init);
    if j < |d| {
      DistilledHasNoRepeats(init, i, j);
    } else if KeyOf(d[i]) == KeyOf(last) {
      DistilledOccurs(init, KeyOf(last));
      assert Occurs(d, KeyOf(last)) ==> Occurs(init, KeyOf(last));
      assert FirstFrom(d, 0, KeyOf(last)) <= i;
    }
  }
}
