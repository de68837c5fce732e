/** The notification and delivery tables as the SQL of internal/store/postgres.go changes
    and reads them. Identifiers are canonical UUID texts; times are those of the database. */
module Inbox {
  import opened Wrappers
  import opened Strings
  import opened Domain

  /** The columns of `notifications` besides the key and `created_at`. */
  datatype Content = Content(
    topic: string,
    title: string,
    body: string,
    link: string,
    metadata: map<string, string>,
    priority: string,
    broadcast: bool,
    sender: string)

  function ContentOf(n: Notification): Content {
    Content(n.topic, n.title, n.body, n.link, n.metadata, n.priority, n.recipients == [], n.sender)
  }

  /** Each column holds the field of its name; `broadcast` tells that no recipient is named. */
  predicate SameFields(c: Content, n: Notification) {
    && c.topic == n.topic && c.title == n.title && c.body == n.body && c.link == n.link
    && c.metadata == n.metadata && c.priority == n.priority && c.sender == n.sender
    && (c.broadcast <==> n.recipients == [])
  }

  lemma ContentFields(n: Notification, c: Content)
    ensures c == ContentOf(n) <==> SameFields(c, n)
  {
  }

  /** PostgreSQL keeps no NUL character in TEXT or JSONB. */
  predicate Storable(c: Content) {
    && '\0' !in c.topic && '\0' !in c.title && '\0' !in c.body && '\0' !in c.link
    && '\0' !in c.priority && '\0' !in c.sender
    && forall k <- c.metadata :: '\0' !in k && '\0' !in c.metadata[k]
  }

  datatype NotificationRow = NotificationRow(content: Content, createdAt: int)

  datatype DeliveryRow = DeliveryRow(read: bool, dismissed: bool, readAt: Option<int>, createdAt: int)

  /** Keyed by id, and by (notification_id, recipient). */
  datatype Tables = Tables(notifications: map<string, NotificationRow>, deliveries: map<(string, string), DeliveryRow>)

  const NO_ROWS := Tables(map[], map[])

  /** Every delivery references a stored notification. */
  ghost predicate ForeignKeys(t: Tables) {
    forall k <- t.deliveries :: k.0 in t.notifications
  }

  // ----- statements -----

  /** INSERT ... ON CONFLICT (id) DO UPDATE of everything but `created_at`. */
  function Upserted(t: Tables, id: string, content: Content, now: int): Tables {
    var createdAt := if id in t.notifications then t.notifications[id].createdAt else now;
    t.(notifications := t.notifications[id := NotificationRow(content, createdAt)])
  }

  /** INSERT ... ON CONFLICT DO UPDATE of the key only; refused without the notification. */
  function DeliveryInserted(t: Tables, id: string, recipient: string, now: int): Tables {
    if id !in t.notifications || (id, recipient) in t.deliveries then t
    else t.(deliveries := t.deliveries[(id, recipient) := DeliveryRow(false, false, None, now)])
  }

  function Read(t: Tables, id: string, recipient: string, now: int): Tables {
    var k := (id, recipient);
    if k !in t.deliveries then t
    else
      var d := t.deliveries[k];
      var readAt := if d.readAt.None? then Some(now) else d.readAt;
      t.(deliveries := t.deliveries[k := d.(read := true, readAt := readAt)])
  }

  function Dismissed(t: Tables, id: string, recipient: string): Tables {
    var k := (id, recipient);
    if k !in t.deliveries then t
    else t.(deliveries := t.deliveries[k := t.deliveries[k].(dismissed := true)])
  }

  class Postgres {
    var notifications: map<string, NotificationRow>
    var deliveries: map<(string, string), DeliveryRow>

    constructor ()
      ensures Value() == NO_ROWS
    {
      notifications, deliveries := map[], map[];
    }

    function Value(): Tables
      reads this
    {
      Tables(notifications, deliveries)
    }

    /** `UpsertNotification`: an empty id takes a generated one; the record gets the id stored. */
    method UpsertNotification(n: NotificationRecord, generated: string, now: int) returns (createdAt: int)
      requires generated != ""
      modifies this, n
      ensures n.Value() == old(n.Value()).(id := if old(n.id) == "" then generated else old(n.id))
      ensures Value() == Upserted(old(Value()), n.id, ContentOf(n.Value()), now)
      ensures n.id in notifications && createdAt == notifications[n.id].createdAt
      ensures SameFields(notifications[n.id].content, n.Value())
      ensures createdAt == if n.id in old(notifications) then old(notifications)[n.id].createdAt else now
      ensures notifications == old(notifications)[n.id := notifications[n.id]] && deliveries == old(deliveries)
    {
      if n.id == "" {
        n.id := generated;
      }
      var content := ContentOf(n.Value());
      createdAt := now;
      if n.id in notifications {
        createdAt := notifications[n.id].createdAt;
      }
      notifications := notifications[n.id := NotificationRow(content, createdAt)];
    }

    /** `InsertSiteDelivery`: the row as it is after the statement, none when refused. */
    method InsertSiteDelivery(id: string, recipient: string, now: int) returns (row: Option<DeliveryRow>)
      modifies this
      ensures Value() == DeliveryInserted(old(Value()), id, recipient, now)
      ensures row.None? <==> id !in notifications
      ensures row.Some? ==>
        && row.value == (if (id, recipient) in old(deliveries) then old(deliveries)[(id, recipient)]
                         else DeliveryRow(false, false, None, now))
        && deliveries == old(deliveries)[(id, recipient) := row.value]
      ensures row.None? ==> deliveries == old(deliveries)
      ensures notifications == old(notifications)
    {
      if id !in notifications {
        return None;
      }
      if (id, recipient) !in deliveries {
        deliveries := deliveries[(id, recipient) := DeliveryRow(false, false, None, now)];
      }
      return Some(deliveries[(id, recipient)]);
    }

    /** `MarkRead`; false stands for `pgx.ErrNoRows`. */
    method MarkRead(recipient: string, id: string, now: int) returns (found: bool)
      modifies this
      ensures Value() == Read(old(Value()), id, recipient, now)
      ensures found <==> (id, recipient) in old(deliveries)
      ensures found ==>
        && (id, recipient) in deliveries
        && deliveries == old(deliveries)[(id, recipient) := deliveries[(id, recipient)]]
        && var row, before := deliveries[(id, recipient)], old(deliveries)[(id, recipient)];
           && row.read && row.readAt == (if before.readAt.Some? then before.readAt else Some(now))
           && row.dismissed == before.dismissed && row.createdAt == before.createdAt
      ensures !found ==> deliveries == old(deliveries)
    {
      if (id, recipient) !in deliveries {
        return false;
      }
      var d := deliveries[(id, recipient)];
      var readAt := if d.readAt.None? then Some(now) else d.readAt;
      deliveries := deliveries[(id, recipient) := d.(read := true, readAt := readAt)];
      return true;
    }

    method Dismiss(recipient: string, id: string) returns (found: bool)
      modifies this
      ensures Value() == Dismissed(old(Value()), id, recipient)
      ensures found <==> (id, recipient) in old(deliveries)
      ensures found ==>
        && (id, recipient) in deliveries
        && deliveries == old(deliveries)[(id, recipient) := deliveries[(id, recipient)]]
        && var row, before := deliveries[(id, recipient)], old(deliveries)[(id, recipient)];
           && row.dismissed && row.read == before.read && row.readAt == before.readAt
           && row.createdAt == before.createdAt
      ensures !found ==> deliveries == old(deliveries)
    {
      if (id, recipient) !in deliveries {
        return false;
      }
      deliveries := deliveries[(id, recipient) := deliveries[(id, recipient)].(dismissed := true)];
      return true;
    }
  }

  // ----- queries -----

  /** Undismissed notifications of a recipient, joined with their notification rows. */
  ghost function Listed(t: Tables, recipient: string): set<string> {
    set k <- t.deliveries | k.1 == recipient && k.0 in t.notifications && !t.deliveries[k].dismissed :: k.0
  }

  function CreatedAt(t: Tables, id: string): int {
    if id in t.notifications then t.notifications[id].createdAt else 0
  }

  /** ORDER BY created_at DESC, id DESC. */
  predicate Before(t: Tables, a: string, b: string) {
    || CreatedAt(t, a) > CreatedAt(t, b)
    || (CreatedAt(t, a) == CreatedAt(t, b) && LexLess(b, a))
  }

  lemma BeforeIsStrictTotal(t: Tables, a: string, b: string, c: string)
    ensures a == b || Before(t, a, b) || Before(t, b, a)
    ensures Before(t, a, b) ==> a != b && !Before(t, b, a)
    ensures Before(t, a, b) && Before(t, b, c) ==> Before(t, a, c)
  {
    LexTotal(a, b);
    if LexLess(b, a) && LexLess(c, b) {
      LexTransitive(c, b, a);
    }
  }

  ghost predicate IsFirst(t: Tables, ids: set<string>, x: string) {
    x in ids && forall y <- ids :: y != x ==> Before(t, x, y)
  }

  lemma {:induction false} FirstExists(t: Tables, ids: set<string>) returns (x: string)
    requires ids != {}
    ensures IsFirst(t, ids, x)
    decreases |ids|
  {
    hide Before;
    var y :| y in ids;
    var rest := ids - {y};
    if rest == {} {
      x := y;
      assert ids == {y};
    } else {
      var z := FirstExists(t, rest);
      BeforeIsStrictTotal(t, y, z, z);
      if Before(t, z, y) {
        x := z;
      } else {
        x := y;
        forall w <- ids | w != y ensures Before(t, y, w) {
          BeforeIsStrictTotal(t, y, z, w);
        }
      }
    }
  }

  lemma FirstIsUnique(t: Tables, ids: set<string>, x: string, y: string)
    requires IsFirst(t, ids, x) && IsFirst(t, ids, y)
    ensures x == y
  {
    hide Before;
    BeforeIsStrictTotal(t, x, y, y);
  }

  ghost function First(t: Tables, ids: set<string>): (x: string)
    requires ids != {}
    ensures IsFirst(t, ids, x)
  {
    assert exists x :: IsFirst(t, ids, x) by {
      var x := FirstExists(t, ids);
    }
    var x :| IsFirst(t, ids, x);
    x
  }

  /** The ids in the order the query asks for. */
  ghost function Ordered(t: Tables, ids: set<string>): seq<string>
    decreases |ids|
  {
    if ids == {} then []
    else
      var x := First(t, ids);
      [x] + Ordered(t, ids - {x})
  }

  /** Newest first, ties by descending id. */
  ghost predicate InOrder(t: Tables, xs: seq<string>) {
    forall i, j :: 0 <= i < j < |xs| ==>
      CreatedAt(t, xs[i]) > CreatedAt(t, xs[j]) || (CreatedAt(t, xs[i]) == CreatedAt(t, xs[j]) && LexLess(xs[j], xs[i]))
  }

  /** The order the query asks for is the only one: ids that are listed in it are listed as
      `Ordered` lists them. */
  lemma {:induction false} OrderIsUnique(t: Tables, ids: set<string>, xs: seq<string>)
    requires InOrder(t, xs) && forall x :: x in xs <==> x in ids
    ensures xs == Ordered(t, ids)
    decreases |ids|
  {
    assert forall i, j :: 0 <= i < j < |xs| ==> Before(t, xs[i], xs[j]);
    assert xs != [] ==> xs[0] in xs;
    hide Before;
    if ids != {} {
      assert exists x :: x in ids && x in xs by {
        var x :| x in ids;
      }
      var x := First(t, ids);
      assert xs[0] in xs;
      forall y <- ids | y != xs[0] ensures Before(t, xs[0], y) {
        var j :| 0 <= j < |xs| && xs[j] == y;
      }
      FirstIsUnique(t, ids, xs[0], x);
      assert xs == [x] + xs[1..];
      assert x !in xs[1..] by {
        BeforeIsStrictTotal(t, x, x, x);
      }
      OrderIsUnique(t, ids - {x}, xs[1..]);
    }
  }

  lemma {:induction false} OrderedMeaning(t: Tables, ids: set<string>)
    ensures forall x :: x in Ordered(t, ids) <==> x in ids
    ensures forall i, j :: 0 <= i < j < |Ordered(t, ids)| ==> Before(t, Ordered(t, ids)[i], Ordered(t, ids)[j])
    ensures |Ordered(t, ids)| == |ids|
    decreases |ids|
  {
    hide Before;
    if ids != {} {
      var x := First(t, ids);
      OrderedMeaning(t, ids - {x});
      var rest := Ordered(t, ids - {x});
      forall j | 0 <= j < |rest| ensures Before(t, x, rest[j]) {
        assert rest[j] in rest;
      }
    }
  }

  /** One line of the inbox. */
  datatype Item = Item(id: string, notification: NotificationRow, delivery: DeliveryRow)

  /** The whole inbox of a recipient, in query order. */
  ghost function Inbox(t: Tables, recipient: string): (items: seq<Item>)
    ensures |items| == |Ordered(t, Listed(t, recipient))|
  {
    var ids := Ordered(t, Listed(t, recipient));
    OrderedMeaning(t, Listed(t, recipient));
    seq(|ids|, i requires 0 <= i < |ids| =>
      assert ids[i] in ids;
      Item(ids[i], t.notifications[ids[i]], t.deliveries[(ids[i], recipient)]))
  }

  /** `ListInbox`: a limit outside 1..100 becomes 50, a negative offset 0. */
  ghost function ListInbox(t: Tables, recipient: string, limit: int, offset: int): seq<Item> {
    var lim := if limit <= 0 || limit > 100 then 50 else limit;
    var off := if offset < 0 then 0 else offset;
    Window(Inbox(t, recipient), lim, off)
  }

  /** LIMIT and OFFSET. */
  function Window(all: seq<Item>, limit: nat, offset: nat): seq<Item> {
    if offset >= |all| then []
    else if offset + limit >= |all| then all[offset..]
    else all[offset..offset + limit]
  }

  function UpTo(all: seq<Item>, end: nat): seq<Item> {
    if end <= |all| then all[..end] else all
  }

  lemma WindowExtends(all: seq<Item>, limit: nat, offset: nat)
    ensures UpTo(all, offset) + Window(all, limit, offset) == UpTo(all, offset + limit)
  {
  }

  /** `CountUnread`. */
  ghost function CountUnread(t: Tables, recipient: string): nat {
    |set k <- t.deliveries | k.1 == recipient && !t.deliveries[k].dismissed && !t.deliveries[k].read|
  }

  /** A page is that part of the whole list: 50 lines unless the limit is one of 1..100, from
      the start unless the offset is positive. */
  lemma PageIsSlice(t: Tables, recipient: string, limit: int, offset: int)
    ensures
      var all, page := Inbox(t, recipient), ListInbox(t, recipient, limit, offset);
      var size, skip := if 1 <= limit <= 100 then limit else 50, if offset > 0 then offset else 0;
      && |page| == (if skip >= |all| then 0 else if skip + size >= |all| then |all| - skip else size)
      && forall i :: 0 <= i < |page| ==> page[i] == all[skip + i]
  {
    hide Inbox;
  }

  /** What a client gathers by asking for the first so many pages. */
  ghost function Pages(t: Tables, recipient: string, limit: int, pages: nat): seq<Item> {
    if pages == 0 then []
    else Pages(t, recipient, limit, pages - 1) + ListInbox(t, recipient, limit, (pages - 1) * limit)
  }

  lemma {:induction false} PagesArePrefix(t: Tables, recipient: string, limit: int, pages: nat)
    requires 1 <= limit <= 100
    ensures pages * limit >= 0
    ensures Pages(t, recipient, limit, pages) == UpTo(Inbox(t, recipient), pages * limit)
  {
    hide Inbox, Window, UpTo;
    if pages == 0 {
      assert UpTo(Inbox(t, recipient), 0) == [] by { NothingUpTo(Inbox(t, recipient)); }
    } else {
      PagesArePrefix(t, recipient, limit, pages - 1);
      assert pages * limit == (pages - 1) * limit + limit;
      WindowExtends(Inbox(t, recipient), limit, (pages - 1) * limit);
    }
  }

  lemma NothingUpTo(all: seq<Item>)
    ensures UpTo(all, 0) == []
  {
  }

  lemma InboxItems(t: Tables, recipient: string)
    ensures
      var all := Inbox(t, recipient);
      && (forall i :: 0 <= i < |all| ==> IsItem(t, recipient, all[i]))
      && (forall id <- Listed(t, recipient) :: exists i :: 0 <= i < |all| && all[i].id == id)
      && (forall i, j :: 0 <= i < j < |all| ==> Before(t, all[i].id, all[j].id))
  {
    hide Before;
    var ids := Ordered(t, Listed(t, recipient));
    OrderedMeaning(t, Listed(t, recipient));
    var all := Inbox(t, recipient);
    forall i | 0 <= i < |all| ensures IsItem(t, recipient, all[i]) && all[i].id == ids[i] {
      assert ids[i] in ids;
    }
    forall id <- Listed(t, recipient) ensures exists i :: 0 <= i < |all| && all[i].id == id {
      var i :| 0 <= i < |ids| && ids[i] == id;
      assert all[i].id == id;
    }
  }

  /** An undismissed delivery of the recipient, with its own rows. */
  predicate IsItem(t: Tables, recipient: string, item: Item) {
    var k := (item.id, recipient);
    && item.id in t.notifications && k in t.deliveries
    && item.notification == t.notifications[item.id]
    && item.delivery == t.deliveries[k] && !item.delivery.dismissed
  }

  /** Paging to the end with any allowed limit shows every undismissed delivery of the
      recipient exactly once, newest notification first and ties by descending id. */
  lemma PagesCoverInbox(t: Tables, recipient: string, limit: int, pages: nat)
    requires ForeignKeys(t)
    requires 1 <= limit <= 100 && pages * limit >= |Inbox(t, recipient)|
    ensures
      var shown := Pages(t, recipient, limit, pages);
      && (forall i, j :: 0 <= i < j < |shown| ==>
            || shown[i].notification.createdAt > shown[j].notification.createdAt
            || (shown[i].notification.createdAt == shown[j].notification.createdAt
                && LexLess(shown[j].id, shown[i].id)))
      && (forall item :: item in shown <==>
            && item.id in t.notifications && item.notification == t.notifications[item.id]
            && (item.id, recipient) in t.deliveries && item.delivery == t.deliveries[(item.id, recipient)]
            && !item.delivery.dismissed)
  {
    PagesList(t, recipient, limit, pages);
    var shown := Pages(t, recipient, limit, pages);
    forall i, j | 0 <= i < j < |shown|
      ensures
        || shown[i].notification.createdAt > shown[j].notification.createdAt
        || (shown[i].notification.createdAt == shown[j].notification.createdAt && LexLess(shown[j].id, shown[i].id))
    {
      assert IsItem(t, recipient, shown[i]) && IsItem(t, recipient, shown[j]);
    }
    hide Pages, Before;
  }

  lemma PagesList(t: Tables, recipient: string, limit: int, pages: nat)
    requires ForeignKeys(t)
    requires 1 <= limit <= 100 && pages * limit >= |Inbox(t, recipient)|
    ensures
      var shown := Pages(t, recipient, limit, pages);
      && (forall i, j :: 0 <= i < j < |shown| ==> Before(t, shown[i].id, shown[j].id))
      && (forall i :: 0 <= i < |shown| ==> IsItem(t, recipient, shown[i]))
      && (forall item :: item in shown <==> IsItem(t, recipient, item))
  {
    hide Inbox, Before;
    PagesArePrefix(t, recipient, limit, pages);
    InboxItems(t, recipient);
    var all := Inbox(t, recipient);
    assert Pages(t, recipient, limit, pages) == all;
    forall item ensures item in all <==> IsItem(t, recipient, item) {
      if IsItem(t, recipient, item) {
        assert (item.id, recipient) in t.deliveries;
        assert item.id in Listed(t, recipient);
        var i :| 0 <= i < |all| && all[i].id == item.id;
        assert IsItem(t, recipient, all[i]);
        assert all[i] == item;
      }
    }
  }

  function CountUnreadItems(items: seq<Item>): nat
    decreases |items|
  {
    if items == [] then 0
    else CountUnreadItems(items[..|items| - 1]) + if items[|items| - 1].delivery.read then 0 else 1
  }

  ghost function UnreadKeys(items: seq<Item>, recipient: string): set<(string, string)> {
    set item <- items | !item.delivery.read :: (item.id, recipient)
  }

  lemma {:induction false} CountIsCardinality(items: seq<Item>, recipient: string)
    requires forall i, j :: 0 <= i < j < |items| ==> items[i].id != items[j].id
    ensures CountUnreadItems(items) == |UnreadKeys(items, recipient)|
    decreases |items|
  {
    if items != [] {
      var init, last := items[..|items| - 1], items[|items| - 1];
      CountIsCardinality(init, recipient);
      assert items == init + [last];
      assert (last.id, recipient) !in UnreadKeys(init, recipient);
      assert UnreadKeys(items, recipient) ==
        UnreadKeys(init, recipient) + if last.delivery.read then {} else {(last.id, recipient)};
    }
  }

  /** The unread count is the number of unread lines in the inbox. */
  lemma CountUnreadMatchesInbox(t: Tables, recipient: string)
    requires ForeignKeys(t)
    ensures CountUnread(t, recipient) == CountUnreadItems(Inbox(t, recipient))
    ensures CountUnread(t, recipient) ==
      |set id <- t.notifications | (id, recipient) in t.deliveries && !t.deliveries[(id, recipient)].dismissed
                                   && !t.deliveries[(id, recipient)].read|
  {
    hide Inbox, Before;
    InboxItems(t, recipient);
    var all := Inbox(t, recipient);
    forall i, j | 0 <= i < j < |all| ensures all[i].id != all[j].id {
      BeforeIsStrictTotal(t, all[i].id, all[j].id, all[j].id);
    }
    CountIsCardinality(all, recipient);
    var rows := set k <- t.deliveries | k.1 == recipient && !t.deliveries[k].dismissed && !t.deliveries[k].read;
    forall k ensures k in rows <==> k in UnreadKeys(all, recipient) {
      if k in rows {
        assert k == (k.0, recipient) && k.0 in Listed(t, recipient);
        var i :| 0 <= i < |all| && all[i].id == k.0;
        assert IsItem(t, recipient, all[i]) && all[i] in all;
      }
    }
    assert rows == UnreadKeys(all, recipient);
    UnreadIds(t, recipient);
  }

  lemma UnreadIds(t: Tables, recipient: string)
    requires ForeignKeys(t)
    ensures CountUnread(t, recipient) ==
      |set id <- t.notifications | (id, recipient) in t.deliveries && !t.deliveries[(id, recipient)].dismissed
                                   && !t.deliveries[(id, recipient)].read|
  {
    var keys := set k <- t.deliveries | k.1 == recipient && !t.deliveries[k].dismissed && !t.deliveries[k].read;
    var ids := set id <- t.notifications | (id, recipient) in t.deliveries
      && !t.deliveries[(id, recipient)].dismissed && !t.deliveries[(id, recipient)].read;
    assert forall k <- keys :: k == (k.0, recipient);
    SameSize(keys, ids, recipient);
  }

  lemma {:induction false} SameSize(keys: set<(string, string)>, ids: set<string>, recipient: string)
    requires forall id :: id in ids <==> (id, recipient) in keys
    requires forall k <- keys :: k.1 == recipient
    ensures |keys| == |ids|
    decreases |ids|
  {
    if ids == {} {
      assert forall k <- keys :: k == (k.0, recipient) && k.0 in ids;
      assert keys == {};
    } else {
      var id :| id in ids;
      SameSize(keys - {(id, recipient)}, ids - {id}, recipient);
    }
  }
}
