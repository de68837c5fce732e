/** A dispatch taken apart into its steps on storage and providers, so that other things can
    happen between them (internal/dispatch/dispatcher.go, internal/provider/site/site.go). */
module Job {
  import opened Wrappers
  import opened GoErrors
  import opened Domain
  import opened Preferences
  import opened Acknowledge
  import Dispatch
  import Targets
  import opened Inbox
  import opened ExactlyOnce

  type SendCall = Dispatch.SendCall

  /** What stays fixed during a run: stored preferences and subscribers, the providers with
      the site's targets and its reading of preferences, what the other providers refuse
      whenever they are asked, and the content that goes with each notification id chosen by a
      client. */
  datatype Env = Env(
    isUUID: string -> bool,
    subscribers: string -> seq<string>,
    preferences: string -> seq<Preference>,
    registered: set<Channel>,
    targets: Targets.Resolution,
    decodeTarget: Targets.Decoder,
    refuses: (Notification, SendCall) -> bool,
    contents: string -> Option<Content>)

  function RecipientsOf(n: Notification, env: Env): seq<string> {
    if n.recipients != [] then n.recipients else env.subscribers(n.topic)
  }

  function CallsFor(recipient: string, n: Notification, env: Env): seq<SendCall> {
    Dispatch.WithProvider(recipient, Resolved(env.preferences(recipient), n.channels, n.topic), env.registered)
  }

  /** The recipient is to find the notification in the site inbox. */
  predicate SiteDue(recipient: string, n: Notification, env: Env) {
    exists c <- CallsFor(recipient, n, env) :: c.channel == SITE
  }

  /** The call fails on every attempt: the site finds no target for it, or another provider
      refuses it, whatever id the notification is stored under. */
  predicate Refused(call: SendCall, n: Notification, env: Env) {
    if call.channel == SITE then !Targets.Resolvable(env.targets, n.metadata, call.config, env.decodeTarget)
    else env.refuses(n.(id := ""), call)
  }

  /** Neither storage nor a provider fails on every attempt. */
  ghost predicate Servable(n: Notification, env: Env) {
    && Storable(ContentOf(n))
    && forall r <- RecipientsOf(n, env), c <- CallsFor(r, n, env) :: !Refused(c, n, env)
  }

  /** The recipient's row can be written. */
  ghost predicate SiteServed(recipient: string, n: Notification, env: Env) {
    && Storable(ContentOf(n))
    && exists c <- CallsFor(recipient, n, env) :: c.channel == SITE && !Refused(c, n, env)
  }

  /** The tables, and the history of successful statements on them. */
  datatype Database = Database(tables: Tables, log: seq<Action>)

  const NO_DATA := Database(NO_ROWS, [])

  function Do(db: Database, a: Action): Database {
    Database(Apply(db.tables, a), db.log + [a])
  }

  datatype Work = Load(recipient: string) | Send(call: SendCall)

  datatype Stage =
    | Begun
    | Validated
    | Stored(id: string)
    | Sending(id: string, todo: seq<Work>, err: Error)
    | Finished(id: string, err: Error)

  /** A provider call and its answer. */
  datatype Sent = Sent(call: SendCall, error: Error)

  /** A dispatch of a notification as decoded from the message, with the calls it has made. */
  datatype Job = Job(n: Notification, stage: Stage, sent: seq<Sent>)

  function Started(n: Notification): Job {
    Job(n, Begun, [])
  }

  function CallsIn(sent: seq<Sent>): (calls: seq<SendCall>)
    ensures |calls| == |sent|
    ensures forall i :: 0 <= i < |sent| ==> calls[i] == sent[i].call
  {
    seq(|sent|, i requires 0 <= i < |sent| => sent[i].call)
  }

  /** Each step carries what the outside answers: an error or nil, the database's time, the
      id to store under, whether the row was written (an error may come back all the same). */
  datatype Step =
    | Validate
    | Persist(id: string, stored: bool, error: Error, now: int)
    | ListRecipients(error: Error)
    | LoadPreferences(error: Error)
    | SendNext(stored: bool, error: Error, now: int)
    | Finish

  predicate NilOrStorage(e: Error) {
    e.Nil? || StorageError(e)
  }

  /** A notification without an id gets one that is not in use and that no client uses. */
  predicate IdStored(id: string, n: Notification, db: Database, env: Env) {
    if n.id != "" then id == n.id
    else id != "" && id !in db.tables.notifications && env.contents(id).None?
  }

  predicate Enabled(job: Job, step: Step, db: Database, env: Env) {
    var n := Normalized(job.n);
    var s := job.stage;
    match step
    case Validate => s.Begun?
    case Persist(id, stored, e, _) =>
      && s.Validated? && NilOrStorage(e) && (e.Nil? ==> stored)
      && (stored ==> IdStored(id, n, db, env) && Storable(ContentOf(n)))
    case ListRecipients(e) => s.Stored? && NilOrStorage(e) && (n.recipients != [] ==> e.Nil?)
    case LoadPreferences(e) => s.Sending? && s.todo != [] && s.todo[0].Load? && NilOrStorage(e)
    case SendNext(stored, e, _) =>
      && s.Sending? && s.todo != [] && s.todo[0].Send? && SendOutcome(s.todo[0].call.channel, stored, e)
      && (Refused(s.todo[0].call, n, env) ==> !stored && !PermanentPush(e))
    case Finish => s.Sending? && s.todo == []
  }

  /** Only the web push provider returns `SendError`s. The site provider writes the row
      before it publishes, so it may fail with the row written but not succeed without. */
  predicate SendOutcome(channel: Channel, stored: bool, e: Error) {
    && WellBuilt(e)
    && (channel != WEB_PUSH ==> NilOrStorage(e))
    && (channel == SITE && e.Nil? ==> stored)
  }

  function SendWork(calls: seq<SendCall>): (work: seq<Work>)
    ensures |work| == |calls|
  {
    seq(|calls|, i requires 0 <= i < |calls| => Send(calls[i]))
  }

  function LoadWork(recipients: seq<string>): (work: seq<Work>)
    ensures |work| == |recipients|
  {
    seq(|recipients|, i requires 0 <= i < |recipients| => Load(recipients[i]))
  }

  function Next(job: Job, step: Step, db: Database, env: Env): (Job, Database)
    requires Enabled(job, step, db, env)
  {
    var n := Normalized(job.n);
    match step
    case Validate =>
      var v := Violation(n, env.isUUID);
      if v.Nil? then (job.(stage := Validated), db)
      else (job.(stage := Finished("", Wrap("dispatch validate notification", v))), db)
    case Persist(id, stored, e, now) =>
      (job.(stage := if e.Nil? then Stored(id) else Finished("", Wrap("persist notification", e))),
       if stored then Do(db, Upsert(id, ContentOf(n), now)) else db)
    case ListRecipients(e) =>
      if !e.Nil? then (job.(stage := Finished("", Wrap("list topic subscribers", e))), db)
      else (job.(stage := Sending(job.stage.id, LoadWork(RecipientsOf(n, env)), Nil)), db)
    case LoadPreferences(e) =>
      var Sending(id, todo, err) := job.stage;
      var r := todo[0].recipient;
      if !e.Nil? then (job.(stage := Sending(id, todo[1..], Join(err, Wrap("resolve channels for " + r, e)))), db)
      else (job.(stage := Sending(id, SendWork(CallsFor(r, n, env)) + todo[1..], err)), db)
    case SendNext(stored, e, now) =>
      var Sending(id, todo, err) := job.stage;
      var call := todo[0].call;
      (job.(stage := Sending(id, todo[1..], JoinOne(err, Dispatch.WrapCall(call, e))),
            sent := job.sent + [Sent(call, e)]),
       if call.channel == SITE && stored then Do(db, Deliver(id, call.recipient, now)) else db)
    case Finish => (job.(stage := Finished(job.stage.id, job.stage.err)), db)
  }

  // ----- the database under jobs and users -----

  /** The tables are the replay of the log, whose contents are fixed per id. */
  ghost predicate DatabaseInv(db: Database, env: Env) {
    && db.tables == Replay(db.log)
    && OneContent(db.log) && StoredFirst(db.log)
    && (forall i :: 0 <= i < |db.log| && db.log[i].Upsert? && env.contents(db.log[i].id).Some? ==>
          db.log[i].content == env.contents(db.log[i].id).value)
  }

  /** The statement fits: a delivery of a stored notification, or a content that is the
      client's for this id or the first for it. */
  ghost predicate Fits(a: Action, db: Database, env: Env) {
    && (a.Deliver? ==> a.id in db.tables.notifications)
    && (a.Upsert? ==>
          if env.contents(a.id).Some? then a.content == env.contents(a.id).value
          else a.id !in db.tables.notifications)
  }

  lemma DoKeepsDatabase(db: Database, a: Action, env: Env)
    requires DatabaseInv(db, env) && Fits(a, db, env)
    ensures DatabaseInv(Do(db, a), env)
    ensures forall id <- db.tables.notifications :: id in Do(db, a).tables.notifications
    ensures forall k <- db.tables.deliveries :: k in Do(db, a).tables.deliveries
  {
    hide Explains;
    var db' := Do(db, a);
    assert db'.log[..|db.log|] == db.log;
    StoredFirstExtends(db, a, env);
    OneContentExtends(db, a, env);
  }

  lemma StoredFirstExtends(db: Database, a: Action, env: Env)
    requires DatabaseInv(db, env) && Fits(a, db, env)
    ensures StoredFirst(db.log + [a])
  {
    ReplayIsExplained(db.log);
    var log' := db.log + [a];
    forall i | 0 <= i < |log'| && log'[i].Deliver? ensures Occurs(log'[..i], UpsertOf(log'[i].id)) {
      assert log'[..i] == db.log[..i];
      if i == |db.log| {
        assert db.log[..i] == db.log;
      } else {
        assert log'[i] == db.log[i];
      }
    }
  }

  lemma OneContentExtends(db: Database, a: Action, env: Env)
    requires DatabaseInv(db, env) && Fits(a, db, env)
    ensures OneContent(db.log + [a])
  {
    ReplayIsExplained(db.log);
    var log' := db.log + [a];
    if a.Upsert? {
      forall i | 0 <= i < |db.log| && db.log[i].Upsert? && db.log[i].id == a.id
        ensures db.log[i].content == a.content
      {
        if env.contents(a.id).None? {
          assert KeyOf(db.log[i]) == UpsertOf(a.id);
          assert Occurs(db.log, UpsertOf(a.id));
        }
      }
    }
    assert forall i :: 0 <= i < |db.log| ==> log'[i] == db.log[i];
  }

  // ----- a job never claims more than it did -----

  predicate SiteSendIn(recipient: string, todo: seq<Work>) {
    exists w <- todo :: w.Send? && w.call.recipient == recipient && w.call.channel == SITE
  }

  /** The recipient has the row, or will be served, or the job's error already rules out an
      acknowledgement. */
  ghost predicate Served(recipient: string, id: string, todo: seq<Work>, err: Error, db: Database) {
    || (id, recipient) in db.tables.deliveries
    || Load(recipient) in todo
    || SiteSendIn(recipient, todo)
    || !PermanentPush(err)
  }

  /** Every site recipient of the notification has its row. */
  ghost predicate InboxComplete(id: string, n: Notification, db: Database, env: Env) {
    forall r <- RecipientsOf(n, env) :: SiteDue(r, n, env) ==> (id, r) in db.tables.deliveries
  }

  /** The work still to do is for recipients of the notification and channels they use. */
  ghost predicate WorkDue(todo: seq<Work>, n: Notification, env: Env) {
    && (forall w <- todo :: w.Load? ==> w.recipient in RecipientsOf(n, env))
    && (forall w <- todo :: w.Send? ==>
          w.call.recipient in RecipientsOf(n, env) && w.call in CallsFor(w.call.recipient, n, env))
  }

  ghost predicate JobInv(job: Job, db: Database, env: Env) {
    var n := Normalized(job.n);
    match job.stage
    case Begun => true
    case Validated => true
    case Stored(id) => id in db.tables.notifications && (n.id != "" ==> id == n.id)
    case Sending(id, todo, err) =>
      && id in db.tables.notifications && (n.id != "" ==> id == n.id)
      && WorkDue(todo, n, env)
      && forall r <- RecipientsOf(n, env) :: SiteDue(r, n, env) ==> Served(r, id, todo, err, db)
    case Finished(id, err) =>
      Acknowledged(err) ==> InboxComplete(id, n, db, env) && (n.id != "" ==> id == n.id)
  }

  lemma CleanStays(err: Error, e: Error)
    ensures PermanentPush(Join(err, e)) <==> PermanentPush(err) && PermanentPush(e)
    ensures PermanentPush(JoinOne(err, e)) <==> PermanentPush(err) && PermanentPush(e)
  {
    LeavesOfJoin(err, e);
    VerdictConcat(Leaves(err), Leaves(e), WEB_PUSH);
  }

  lemma AcknowledgedIsClean(err: Error)
    requires Acknowledged(err)
    ensures PermanentPush(err)
  {
  }

  lemma LoadWorkMembers(recipients: seq<string>)
    ensures forall w :: w in LoadWork(recipients) <==> w.Load? && w.recipient in recipients
  {
    var work := LoadWork(recipients);
    forall w: Work | w.Load? && w.recipient in recipients ensures w in work {
      var i :| 0 <= i < |recipients| && recipients[i] == w.recipient;
      assert work[i] == w;
    }
  }

  lemma SendWorkMembers(calls: seq<SendCall>)
    ensures forall w :: w in SendWork(calls) <==> w.Send? && w.call in calls
  {
    var work := SendWork(calls);
    forall w: Work | w.Send? && w.call in calls ensures w in work {
      var i :| 0 <= i < |calls| && calls[i] == w.call;
      assert work[i] == w;
    }
  }

  lemma CallsAreTheRecipients(recipient: string, n: Notification, env: Env)
    ensures forall c <- CallsFor(recipient, n, env) :: c.recipient == recipient
  {
    hide Resolved;
    WithProviderMeaning(recipient, Resolved(env.preferences(recipient), n.channels, n.topic), env.registered);
  }

  lemma ValidateKeeps(job: Job, db: Database, env: Env)
    requires Enabled(job, Validate, db, env)
    ensures JobInv(Next(job, Validate, db, env).0, db, env)
  {
    hide Normalized, Violation;
    var n := Normalized(job.n);
    var v := Violation(n, env.isUUID);
    ViolationIsPlain(n, env.isUUID);
    if !v.Nil? {
      var err := Wrap("dispatch validate notification", v);
      assert Leaves(err) == [v] && v in [v];
    }
  }

  lemma ListKeeps(job: Job, e: Error, db: Database, env: Env)
    requires JobInv(job, db, env) && Enabled(job, ListRecipients(e), db, env)
    ensures JobInv(Next(job, ListRecipients(e), db, env).0, db, env)
  {
    hide Normalized, CallsFor, SiteDue, Acknowledged, StorageError, PermanentPush;
    if e.Nil? {
      LoadWorkMembers(RecipientsOf(Normalized(job.n), env));
    } else {
      WrappedIsNotPermanentPush("list topic subscribers", e);
    }
  }

  lemma LoadKeeps(job: Job, e: Error, db: Database, env: Env)
    requires JobInv(job, db, env) && Enabled(job, LoadPreferences(e), db, env)
    ensures JobInv(Next(job, LoadPreferences(e), db, env).0, db, env)
  {
    hide Normalized, CallsFor, Acknowledged, StorageError, PermanentPush;
    var n := Normalized(job.n);
    var Sending(id, todo, err) := job.stage;
    var r := todo[0].recipient;
    var rest := todo[1..];
    assert todo == [todo[0]] + rest;
    if !e.Nil? {
      var wrapped := Wrap("resolve channels for " + r, e);
      WrappedIsNotPermanentPush("resolve channels for " + r, e);
      CleanStays(err, wrapped);
    } else {
      var calls := CallsFor(r, n, env);
      SendWorkMembers(calls);
      CallsAreTheRecipients(r, n, env);
      var todo' := SendWork(calls) + rest;
      forall r' <- RecipientsOf(n, env) | SiteDue(r', n, env) ensures Served(r', id, todo', err, db) {
        ServedAfterLoad(r', r, id, n, todo, err, db, env);
      }
    }
  }

  lemma ServedAfterLoad(r': string, r: string, id: string, n: Notification, todo: seq<Work>, err: Error,
                        db: Database, env: Env)
    requires todo != [] && todo[0] == Load(r)
    requires SiteDue(r', n, env) && Served(r', id, todo, err, db)
    ensures Served(r', id, SendWork(CallsFor(r, n, env)) + todo[1..], err, db)
  {
    hide CallsFor, PermanentPush;
    var calls := CallsFor(r, n, env);
    SendWorkMembers(calls);
    CallsAreTheRecipients(r, n, env);
    var todo' := SendWork(calls) + todo[1..];
    if r' == r {
      var c :| c in calls && c.channel == SITE;
      assert Send(c) in todo';
    } else {
      assert todo == [todo[0]] + todo[1..];
      if SiteSendIn(r', todo) {
        var w :| w in todo && w.Send? && w.call.recipient == r' && w.call.channel == SITE;
        assert w in todo';
      }
    }
  }

  lemma SendKeeps(job: Job, stored: bool, e: Error, now: int, db: Database, env: Env)
    requires DatabaseInv(db, env)
    requires JobInv(job, db, env) && Enabled(job, SendNext(stored, e, now), db, env)
    ensures
      var (job', db') := Next(job, SendNext(stored, e, now), db, env);
      JobInv(job', db', env) && DatabaseInv(db', env)
  {
    hide Normalized, CallsFor, Acknowledged, StorageError, PermanentPush, SiteDue, DatabaseInv;
    var n := Normalized(job.n);
    var Sending(id, todo, err) := job.stage;
    var call := todo[0].call;
    var (job', db') := Next(job, SendNext(stored, e, now), db, env);
    assert todo == [todo[0]] + todo[1..];
    if call.channel == SITE && stored {
      DoKeepsDatabase(db, Deliver(id, call.recipient, now), env);
    }
    var err' := JoinOne(err, Dispatch.WrapCall(call, e));
    forall r <- RecipientsOf(n, env) | SiteDue(r, n, env) ensures Served(r, id, todo[1..], err', db') {
      ServedAfterSend(r, id, todo, err, stored, e, now, db);
    }
  }

  lemma ServedAfterSend(r: string, id: string, todo: seq<Work>, err: Error, stored: bool, e: Error, now: int,
                        db: Database)
    requires todo != [] && todo[0].Send? && SendOutcome(todo[0].call.channel, stored, e)
    requires id in db.tables.notifications
    requires Served(r, id, todo, err, db)
    ensures
      var call := todo[0].call;
      var db' := if call.channel == SITE && stored then Do(db, Deliver(id, call.recipient, now)) else db;
      Served(r, id, todo[1..], JoinOne(err, Dispatch.WrapCall(call, e)), db')
  {
    hide StorageError, PermanentPush, WellBuilt;
    var call := todo[0].call;
    assert todo == [todo[0]] + todo[1..];
    CleanStays(err, Dispatch.WrapCall(call, e));
    if call.channel == SITE && call.recipient == r && !e.Nil? {
      WrappedIsNotPermanentPush(call.channel + " send to " + call.recipient, e);
    } else if SiteSendIn(r, todo) && !(call.channel == SITE && call.recipient == r) {
      var w :| w in todo && w.Send? && w.call.recipient == r && w.call.channel == SITE;
      assert w in todo[1..];
    }
  }

  lemma FinishKeeps(job: Job, db: Database, env: Env)
    requires JobInv(job, db, env) && Enabled(job, Finish, db, env)
    ensures JobInv(Next(job, Finish, db, env).0, db, env)
  {
    hide Normalized, CallsFor, PermanentPush, SiteDue;
    var n := Normalized(job.n);
    var err := job.stage.err;
    if Acknowledged(err) {
      AcknowledgedIsClean(err);
      forall r <- RecipientsOf(n, env) | SiteDue(r, n, env) ensures (job.stage.id, r) in db.tables.deliveries {
        assert Served(r, job.stage.id, [], err, db);
      }
    }
  }

  /** The id of a notification that a client named goes with the content of that id. */
  ghost predicate ContentKnown(n: Notification, env: Env) {
    n.id != "" ==> env.contents(n.id) == Some(ContentOf(n))
  }

  lemma StepKeepsJob(job: Job, step: Step, db: Database, env: Env)
    requires DatabaseInv(db, env) && JobInv(job, db, env)
    requires ContentKnown(Normalized(job.n), env)
    requires Enabled(job, step, db, env)
    ensures
      var (job', db') := Next(job, step, db, env);
      JobInv(job', db', env) && DatabaseInv(db', env)
  {
    hide Normalized, JobInv, DatabaseInv, StorageError;
    match step
    case Validate => ValidateKeeps(job, db, env);
    case Persist(_, _, _, _) => PersistKeeps(job, step, db, env);
    case ListRecipients(e) => ListKeeps(job, e, db, env);
    case LoadPreferences(e) => LoadKeeps(job, e, db, env);
    case SendNext(stored, e, now) => SendKeeps(job, stored, e, now, db, env);
    case Finish => FinishKeeps(job, db, env);
  }

  /** The notification a dispatch works on stays as decoded. */
  lemma SameNotification(job: Job, step: Step, db: Database, env: Env)
    requires Enabled(job, step, db, env)
    ensures Next(job, step, db, env).0.n == job.n
  {
    hide Normalized, Violation, CallsFor;
  }

  lemma PersistKeeps(job: Job, step: Step, db: Database, env: Env)
    requires DatabaseInv(db, env) && JobInv(job, db, env)
    requires ContentKnown(Normalized(job.n), env)
    requires step.Persist? && Enabled(job, step, db, env)
    ensures
      var (job', db') := Next(job, step, db, env);
      JobInv(job', db', env) && DatabaseInv(db', env)
  {
    hide Normalized, StorageError, Acknowledged, PermanentPush, DatabaseInv;
    if step.stored {
      DoKeepsDatabase(db, Upsert(step.id, ContentOf(Normalized(job.n)), step.now), env);
    }
    if !step.error.Nil? {
      WrappedIsNotPermanentPush("persist notification", step.error);
    }
  }

  /** What else happens to the tables takes no row away, so it cannot spoil a job. */
  lemma JobStays(job: Job, db: Database, db': Database, env: Env)
    requires JobInv(job, db, env)
    requires forall id <- db.tables.notifications :: id in db'.tables.notifications
    requires forall k <- db.tables.deliveries :: k in db'.tables.deliveries
    ensures JobInv(job, db', env)
  {
    hide Normalized, CallsFor, SiteDue, PermanentPush, Acknowledged, SiteSendIn, RecipientsOf;
  }
}
