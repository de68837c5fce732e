/** Why a row is in the inbox: nobody finds there what was not accepted for them
    (internal/dispatch/dispatcher.go, internal/provider/site/site.go). */
module Rows {
  import opened GoErrors
  import opened Domain
  import opened Acknowledge
  import opened Inbox
  import opened ExactlyOnce
  import opened Job

  /** The notification is the reason for the row: it is meant for the recipient, whose
      preferences send it to a target of the site, and its content is what the row shows. */
  ghost predicate Justifies(n: Notification, id: string, recipient: string, t: Tables, env: Env) {
    && recipient in RecipientsOf(n, env)
    && SiteServed(recipient, n, env)
    && (n.id != "" ==> n.id == id)
    && Shows(t, id, n)
  }

  ghost predicate Justified(id: string, recipient: string, t: Tables, accepted: set<Notification>, env: Env) {
    exists n <- accepted :: Justifies(n, id, recipient, t, env)
  }

  ghost predicate RowsJustified(t: Tables, accepted: set<Notification>, env: Env) {
    forall k <- t.deliveries :: Justified(k.0, k.1, t, accepted, env)
  }

  predicate Shows(t: Tables, id: string, n: Notification) {
    id in t.notifications && t.notifications[id].content == ContentOf(n)
  }

  /** A dispatch stored what it is sending, or has sent. */
  ghost predicate HoldsContent(job: Job, t: Tables) {
    match job.stage
    case Begun => true
    case Validated => true
    case Stored(id) => Holds(t, id, Normalized(job.n))
    case Sending(id, _, _) => Holds(t, id, Normalized(job.n))
    case Finished(id, err) => Acknowledged(err) ==> Holds(t, id, Normalized(job.n))
  }

  predicate Holds(t: Tables, id: string, n: Notification) {
    Shows(t, id, n) && Storable(ContentOf(n))
  }

  /** No row of a notification goes away or changes content. */
  ghost predicate ContentsStay(t: Tables, t': Tables) {
    forall id <- t.notifications ::
      id in t'.notifications && t'.notifications[id].content == t.notifications[id].content
  }

  lemma StoredContent(db: Database, id: string, env: Env)
    requires DatabaseInv(db, env) && id in db.tables.notifications && env.contents(id).Some?
    ensures db.tables.notifications[id].content == env.contents(id).value
  {
    ReplayIsExplained(db.log);
    assert db.log[FirstFrom(db.log, 0, UpsertOf(id))].id == id;
  }

  lemma DoKeepsContents(db: Database, a: Action, env: Env)
    requires DatabaseInv(db, env) && Fits(a, db, env)
    ensures ContentsStay(db.tables, Do(db, a).tables)
  {
    hide DatabaseInv;
    if a.Upsert? && a.id in db.tables.notifications {
      StoredContent(db, a.id, env);
    }
  }

  lemma JustifiedStays(t: Tables, t': Tables, accepted: set<Notification>, accepted': set<Notification>, env: Env)
    requires ContentsStay(t, t') && accepted <= accepted'
    ensures forall id, r :: Justified(id, r, t, accepted, env) ==> Justified(id, r, t', accepted', env)
  {
    hide SiteServed, RecipientsOf;
  }

  lemma DoKeepsRows(db: Database, a: Action, accepted: set<Notification>, env: Env)
    requires DatabaseInv(db, env) && Fits(a, db, env) && RowsJustified(db.tables, accepted, env)
    requires a.Deliver? ==> Justified(a.id, a.recipient, db.tables, accepted, env)
    ensures RowsJustified(Do(db, a).tables, accepted, env)
  {
    DoKeepsContents(db, a, env);
    JustifiedStays(db.tables, Do(db, a).tables, accepted, accepted, env);
    hide DatabaseInv, ContentsStay, Justified;
  }

  lemma HoldsContentStays(job: Job, t: Tables, t': Tables)
    requires HoldsContent(job, t) && ContentsStay(t, t')
    ensures HoldsContent(job, t')
  {
  }

  /** A send to the site is for a recipient who is due the notification. */
  lemma SendIsJustified(job: Job, db: Database, accepted: set<Notification>, env: Env)
    requires JobInv(job, db, env) && HoldsContent(job, db.tables)
    requires Normalized(job.n) == job.n && job.n in accepted
    requires job.stage.Sending? && job.stage.todo != [] && job.stage.todo[0].Send?
    requires job.stage.todo[0].call.channel == SITE && !Refused(job.stage.todo[0].call, job.n, env)
    ensures Justified(job.stage.id, job.stage.todo[0].call.recipient, db.tables, accepted, env)
  {
    hide CallsFor, Served, Normalized, Refused, Storable;
    assert job.stage.todo[0] in job.stage.todo;
    assert Justifies(job.n, job.stage.id, job.stage.todo[0].call.recipient, db.tables, env);
  }

  /** What ends before its sends is not acknowledged. */
  lemma EndedEarly(job: Job, step: Step, db: Database, env: Env)
    requires Enabled(job, step, db, env) && !step.Finish?
    ensures var s := Next(job, step, db, env).0.stage; s.Finished? ==> !Acknowledged(s.err)
  {
    hide Normalized, Violation, CallsFor, Acknowledged, PermanentPush;
    match step
    case Validate =>
      InvalidIsNotAcknowledged(Normalized(job.n), env.isUUID);
    case Persist(_, _, e, _) => if !e.Nil? { WrappedIsNotPermanentPush("persist notification", e); }
    case ListRecipients(e) => if !e.Nil? { WrappedIsNotPermanentPush("list topic subscribers", e); }
    case _ =>
  }

  lemma InvalidIsNotAcknowledged(n: Notification, isUUID: string -> bool)
    ensures var v := Violation(n, isUUID); !v.Nil? ==> !Acknowledged(Wrap("dispatch validate notification", v))
  {
    var v := Violation(n, isUUID);
    ViolationIsPlain(n, isUUID);
    hide Violation;
    if !v.Nil? {
      assert Leaves(Wrap("dispatch validate notification", v)) == [v] && v in [v];
    }
  }

  /** A step of a dispatch adds only rows it has reason to add, and takes none away. */
  lemma StepKeepsRows(job: Job, step: Step, db: Database, accepted: set<Notification>, env: Env)
    requires DatabaseInv(db, env) && JobInv(job, db, env) && HoldsContent(job, db.tables)
    requires Normalized(job.n) == job.n && job.n in accepted && ContentKnown(job.n, env)
    requires RowsJustified(db.tables, accepted, env)
    requires Enabled(job, step, db, env)
    ensures
      var (job', db') := Next(job, step, db, env);
      && HoldsContent(job', db'.tables)
      && RowsJustified(db'.tables, accepted, env)
      && ContentsStay(db.tables, db'.tables)
  {
    hide Normalized, DatabaseInv, CallsFor, RowsJustified, ContentsStay, Justified, Acknowledged;
    if !step.Finish? {
      EndedEarly(job, step, db, env);
    }
    if step.Persist? && step.stored {
      var a := Upsert(step.id, ContentOf(job.n), step.now);
      assert Fits(a, db, env);
      DoKeepsRows(db, a, accepted, env);
      DoKeepsContents(db, a, env);
    } else if step.SendNext? && step.stored && job.stage.todo[0].call.channel == SITE {
      var a := Deliver(job.stage.id, job.stage.todo[0].call.recipient, step.now);
      SendIsJustified(job, db, accepted, env);
      DoKeepsRows(db, a, accepted, env);
      DoKeepsContents(db, a, env);
      HoldsContentStays(job, db.tables, Do(db, a).tables);
    } else {
      SameContents(db.tables);
    }
  }

  lemma SameContents(t: Tables)
    ensures ContentsStay(t, t)
  {
  }
}
