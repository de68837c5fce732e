/** What the service can still do from wherever it is: which copies can be settled and which
    stay for good, and how many rows one copy can leave in an inbox
    (internal/consumer/runner.go, internal/provider/site/site.go). */
module Progress {
  import opened Wrappers
  import opened GoErrors
  import opened Strings
  import opened Domain
  import Consumer
  import opened Acknowledge
  import Dispatch
  import Targets
  import Buffer
  import Broker
  import opened Inbox
  import Job
  import opened Rows
  import opened Refinement
  import opened Service

  ghost predicate LeadsIn(s: State, s': State, steps: nat, cfg: Config)
    decreases steps
  {
    if steps == 0 then s == s'
    else exists mid :: LeadsIn(s, mid, steps - 1, cfg) && Transition(mid, s', cfg)
  }

  ghost predicate Leads(s: State, s': State, cfg: Config) {
    exists steps: nat :: LeadsIn(s, s', steps, cfg)
  }

  lemma {:induction false} LeadsInTogether(s: State, mid: State, s': State, k: nat, m: nat, cfg: Config)
    requires LeadsIn(s, mid, k, cfg) && LeadsIn(mid, s', m, cfg)
    ensures LeadsIn(s, s', k + m, cfg)
    decreases m
  {
    hide Transition;
    if m > 0 {
      var before :| LeadsIn(mid, before, m - 1, cfg) && Transition(before, s', cfg);
      LeadsInTogether(s, mid, before, k, m - 1, cfg);
    }
  }

  lemma LeadsTogether(s: State, mid: State, s': State, cfg: Config)
    requires Leads(s, mid, cfg) && Leads(mid, s', cfg)
    ensures Leads(s, s', cfg)
  {
    hide LeadsIn;
    var k: nat :| LeadsIn(s, mid, k, cfg);
    var m: nat :| LeadsIn(mid, s', m, cfg);
    LeadsInTogether(s, mid, s', k, m, cfg);
  }

  lemma TransitionLeads(s: State, s': State, cfg: Config)
    requires Transition(s, s', cfg)
    ensures Leads(s, s', cfg)
  {
    hide Transition;
    assert LeadsIn(s, s, 0, cfg);
    assert LeadsIn(s, s', 1, cfg);
  }

  lemma StepLeads(s: State, step: Step, cfg: Config)
    requires Enabled(s, step, cfg)
    ensures Leads(s, Next(s, step, cfg), cfg)
  {
    hide Enabled, Next, Transition, Leads;
    StepIsTransition(s, step, cfg);
    TransitionLeads(s, Next(s, step, cfg), cfg);
  }

  lemma StaysPut(s: State, cfg: Config)
    ensures Leads(s, s, cfg)
  {
    assert LeadsIn(s, s, 0, cfg);
  }

  lemma TransitionReaches(s: State, s': State, cfg: Config)
    requires Reachable(s, cfg) && Transition(s, s', cfg)
    ensures Reachable(s', cfg)
  {
    hide Transition;
    var run: seq<State> :| run != [] && IsRun(run, cfg) && run[|run| - 1] == s;
    var more := run + [s'];
    assert more[|more| - 1] == s';
    forall i | 0 <= i < |more| - 1 ensures Transition(more[i], more[i + 1], cfg) {
      if i < |run| - 1 {
        assert Transition(run[i], run[i + 1], cfg);
      }
    }
    assert IsRun(more, cfg);
  }

  lemma {:induction false} LeadsInReaches(s: State, s': State, steps: nat, cfg: Config)
    requires Reachable(s, cfg) && LeadsIn(s, s', steps, cfg)
    ensures Reachable(s', cfg)
    decreases steps
  {
    hide Transition, Reachable;
    if steps > 0 {
      var mid :| LeadsIn(s, mid, steps - 1, cfg) && Transition(mid, s', cfg);
      LeadsInReaches(s, mid, steps - 1, cfg);
      TransitionReaches(mid, s', cfg);
    }
  }

  lemma LeadsReaches(s: State, s': State, cfg: Config)
    requires Reachable(s, cfg) && Leads(s, s', cfg)
    ensures Reachable(s', cfg)
  {
    hide LeadsIn, Reachable;
    var steps: nat :| LeadsIn(s, s', steps, cfg);
    LeadsInReaches(s, s', steps, cfg);
  }

  lemma StepKeepsBodies(s: State, step: Step, cfg: Config)
    requires Enabled(s, step, cfg)
    ensures s.bodies <= Next(s, step, cfg).bodies
  {
    hide Admissible, Job.Next, Job.Enabled, Broker.Next, Broker.Enabled, Buffer.Next, Buffer.Enabled,
         Consumer.SettlementAfter;
    if step.Work? {
      StoredIsRoutable(s.buffer, step.action);
    }
  }

  lemma TransitionKeepsBodies(s: State, s': State, cfg: Config)
    requires Transition(s, s', cfg)
    ensures s.bodies <= s'.bodies
  {
    hide Enabled, Next;
    var step :| Enabled(s, step, cfg) && s' == Next(s, step, cfg);
    StepKeepsBodies(s, step, cfg);
  }

  lemma {:induction false} LeadsInKeepsBodies(s: State, s': State, steps: nat, cfg: Config)
    requires LeadsIn(s, s', steps, cfg)
    ensures s.bodies <= s'.bodies
    decreases steps
  {
    hide Transition;
    if steps > 0 {
      var mid :| LeadsIn(s, mid, steps - 1, cfg) && Transition(mid, s', cfg);
      LeadsInKeepsBodies(s, mid, steps - 1, cfg);
      TransitionKeepsBodies(mid, s', cfg);
    }
  }

  lemma LeadsKeepsBodies(s: State, s': State, cfg: Config)
    requires Leads(s, s', cfg)
    ensures s.bodies <= s'.bodies
  {
    hide LeadsIn;
    var steps: nat :| LeadsIn(s, s', steps, cfg);
    LeadsInKeepsBodies(s, s', steps, cfg);
  }

  // ----- from anywhere to an idle consumer -----

  /** The consumer waits for deliveries on a session of its own. */
  predicate Idle(s: State) {
    s.broker.session == Broker.Online(true, [], Broker.Collecting([])) && s.broker.unacked == map[] && s.job.None?
  }

  /** The broker has, under another arrangement, what it had. */
  predicate SameHistory(s: State, s': State) {
    && s'.bodies == s.bodies && s'.accepted == s.accepted
    && s'.broker.dead == s.broker.dead && s'.broker.acked == s.broker.acked
  }

  lemma UnackedWhenOffline(s: State, cfg: Config)
    requires Inv(s, cfg)
    ensures s.broker.session.Offline? ==> s.broker.unacked == map[]
    ensures forall cid <- s.broker.ready :: cid !in s.broker.unacked
  {
    hide CopiesInv, AcceptedInv, BufferOrigin, BuffersInv, QueueOrigin, WorkInv, AcksInv,
         Broker.AttemptsInv, Broker.DeadInv, Broker.FirstTimeInv, Broker.TagsInv;
    forall cid <- s.broker.ready ensures cid !in s.broker.unacked {
      assert Broker.Places(s.broker, cid) == if cid < s.broker.published then 1 else 0;
    }
  }

  /** What waited still waits unchanged; what was with the consumer waits again, marked. */
  predicate Returned(q: Broker.State, q': Broker.State) {
    && q'.ready.Keys == q.ready.Keys + q.unacked.Keys
    && (forall cid <- q.ready :: q'.ready[cid] == q.ready[cid])
    && (forall cid <- q.unacked :: q'.ready[cid].redelivered)
  }

  lemma CrashedAndOpened(s: State, cfg: Config)
    requires s.broker.session.Offline? ==> s.broker.unacked == map[]
    requires forall cid <- s.broker.ready :: cid !in s.broker.unacked
    ensures
      var s1 := Next(s, CrashProcess, cfg);
      Enabled(s1, Consume(Broker.Open), cfg) &&
        var s' := Next(s1, Consume(Broker.Open), cfg);
        && Idle(s') && SameHistory(s, s') && s'.db == s.db && Returned(s.broker, s'.broker)
  {
    hide Admissible, Consumer.IsPoison, Consumer.SettlingOrder, Job.Next, Job.Enabled, Buffer.Next, Buffer.Enabled;
  }

  /** A crash and a new session bring everything unsettled back into the queue. */
  lemma ToIdle(s: State, cfg: Config) returns (s': State)
    requires Reachable(s, cfg)
    ensures Leads(s, s', cfg) && Idle(s') && SameHistory(s, s') && s'.db == s.db
    ensures Returned(s.broker, s'.broker)
  {
    hide Inv, Reachable, Enabled, Next, Leads, Returned;
    ReachableInv(s, cfg);
    UnackedWhenOffline(s, cfg);
    CrashedAndOpened(s, cfg);
    CrashIsEnabled(s, cfg);
    var s1 := Next(s, CrashProcess, cfg);
    StepLeads(s, CrashProcess, cfg);
    s' := Next(s1, Consume(Broker.Open), cfg);
    StepLeads(s1, Consume(Broker.Open), cfg);
    LeadsTogether(s, s1, s', cfg);
  }

  lemma CrashIsEnabled(s: State, cfg: Config)
    ensures Enabled(s, CrashProcess, cfg)
  {
  }

  // ----- one copy delivered on its own -----

  /** The copy is the consumer's only delivery and is to be settled next. */
  predicate Alone(s: State, c: Consumer.Copy, busy: bool) {
    && s.broker.session.Online? && s.broker.session.alive && s.broker.session.inflight == []
    && s.broker.session.phase.Settling? && |s.broker.session.phase.plan| == 1
    && s.broker.session.phase.plan[0].copy == c && s.broker.session.phase.busy == busy
  }

  lemma DeliveredAlone(q: Broker.State, cid: nat, cfg: Broker.Config)
    requires q.session == Broker.Online(true, [], Broker.Collecting([])) && q.unacked == map[]
    requires cid in q.ready && cfg.batchSize >= 1 && cfg.prefetch >= 1
    ensures Broker.Enabled(q, Broker.DeliverCopy(cid), cfg)
    ensures
      var q1 := Broker.Next(q, Broker.DeliverCopy(cid), cfg);
      Broker.Enabled(q1, Broker.Collect, cfg) &&
        var q2 := Broker.Next(q1, Broker.Collect, cfg);
        Broker.Enabled(q2, Broker.BatchComplete, cfg) &&
          var d := Consumer.Delivery(q.nextTag, q.ready[cid]);
          var q3 := Broker.Next(q2, Broker.BatchComplete, cfg);
          && q3.session == Broker.Online(true, [], Broker.Settling([d], false))
          && q3.acked == q.acked && q3.dead == q.dead && q3.dispatched == q.dispatched
          && q3.unacked == map[cid := d]
  {
    hide Consumer.IsPoison, Consumer.SettlingOrder;
    var d := Consumer.Delivery(q.nextTag, q.ready[cid]);
    var q1 := Broker.Next(q, Broker.DeliverCopy(cid), cfg);
    assert q1.session.inflight == [d];
    var q2 := Broker.Next(q1, Broker.Collect, cfg);
    assert q2.session == Broker.Online(true, [], Broker.Collecting([d]));
    Broker.PlanOfOne(d, cfg.maxRedeliver);
  }

  lemma ConsumeIsEnabled(s: State, q: Broker.Step, cfg: Config)
    requires Service.Plain(q) && Broker.Enabled(s.broker, q, cfg.broker)
    ensures Enabled(s, Consume(q), cfg)
    ensures Next(s, Consume(q), cfg) == s.(broker := Broker.Next(s.broker, q, cfg.broker))
  {
    hide Broker.Enabled, Broker.Next;
  }

  lemma ConsumeLeads(s: State, q: Broker.Step, cfg: Config)
    requires Service.Plain(q) && Broker.Enabled(s.broker, q, cfg.broker)
    ensures Leads(s, s.(broker := Broker.Next(s.broker, q, cfg.broker)), cfg)
  {
    hide Leads, Enabled, Next, Broker.Enabled, Broker.Next;
    ConsumeIsEnabled(s, q, cfg);
    StepLeads(s, Consume(q), cfg);
  }

  lemma ToAlone(s: State, cid: nat, cfg: Config) returns (s': State)
    requires Idle(s) && cid in s.broker.ready && cfg.broker.batchSize >= 1 && cfg.broker.prefetch >= 1
    ensures Leads(s, s', cfg) && Alone(s', s.broker.ready[cid], false) && s'.job.None?
    ensures SameHistory(s, s') && s'.db == s.db
  {
    hide Leads, Broker.Enabled, Broker.Next;
    DeliveredAlone(s.broker, cid, cfg.broker);
    ConsumeLeads(s, Broker.DeliverCopy(cid), cfg);
    var s1 := s.(broker := Broker.Next(s.broker, Broker.DeliverCopy(cid), cfg.broker));
    ConsumeLeads(s1, Broker.Collect, cfg);
    var s2 := s1.(broker := Broker.Next(s1.broker, Broker.Collect, cfg.broker));
    ConsumeLeads(s2, Broker.BatchComplete, cfg);
    s' := s2.(broker := Broker.Next(s2.broker, Broker.BatchComplete, cfg.broker));
    LeadsTogether(s, s1, s2, cfg);
    LeadsTogether(s, s2, s', cfg);
  }

  // ----- one dispatch carried through -----

  predicate Unused(id: string, used: set<string>, env: Job.Env) {
    id != "" && id !in used && env.contents(id).None?
  }

  ghost predicate SomeUnused(used: set<string>, env: Job.Env) {
    exists id :: Unused(id, used, env)
  }

  /** There is always another id to generate. */
  ghost predicate IdsRemain(env: Job.Env) {
    forall used :: SomeUnused(used, env)
  }

  const REFUSAL := Plain("refused")

  /** A world where nothing fails but the calls that always do, and where the notification is
      stored under this id. */
  function Obliging(env: Job.Env, id: string): Dispatch.World {
    Granted(env).(
      upsert := (n: Notification) => Ok(id),
      send := (n: Notification, call: Dispatch.SendCall) => if Job.Refused(call, n, env) then REFUSAL else Nil)
  }

  lemma RefusalIsStorage()
    ensures StorageError(REFUSAL) && !PermanentPush(REFUSAL)
  {
    assert Leaves(REFUSAL) == [REFUSAL];
    assert REFUSAL in [REFUSAL];
  }

  lemma ObligingIsPlausible(env: Job.Env, id: string)
    ensures Plausible(Obliging(env, id), env)
  {
    hide Job.Refused, PermanentPush, StorageError;
    RefusalIsStorage();
    RefusalIsWellBuilt();
  }

  lemma RefusalIsWellBuilt()
    ensures WellBuilt(REFUSAL) && WellBuilt(Nil)
  {
  }

  /** The work ahead is for recipients of the notification and none of it always fails. */
  ghost predicate NoneRefused(todo: seq<Job.Work>, n: Notification, env: Job.Env) {
    && (forall w <- todo :: w.Load? ==> w.recipient in Job.RecipientsOf(n, env))
    && (forall w <- todo :: w.Send? ==> !Job.Refused(w.call, n, env))
  }

  /** Validation and storage let the notification pass, and a servable one has met no error. */
  ghost predicate Smooth(job: Job.Job, env: Job.Env) {
    var n := Normalized(job.n);
    && Violation(n, env.isUUID).Nil? && Storable(ContentOf(n))
    && match job.stage
       case Sending(_, todo, err) => Job.Servable(n, env) ==> err.Nil? && NoneRefused(todo, n, env)
       case Finished(_, err) => Job.Servable(n, env) ==> err.Nil?
       case _ => true
  }

  /** A site send to the recipient that does not always fail is ahead. */
  predicate SiteAhead(r: string, todo: seq<Job.Work>, n: Notification, env: Job.Env) {
    exists w <- todo :: w.Send? && w.call.recipient == r && w.call.channel == SITE && !Job.Refused(w.call, n, env)
  }

  /** The recipient has the row or will get it. */
  ghost predicate RowComing(r: string, job: Job.Job, db: Job.Database, env: Job.Env) {
    match job.stage
    case Sending(id, todo, _) =>
      || (id, r) in db.tables.deliveries
      || Job.Load(r) in todo
      || SiteAhead(r, todo, Normalized(job.n), env)
    case Finished(id, _) => (id, r) in db.tables.deliveries
    case _ => true
  }

  /** The notification is stored before anything is sent, and everyone whose row can be
      written has it or will get it. */
  ghost predicate RowsComing(job: Job.Job, db: Job.Database, env: Job.Env) {
    var n := Normalized(job.n);
    && (job.stage.Stored? || job.stage.Sending? ==> job.stage.id in db.tables.notifications)
    && forall r <- Job.RecipientsOf(n, env) :: Job.SiteServed(r, n, env) ==> RowComing(r, job, db, env)
  }

  /** The id that the dispatch stores the notification under, or is going to. */
  function IdOf(job: Job.Job, id: string): string {
    match job.stage
    case Begun => id
    case Validated => id
    case Stored(i) => i
    case Sending(i, _, _) => i
    case Finished(i, _) => i
  }

  predicate MayStore(job: Job.Job, id: string, db: Job.Database, env: Job.Env) {
    job.stage.Begun? || job.stage.Validated? ==> Job.IdStored(id, Normalized(job.n), db, env)
  }

  /** What each step of the obliging world keeps, besides the errors and the rows. */
  lemma IdStep(job: Job.Job, id: string, db: Job.Database, env: Job.Env)
    requires Smooth(job, env) && MayStore(job, id, db, env) && !job.stage.Finished?
    requires Job.Enabled(job, NextStep(job, Obliging(env, id)), db, env)
    ensures
      var (job', db') := Job.Next(job, NextStep(job, Obliging(env, id)), db, env);
      && job'.n == job.n && IdOf(job', id) == IdOf(job, id) && MayStore(job', id, db', env)
      && (forall k <- db.tables.deliveries :: k in db'.tables.deliveries)
  {
    hide Normalized, Violation, Job.CallsFor, Job.Refused, Job.Servable, Storable, NoneRefused, StorageError;
  }

  lemma SmoothStep(job: Job.Job, id: string, db: Job.Database, env: Job.Env)
    requires Smooth(job, env) && !job.stage.Finished?
    requires Job.Enabled(job, NextStep(job, Obliging(env, id)), db, env)
    ensures Smooth(Job.Next(job, NextStep(job, Obliging(env, id)), db, env).0, env)
  {
    hide Normalized, Violation, Job.CallsFor, Job.Refused, Storable, StorageError, Job.RecipientsOf, Job.Servable,
         NoneRefused, Job.SendWork, Job.LoadWork;
    var n := Normalized(job.n);
    if Job.Servable(n, env) {
      match job.stage
      case Stored(_) => LoadsNotRefused(n, env);
      case Sending(_, todo, _) =>
        if todo != [] {
          if todo[0].Load? {
            SendsNotRefused(todo, n, env);
          } else {
            NextNotRefused(job, todo, n, env);
          }
        }
      case _ =>
    }
  }

  lemma LoadsNotRefused(n: Notification, env: Job.Env)
    ensures NoneRefused(Job.LoadWork(Job.RecipientsOf(n, env)), n, env)
  {
    hide Job.RecipientsOf, Job.Refused, Job.LoadWork;
    Job.LoadWorkMembers(Job.RecipientsOf(n, env));
  }

  lemma SendsNotRefused(todo: seq<Job.Work>, n: Notification, env: Job.Env)
    requires NoneRefused(todo, n, env) && Job.Servable(n, env) && todo != [] && todo[0].Load?
    ensures NoneRefused(Job.SendWork(Job.CallsFor(todo[0].recipient, n, env)) + todo[1..], n, env)
  {
    hide Job.RecipientsOf, Job.Refused, Job.CallsFor, Storable, Job.SendWork;
    assert todo[0] in todo;
    assert forall w <- todo[1..] :: w in todo;
    Job.SendWorkMembers(Job.CallsFor(todo[0].recipient, n, env));
  }

  lemma NextNotRefused(job: Job.Job, todo: seq<Job.Work>, n: Notification, env: Job.Env)
    requires NoneRefused(todo, n, env) && todo != [] && todo[0].Send? && n == Normalized(job.n)
    ensures forall id :: !Job.Refused(todo[0].call, SentAs(job, id), env)
    ensures NoneRefused(todo[1..], n, env)
  {
    hide Job.RecipientsOf, Job.Refused, Normalized;
    assert todo[0] in todo;
    assert forall w <- todo[1..] :: w in todo;
    forall id ensures !Job.Refused(todo[0].call, SentAs(job, id), env) {
      RefusedWhateverId(todo[0].call, n, id, env);
    }
  }

  // ----- the rows that are coming -----

  lemma LoadBringsSend(r: string, job: Job.Job, db: Job.Database, env: Job.Env)
    requires job.stage.Sending? && job.stage.todo != [] && job.stage.todo[0].Load?
    requires Job.SiteServed(r, Normalized(job.n), env) && RowComing(r, job, db, env)
    ensures
      var todo := job.stage.todo;
      var work := Job.SendWork(Job.CallsFor(todo[0].recipient, Normalized(job.n), env)) + todo[1..];
      (job.stage.id, r) in db.tables.deliveries || Job.Load(r) in work || SiteAhead(r, work, Normalized(job.n), env)
  {
    hide Normalized, Job.CallsFor, Job.Refused, Storable, Job.SendWork;
    var n, todo := Normalized(job.n), job.stage.todo;
    var calls := Job.CallsFor(todo[0].recipient, n, env);
    var work := Job.SendWork(calls) + todo[1..];
    Job.SendWorkMembers(calls);
    assert todo == [todo[0]] + todo[1..];
    if todo[0] == Job.Load(r) {
      Job.CallsAreTheRecipients(r, n, env);
      var c :| c in calls && c.channel == SITE && !Job.Refused(c, n, env);
      assert Job.Send(c) in work;
    } else if SiteAhead(r, todo, n, env) {
      var w :| w in todo && w.Send? && w.call.recipient == r && w.call.channel == SITE && !Job.Refused(w.call, n, env);
      assert w in work;
    }
  }

  lemma SendBringsRow(r: string, job: Job.Job, id: string, db: Job.Database, env: Job.Env)
    requires job.stage.Sending? && job.stage.todo != [] && job.stage.todo[0].Send?
    requires job.stage.id in db.tables.notifications && RowComing(r, job, db, env)
    requires Job.Enabled(job, NextStep(job, Obliging(env, id)), db, env)
    ensures
      var (job', db') := Job.Next(job, NextStep(job, Obliging(env, id)), db, env);
      RowComing(r, job', db', env)
  {
    hide Normalized, Job.Refused, StorageError;
    var n, todo := Normalized(job.n), job.stage.todo;
    var call := todo[0].call;
    RefusedWhateverId(call, n, job.stage.id, env);
    assert todo == [todo[0]] + todo[1..];
    if SiteAhead(r, todo, n, env) && !(call.recipient == r && call.channel == SITE && !Job.Refused(call, n, env)) {
      var w :| w in todo && w.Send? && w.call.recipient == r && w.call.channel == SITE && !Job.Refused(w.call, n, env);
      assert w in todo[1..];
    }
  }

  lemma RowStep(r: string, job: Job.Job, id: string, db: Job.Database, env: Job.Env)
    requires Smooth(job, env) && RowsComing(job, db, env) && !job.stage.Finished?
    requires Job.Enabled(job, NextStep(job, Obliging(env, id)), db, env)
    requires r in Job.RecipientsOf(Normalized(job.n), env) && Job.SiteServed(r, Normalized(job.n), env)
    ensures
      var (job', db') := Job.Next(job, NextStep(job, Obliging(env, id)), db, env);
      RowComing(r, job', db', env)
  {
    hide Normalized, Violation, Job.CallsFor, Job.Refused, Job.Servable, Job.SiteServed, Storable, Job.RecipientsOf,
         NoneRefused, StorageError, Job.SendWork, Job.LoadWork, SiteAhead;
    match job.stage
    case Stored(_) => Job.LoadWorkMembers(Job.RecipientsOf(Normalized(job.n), env));
    case Sending(_, todo, _) =>
      assert RowComing(r, job, db, env);
      if todo == [] {
        NothingAhead(r, Normalized(job.n), env);
      } else if todo[0].Load? {
        LoadBringsSend(r, job, db, env);
      } else {
        SendBringsRow(r, job, id, db, env);
      }
    case _ =>
  }

  lemma NothingAhead(r: string, n: Notification, env: Job.Env)
    ensures !SiteAhead(r, [], n, env)
  {
  }

  lemma RowsStep(job: Job.Job, id: string, db: Job.Database, env: Job.Env)
    requires Smooth(job, env) && RowsComing(job, db, env) && !job.stage.Finished?
    requires Job.Enabled(job, NextStep(job, Obliging(env, id)), db, env)
    ensures
      var (job', db') := Job.Next(job, NextStep(job, Obliging(env, id)), db, env);
      RowsComing(job', db', env)
  {
    StoredBefore(job, id, db, env);
    hide Normalized, RowComing, Job.Next, Job.Enabled, NextStep, Job.RecipientsOf, Job.SiteServed, Smooth;
    var job' := Job.Next(job, NextStep(job, Obliging(env, id)), db, env).0;
    forall r <- Job.RecipientsOf(Normalized(job'.n), env) | Job.SiteServed(r, Normalized(job'.n), env)
      ensures RowComing(r, job', Job.Next(job, NextStep(job, Obliging(env, id)), db, env).1, env)
    {
      RowStep(r, job, id, db, env);
    }
  }

  lemma StoredBefore(job: Job.Job, id: string, db: Job.Database, env: Job.Env)
    requires RowsComing(job, db, env) && !job.stage.Finished?
    requires Job.Enabled(job, NextStep(job, Obliging(env, id)), db, env)
    ensures
      var (job', db') := Job.Next(job, NextStep(job, Obliging(env, id)), db, env);
      && job'.n == job.n
      && (job'.stage.Stored? || job'.stage.Sending? ==> job'.stage.id in db'.tables.notifications)
  {
    hide Normalized, Violation, Job.CallsFor, Job.Refused, Job.SiteServed, Storable, Job.RecipientsOf, StorageError,
         RowComing;
  }

  lemma ObligingStep(job: Job.Job, id: string, db: Job.Database, env: Job.Env)
    requires Smooth(job, env) && RowsComing(job, db, env) && MayStore(job, id, db, env) && !job.stage.Finished?
    ensures Job.Enabled(job, NextStep(job, Obliging(env, id)), db, env)
    ensures
      var (job', db') := Job.Next(job, NextStep(job, Obliging(env, id)), db, env);
      && Closer(job'.stage, job.stage) && job'.n == job.n
      && Smooth(job', env) && RowsComing(job', db', env)
      && MayStore(job', id, db', env) && IdOf(job', id) == IdOf(job, id)
      && (forall k <- db.tables.deliveries :: k in db'.tables.deliveries)
  {
    FitsWhenSmooth(job, id, db, env);
    hide Normalized, Plausible, Job.Enabled, Job.Next, NextStep, Smooth, Closer, MayStore, IdFits, RowsComing;
    ObligingIsPlausible(env, id);
    NextStepIsEnabled(job, db, Obliging(env, id), env);
    NextStepIsCloser(job, db, Obliging(env, id), env);
    IdStep(job, id, db, env);
    SmoothStep(job, id, db, env);
    RowsStep(job, id, db, env);
  }

  lemma FitsWhenSmooth(job: Job.Job, id: string, db: Job.Database, env: Job.Env)
    requires Smooth(job, env) && MayStore(job, id, db, env)
    ensures job.stage.Validated? ==> IdFits(job.n, db, Obliging(env, id), env)
  {
    hide Normalized, Violation, Storable, Job.Servable, NoneRefused;
  }

  lemma DispatchLeads(s: State, j: Job.Step, cfg: Config) returns (s': State)
    requires s.job.Some? && Job.Enabled(s.job.value, j, s.db, cfg.env)
    ensures Leads(s, s', cfg)
    ensures
      var (job', db') := Job.Next(s.job.value, j, s.db, cfg.env);
      s' == s.(job := Some(job'), db := db')
  {
    hide Leads, Job.Enabled, Job.Next;
    StepLeads(s, Dispatch(j), cfg);
    s' := Next(s, Dispatch(j), cfg);
  }

  /** A smooth dispatch can be brought to its end, with everyone's row written that can be,
      and without an error if the notification can be served. */
  lemma {:induction false} ToFinished(s: State, id: string, cfg: Config) returns (s': State)
    requires s.job.Some? && Smooth(s.job.value, cfg.env) && MayStore(s.job.value, id, s.db, cfg.env)
    requires RowsComing(s.job.value, s.db, cfg.env)
    ensures Leads(s, s', cfg) && s'.broker == s.broker && SameHistory(s, s')
    ensures s'.job.Some? && s'.job.value.n == s.job.value.n
    ensures s'.job.value.stage.Finished? && s'.job.value.stage.id == IdOf(s.job.value, id)
    ensures Smooth(s'.job.value, cfg.env) && RowsComing(s'.job.value, s'.db, cfg.env)
    ensures forall k <- s.db.tables.deliveries :: k in s'.db.tables.deliveries
    decreases
      StagesLeft(s.job.value.stage), Loads(TodoOf(s.job.value.stage)), |TodoOf(s.job.value.stage)|
  {
    hide Leads, MayStore, Job.Enabled, Job.Next, NextStep, Loads, Smooth, RowsComing;
    var job := s.job.value;
    if job.stage.Finished? {
      StaysPut(s, cfg);
      return s;
    }
    ObligingStep(job, id, s.db, cfg.env);
    var mid := DispatchLeads(s, NextStep(job, Obliging(cfg.env, id)), cfg);
    s' := ToFinished(mid, id, cfg);
    LeadsTogether(s, mid, s', cfg);
  }

  lemma BeginLeads(s: State, c: Consumer.Copy, cfg: Config) returns (s': State)
    requires Alone(s, c, false) && !Consumer.IsPoison(s.broker.session.phase.plan[0], cfg.broker.maxRedeliver)
    ensures Leads(s, s', cfg) && Alone(s', c, true)
    ensures c.body.Some? && s'.job == Some(Job.Started(c.body.value))
    ensures SameHistory(s, s') && s'.db == s.db
  {
    hide Leads;
    StepLeads(s, BeginDispatch, cfg);
    s' := Next(s, BeginDispatch, cfg);
  }

  lemma PickId(n: Notification, db: Job.Database, env: Job.Env) returns (id: string)
    requires n.id == "" ==> IdsRemain(env)
    ensures Job.IdStored(id, n, db, env)
  {
    if n.id == "" {
      assert SomeUnused(db.tables.notifications.Keys, env);
      id :| Unused(id, db.tables.notifications.Keys, env);
    } else {
      id := n.id;
    }
  }

  /** The copy is one that the consumer dispatches. */
  predicate Dispatchable(c: Consumer.Copy, cfg: Config) {
    c.body.Some? && (cfg.broker.maxRedeliver == 1 ==> !c.redelivered)
  }

  lemma ReadyCopy(s: State, cid: nat, cfg: Config)
    requires Inv(s, cfg) && cid in s.broker.ready
    ensures cid < |s.bodies| && s.broker.ready[cid].body == s.bodies[cid] && s.broker.ready[cid].cid == cid
    ensures s.broker.ready[cid].xDeath.Absent?
    ensures s.bodies[cid].Some? ==> Admissible(s.bodies[cid].value, cfg.env)
  {
    hide Admissible, CopiesInv, BufferOrigin, BuffersInv, WorkInv, AcksInv, Broker.HoldingInv, Broker.AttemptsInv,
         Broker.DeadInv, Broker.FirstTimeInv;
    assert Genuine(s.broker.ready[cid], s.bodies);
    assert cid < |s.bodies| ==> s.bodies[cid] in s.bodies;
  }

  /** Everyone whose row can be written has it. */
  ghost predicate RowsWritten(id: string, n: Notification, db: Job.Database, env: Job.Env) {
    forall r <- Job.RecipientsOf(n, env) :: Job.SiteServed(r, n, env) ==> (id, r) in db.tables.deliveries
  }

  lemma StartsSmooth(n: Notification, id: string, db: Job.Database, env: Job.Env)
    requires Admissible(n, env) && Storable(ContentOf(n)) && Job.IdStored(id, n, db, env)
    ensures
      var job := Job.Started(n);
      && Smooth(job, env) && MayStore(job, id, db, env) && RowsComing(job, db, env) && IdOf(job, id) == id
  {
    hide Normalized, Acceptable, Violation, Storable;
    ViolationFindsAll(n, env.isUUID);
  }

  lemma FinishedServed(job: Job.Job, db: Job.Database, env: Job.Env)
    requires Normalized(job.n) == job.n && job.stage.Finished? && Smooth(job, env) && RowsComing(job, db, env)
    ensures Job.Servable(job.n, env) ==> job.stage.err.Nil?
    ensures RowsWritten(job.stage.id, job.n, db, env)
  {
    hide Normalized, Violation, Storable, Job.Servable, Job.RecipientsOf, Job.SiteServed;
  }

  /** From an idle consumer the dispatch of the copy can be brought to its end, under an id that
      was not in use if the notification has none. */
  lemma ToDispatched(s: State, cid: nat, cfg: Config) returns (s': State)
    requires Reachable(s, cfg) && Idle(s) && cid in s.broker.ready && Dispatchable(s.broker.ready[cid], cfg)
    requires Storable(ContentOf(s.broker.ready[cid].body.value))
    requires cfg.broker.batchSize >= 1 && cfg.broker.prefetch >= 1 && IdsRemain(cfg.env)
    ensures Leads(s, s', cfg) && Alone(s', s.broker.ready[cid], true) && SameHistory(s, s')
    ensures s'.job.Some? && s'.job.value.n == s.broker.ready[cid].body.value && s'.job.value.stage.Finished?
    ensures Job.Servable(s'.job.value.n, cfg.env) ==> s'.job.value.stage.err.Nil?
    ensures RowsWritten(s'.job.value.stage.id, s'.job.value.n, s'.db, cfg.env)
    ensures s'.job.value.n.id == "" ==> s'.job.value.stage.id !in s.db.tables.notifications
    ensures forall k <- s.db.tables.deliveries :: k in s'.db.tables.deliveries
  {
    hide Reachable, Inv, Leads, Normalized, Acceptable, Smooth, RowsComing, RowsWritten, Storable, Job.Servable,
         IdsRemain, MayStore;
    ReachableInv(s, cfg);
    ReadyCopy(s, cid, cfg);
    var c := s.broker.ready[cid];
    var n := c.body.value;
    var s1 := ToAlone(s, cid, cfg);
    Broker.PoisonReason(s1.broker.session.phase.plan[0], cfg.broker.maxRedeliver);
    var s2 := BeginLeads(s1, c, cfg);
    LeadsTogether(s, s1, s2, cfg);
    var id := PickId(n, s.db, cfg.env);
    StartsSmooth(n, id, s.db, cfg.env);
    s' := ToFinished(s2, id, cfg);
    LeadsTogether(s, s2, s', cfg);
    FinishedServed(s'.job.value, s'.db, cfg.env);
  }

  // ----- which copies can be settled -----

  lemma SettleLeads(s: State, c: Consumer.Copy, cfg: Config) returns (s': State)
    requires Reachable(s, cfg) && Alone(s, c, true)
    requires s.job.Some? && s.job.value.stage.Finished? && s.job.value.stage.err.Nil?
    ensures Leads(s, s', cfg) && c.cid in s'.broker.acked
  {
    hide Reachable, Leads, Broker.Inv, CopiesInv, AcceptedInv, BufferOrigin, BuffersInv, WorkInv, AcksInv, QueueOrigin;
    ReachableInv(s, cfg);
    assert Consumer.SettlementAfter(Nil) == Consumer.Ack;
    StepLeads(s, SettleDispatch, cfg);
    SettlesHead(s, cfg);
    s' := Next(s, SettleDispatch, cfg);
  }

  lemma RefuseLeads(s: State, c: Consumer.Copy, cfg: Config) returns (s': State)
    requires Reachable(s, cfg) && Alone(s, c, false)
    requires Consumer.IsPoison(s.broker.session.phase.plan[0], cfg.broker.maxRedeliver)
    ensures Leads(s, s', cfg) && c.cid in s'.broker.dead
  {
    hide Reachable, Leads, Consumer.IsPoison;
    HeadAwaited(s, cfg);
    var q := Broker.SettlePoison;
    ConsumeLeads(s, q, cfg);
    s' := s.(broker := Broker.Next(s.broker, q, cfg.broker));
  }

  lemma HeadAwaited(s: State, cfg: Config)
    requires Reachable(s, cfg) && Broker.AtHead(s.broker) && s.broker.session.alive
    ensures
      var d := s.broker.session.phase.plan[0];
      d.copy.cid in s.broker.unacked && s.broker.unacked[d.copy.cid] == d
  {
    hide Reachable, CopiesInv, AcceptedInv, BufferOrigin, BuffersInv, WorkInv, AcksInv, QueueOrigin, Broker.PlacesInv,
         Broker.AttemptsInv, Broker.DeadInv, Broker.FirstTimeInv;
    ReachableInv(s, cfg);
    Broker.HeadOfHolding(s.broker);
    assert s.broker.session.phase.plan[0] in Broker.Holding(s.broker);
  }

  /** A ready copy that the consumer dispatches and that can be served can be acknowledged. */
  lemma ReadyIsServed(s: State, cid: nat, cfg: Config) returns (s': State)
    requires Reachable(s, cfg) && Idle(s) && cid in s.broker.ready && Dispatchable(s.broker.ready[cid], cfg)
    requires Job.Servable(s.broker.ready[cid].body.value, cfg.env)
    requires cfg.broker.batchSize >= 1 && cfg.broker.prefetch >= 1 && IdsRemain(cfg.env)
    ensures Leads(s, s', cfg) && cid in s'.broker.acked
  {
    ServableIsStorable(s.broker.ready[cid].body.value, cfg.env);
    hide Reachable, Inv, Leads, IdsRemain, Job.Servable, Storable, RowsWritten;
    ReachableInv(s, cfg);
    ReadyCopy(s, cid, cfg);
    var s1 := ToDispatched(s, cid, cfg);
    LeadsReaches(s, s1, cfg);
    s' := SettleLeads(s1, s.broker.ready[cid], cfg);
    LeadsTogether(s, s1, s', cfg);
  }

  lemma ServableIsStorable(n: Notification, env: Job.Env)
    ensures Job.Servable(n, env) ==> Storable(ContentOf(n))
  {
  }

  /** A ready copy that the consumer does not dispatch can be dead-lettered. */
  lemma ReadyIsRefused(s: State, cid: nat, cfg: Config) returns (s': State)
    requires Reachable(s, cfg) && Idle(s) && cid in s.broker.ready && !Dispatchable(s.broker.ready[cid], cfg)
    requires cfg.broker.batchSize >= 1 && cfg.broker.prefetch >= 1
    ensures Leads(s, s', cfg) && cid in s'.broker.dead
  {
    hide Reachable, Inv, Leads;
    ReachableInv(s, cfg);
    ReadyCopy(s, cid, cfg);
    var s1 := ToAlone(s, cid, cfg);
    LeadsReaches(s, s1, cfg);
    Broker.PoisonReason(s1.broker.session.phase.plan[0], cfg.broker.maxRedeliver);
    s' := RefuseLeads(s1, s.broker.ready[cid], cfg);
    LeadsTogether(s, s1, s', cfg);
  }

  /** Delivered and returned once more, the copy is marked. */
  lemma ToMarked(s: State, cid: nat, cfg: Config) returns (s': State)
    requires Reachable(s, cfg) && Idle(s) && cid in s.broker.ready
    requires cfg.broker.batchSize >= 1 && cfg.broker.prefetch >= 1
    ensures Leads(s, s', cfg) && Idle(s') && cid in s'.broker.ready && s'.broker.ready[cid].redelivered
  {
    hide Reachable, Inv, Leads;
    ReachableInv(s, cfg);
    ReadyCopy(s, cid, cfg);
    var s1 := ToAlone(s, cid, cfg);
    LeadsReaches(s, s1, cfg);
    HeadAwaited(s1, cfg);
    s' := ToIdle(s1, cfg);
    LeadsTogether(s, s1, s', cfg);
  }

  /** The copy is not settled: it waits in the queue or is with the consumer. */
  predicate Unsettled(s: State, cid: nat) {
    cid in s.broker.ready || cid in s.broker.unacked
  }

  ghost predicate CanBeAcknowledged(s: State, cid: nat, cfg: Config) {
    exists s' :: Leads(s, s', cfg) && cid in s'.broker.acked
  }

  ghost predicate CanBeDeadLettered(s: State, cid: nat, cfg: Config) {
    exists s' :: Leads(s, s', cfg) && cid in s'.broker.dead
  }

  lemma UnsettledBody(s: State, cid: nat, cfg: Config)
    requires Reachable(s, cfg) && Unsettled(s, cid)
    ensures cid < |s.bodies|
  {
    hide Reachable;
    CopiesAreConserved(s, cfg);
    assert Broker.Places(s.broker, cid) == if cid < |s.bodies| then 1 else 0;
  }

  lemma {:induction false} CallsContain(recipients: seq<string>, r: string, n: Notification, w: Dispatch.World)
    requires r in recipients
    ensures forall c <- Dispatch.CallsTo(r, n, w) :: c in Dispatch.Calls(recipients, n, w)
    decreases |recipients|
  {
    hide Dispatch.CallsTo;
    var init, last := recipients[..|recipients| - 1], recipients[|recipients| - 1];
    assert recipients == init + [last];
    if r in init {
      CallsContain(init, r, n, w);
    }
  }

  /** What was sent in full without a call that always fails can be served. */
  lemma SentIsServable(sent: seq<Job.Sent>, n: Notification, env: Job.Env)
    requires SentAll(sent, n, env)
    ensures Job.Servable(n, env)
  {
    hide Storable, PermanentPush, Job.Refused, Job.RecipientsOf, Dispatch.WithProvider, Dispatch.Calls;
    var w := Granted(env);
    forall r <- Job.RecipientsOf(n, env), c <- Job.CallsFor(r, n, env) ensures !Job.Refused(c, n, env) {
      assert Job.CallsFor(r, n, env) == Dispatch.CallsTo(r, n, w);
      CallsContain(Job.RecipientsOf(n, env), r, n, w);
      assert c in Job.CallsIn(sent);
      var i :| 0 <= i < |sent| && Job.CallsIn(sent)[i] == c;
      assert sent[i] in sent;
    }
  }

  lemma AcknowledgedIsServable(s: State, s': State, cid: nat, cfg: Config)
    requires Reachable(s, cfg) && cid < |s.bodies| && Leads(s, s', cfg) && cid in s'.broker.acked
    ensures s.bodies[cid].Some? && Job.Servable(s.bodies[cid].value, cfg.env)
  {
    hide Reachable, Leads, Job.Servable, SentAll, DeliveredAs, CopiesInv, Broker.Inv, AcceptedInv, BufferOrigin,
         BuffersInv, WorkInv, QueueOrigin, OwnIds;
    LeadsReaches(s, s', cfg);
    LeadsKeepsBodies(s, s', cfg);
    ReachableInv(s', cfg);
    assert AckHolds(cid, s'.acks[cid], s'.bodies, s'.db, cfg.env);
    SentIsServable(s'.acks[cid].sent, s.bodies[cid].value, cfg.env);
  }

  lemma DeadLetteredReason(s: State, s': State, cid: nat, cfg: Config)
    requires Reachable(s, cfg) && cid < |s.bodies| && Leads(s, s', cfg) && cid in s'.broker.dead
    ensures cfg.broker.maxRedeliver == 1 || s.bodies[cid].None?
  {
    hide Reachable, Leads, CopiesInv, AcceptedInv, BufferOrigin, BuffersInv, WorkInv, AcksInv, Broker.PlacesInv,
         Broker.HoldingInv, Broker.AttemptsInv, Broker.FirstTimeInv;
    LeadsReaches(s, s', cfg);
    LeadsKeepsBodies(s, s', cfg);
    ReachableInv(s', cfg);
  }

  /** The copy has not been marked as redelivered, or that does not matter. */
  predicate Unmarked(s: State, cid: nat, cfg: Config) {
    cfg.broker.maxRedeliver == 1 ==> cid in s.broker.ready && !s.broker.ready[cid].redelivered
  }

  /** Wherever the service stands, an unsettled copy can still be acknowledged exactly when it
      can be decoded and nothing makes its dispatch fail on every attempt. Under a limit of one
      redelivery this is said of copies that wait unmarked. */
  lemma CanBeAcknowledgedIff(s: State, cid: nat, cfg: Config)
    requires Reachable(s, cfg) && Unsettled(s, cid) && Unmarked(s, cid, cfg)
    requires cfg.broker.batchSize >= 1 && cfg.broker.prefetch >= 1 && IdsRemain(cfg.env)
    ensures cid < |s.bodies|
    ensures CanBeAcknowledged(s, cid, cfg) <==> s.bodies[cid].Some? && Job.Servable(s.bodies[cid].value, cfg.env)
  {
    hide Reachable, Inv, Leads, IdsRemain, Job.Servable;
    UnsettledBody(s, cid, cfg);
    if s.bodies[cid].Some? && Job.Servable(s.bodies[cid].value, cfg.env) {
      var s1 := ToIdle(s, cfg);
      LeadsReaches(s, s1, cfg);
      ReachableInv(s1, cfg);
      ReadyCopy(s1, cid, cfg);
      var s2 := ReadyIsServed(s1, cid, cfg);
      LeadsTogether(s, s1, s2, cfg);
    }
    if s' :| Leads(s, s', cfg) && cid in s'.broker.acked {
      AcknowledgedIsServable(s, s', cid, cfg);
    }
  }

  /** An unsettled copy can still be dead-lettered exactly when it cannot be decoded or the
      limit is one redelivery. */
  lemma CanBeDeadLetteredIff(s: State, cid: nat, cfg: Config)
    requires Reachable(s, cfg) && Unsettled(s, cid)
    requires cfg.broker.batchSize >= 1 && cfg.broker.prefetch >= 1
    ensures cid < |s.bodies|
    ensures CanBeDeadLettered(s, cid, cfg) <==> s.bodies[cid].None? || cfg.broker.maxRedeliver == 1
  {
    hide Reachable, Inv, Leads;
    UnsettledBody(s, cid, cfg);
    if s.bodies[cid].None? || cfg.broker.maxRedeliver == 1 {
      var s1 := ToIdle(s, cfg);
      LeadsReaches(s, s1, cfg);
      var s2 := ToMarked(s1, cid, cfg);
      LeadsTogether(s, s1, s2, cfg);
      LeadsReaches(s, s2, cfg);
      LeadsKeepsBodies(s, s2, cfg);
      ReachableInv(s2, cfg);
      ReadyCopy(s2, cid, cfg);
      var s3 := ReadyIsRefused(s2, cid, cfg);
      LeadsTogether(s, s2, s3, cfg);
    }
    if s' :| Leads(s, s', cfg) && cid in s'.broker.dead {
      DeadLetteredReason(s, s', cid, cfg);
    }
  }

  /** An unsettled copy can still be settled in one way or the other exactly when the limit is
      one redelivery, or it cannot be decoded, or nothing makes its dispatch fail on every
      attempt. */
  lemma CanBeSettledIff(s: State, cid: nat, cfg: Config)
    requires Reachable(s, cfg) && Unsettled(s, cid)
    requires cfg.broker.batchSize >= 1 && cfg.broker.prefetch >= 1 && IdsRemain(cfg.env)
    ensures cid < |s.bodies|
    ensures CanBeAcknowledged(s, cid, cfg) || CanBeDeadLettered(s, cid, cfg) <==>
      || cfg.broker.maxRedeliver == 1
      || s.bodies[cid].None?
      || Job.Servable(s.bodies[cid].value, cfg.env)
  {
    hide Reachable, IdsRemain, Job.Servable, CanBeAcknowledged, CanBeDeadLettered;
    CanBeDeadLetteredIff(s, cid, cfg);
    if cfg.broker.maxRedeliver != 1 {
      CanBeAcknowledgedIff(s, cid, cfg);
    }
  }

  /** With any other limit, a copy that can be decoded but not served is never settled: it goes
      back and forth between the queue and the consumer for good. */
  lemma RefusedForGood(s: State, s': State, cid: nat, cfg: Config)
    requires Reachable(s, cfg) && cid < |s.bodies| && Leads(s, s', cfg) && cfg.broker.maxRedeliver != 1
    requires s.bodies[cid].Some? && !Job.Servable(s.bodies[cid].value, cfg.env)
    ensures Unsettled(s', cid)
  {
    hide Reachable, Leads, Job.Servable;
    LeadsReaches(s, s', cfg);
    LeadsKeepsBodies(s, s', cfg);
    CopiesAreConserved(s', cfg);
    assert Broker.Places(s'.broker, cid) == 1;
    if cid in s'.broker.acked {
      AcknowledgedIsServable(s, s', cid, cfg);
    }
    if cid in s'.broker.dead {
      DeadLetteredReason(s, s', cid, cfg);
    }
  }

  /** A notification that asks for a target the site does not have, and is due on the site. */
  ghost predicate AsksForUnknownTarget(n: Notification, env: Job.Env) {
    && "site_target" in n.metadata && TrimSpace(n.metadata["site_target"]) != ""
    && TrimSpace(n.metadata["site_target"]) !in env.targets.prefixes
    && exists r <- Job.RecipientsOf(n, env) :: Job.SiteDue(r, n, env)
  }

  lemma UnknownTargetIsRefused(n: Notification, env: Job.Env)
    requires AsksForUnknownTarget(n, env)
    ensures !Job.Servable(n, env)
  {
    hide TrimSpace, Job.RecipientsOf, Job.CallsFor, Storable, Targets.PreferredTarget;
    var r :| r in Job.RecipientsOf(n, env) && Job.SiteDue(r, n, env);
    var c :| c in Job.CallsFor(r, n, env) && c.channel == SITE;
    assert Job.Refused(c, n, env);
  }

  /** Such a notification passes ingest when it is otherwise valid. Once published under any
      limit but one redelivery it is never settled, whatever happens. */
  lemma UnknownTargetStays(n: Notification, cfg: Config) returns (s: State)
    requires Admissible(n, cfg.env) && AsksForUnknownTarget(n, cfg.env) && cfg.broker.maxRedeliver != 1
    ensures Reachable(s, cfg) && OnlyCopy(s, n)
    ensures forall s' :: Leads(s, s', cfg) ==> Unsettled(s', 0)
  {
    hide Reachable, Leads, Admissible, AsksForUnknownTarget, Job.Servable;
    s := PublishedOnce(n, cfg);
    UnknownTargetIsRefused(n, cfg.env);
    forall s' | Leads(s, s', cfg) ensures Unsettled(s', 0) {
      RefusedForGood(s, s', 0, cfg);
    }
  }

  // ----- how many rows one copy leaves in an inbox -----

  /** No recipient has two rows. */
  ghost predicate OneRowEach(t: Tables) {
    forall k <- t.deliveries, k' <- t.deliveries :: k.1 == k'.1 ==> k == k'
  }

  /** Somebody's row can be written. */
  ghost predicate SomeoneServed(n: Notification, env: Job.Env) {
    exists r <- Job.RecipientsOf(n, env) :: Job.SiteServed(r, n, env)
  }

  /** The broker has seen one copy and nothing else. */
  predicate OnlyCopy(s: State, n: Notification) {
    s.bodies == [Some(n)]
  }

  lemma RowsOfOnlyCopy(s: State, n: Notification, cfg: Config)
    requires Reachable(s, cfg) && OnlyCopy(s, n)
    ensures forall k <- s.db.tables.deliveries :: Justifies(n, k.0, k.1, s.db.tables, cfg.env)
  {
    hide Reachable, Justifies;
    RowsWereAccepted(s, cfg);
    assert Carried(s.bodies) == {n};
  }

  lemma OnceDispatchedOneRow(s: State, n: Notification, cfg: Config)
    requires Reachable(s, cfg) && OnlyCopy(s, n) && cfg.broker.maxRedeliver == 1
    ensures OneRowEach(s.db.tables)
  {
    hide Reachable;
    InboxIsExactlyOnce(s, cfg);
    DispatchesOfOnlyCopy(s, n, cfg);
    var rows := s.db.tables.notifications;
    assert |rows.Keys| == |rows|;
    forall a <- rows.Keys, b <- rows.Keys ensures a == b {
      OnlyElement(rows.Keys, a, b);
    }
  }

  lemma OnlyElement(ids: set<string>, a: string, b: string)
    requires |ids| <= 1 && a in ids && b in ids
    ensures a == b
  {
    assert |ids - {a}| == |ids| - 1;
  }

  lemma DispatchesOfOnlyCopy(s: State, n: Notification, cfg: Config)
    requires Reachable(s, cfg) && OnlyCopy(s, n) && cfg.broker.maxRedeliver == 1
    ensures |s.db.tables.notifications| <= 1
  {
    hide Reachable, CopiesInv, AcceptedInv, BufferOrigin, BuffersInv, WorkInv, AcksInv, Broker.PlacesInv,
         Broker.HoldingInv, Broker.AttemptsInv, Broker.DeadInv;
    ReachableInv(s, cfg);
    AllZeroIsOne(s.broker.dispatched);
  }

  lemma AllZeroIsOne(xs: seq<nat>)
    requires forall x <- xs :: x == 0
    ensures Distinct(xs) ==> |xs| <= 1
  {
    if |xs| >= 2 {
      assert xs[0] in xs && xs[1] in xs;
    }
  }

  /** A notification accepted and published while the consumer waits for it. */
  lemma PublishedOnce(n: Notification, cfg: Config) returns (s: State)
    requires Admissible(n, cfg.env)
    ensures Reachable(s, cfg) && Idle(s) && OnlyCopy(s, n) && 0 in s.broker.ready && !s.broker.ready[0].redelivered
  {
    hide Admissible, Buffer.Enabled, Buffer.Initial, Buffer.Stores, Leads, Reachable, Broker.Next, Buffer.Next;
    OpenedAndPublished(n, cfg.broker);
    var s0 := Initial(cfg);
    StartIsReachable(cfg);
    var s1 := TakenWhileOpen(n, cfg);
    s := PublishLeads(s1, n, cfg);
    LeadsTogether(s0, s1, s, cfg);
    LeadsReaches(s0, s, cfg);
  }

  lemma OpenedAndPublished(n: Notification, cfg: Broker.Config)
    ensures
      var q := Broker.Next(Broker.INITIAL, Broker.Open, cfg);
      q.declared &&
        var q' := Broker.Next(q, Broker.Publish(Some(n)), cfg);
        && q'.session == Broker.Online(true, [], Broker.Collecting([])) && q'.unacked == map[]
        && 0 in q'.ready && !q'.ready[0].redelivered
  {
  }

  /** The consumer has opened its session, and a worker has taken what a client submitted. */
  lemma TakenWhileOpen(n: Notification, cfg: Config) returns (s: State)
    requires Admissible(n, cfg.env)
    ensures Leads(Initial(cfg), s, cfg)
    ensures s.bodies == [] && s.job.None?
    ensures s.broker == Broker.Next(Broker.INITIAL, Broker.Open, cfg.broker)
    ensures Buffer.Enabled(s.buffer, Buffer.TryPublish(0, Buffer.ROUTED))
    ensures Buffer.Stores(s.buffer, Buffer.TryPublish(0, Buffer.ROUTED)) == Some(n)
  {
    var b := Buffer.ConfirmedAtOnce(n, cfg.depth, cfg.workers, Buffer.ROUTED);
    hide Admissible, Buffer.Enabled, Buffer.Next, Buffer.Initial, Buffer.Stores, Leads, Broker.Next, Transition;
    var s0 := Initial(cfg);
    var s1 := s0.(broker := Broker.Next(s0.broker, Broker.Open, cfg.broker));
    ConsumeLeads(s0, Broker.Open, cfg);
    var s2 := s1.(buffer := Buffer.Next(s1.buffer, Buffer.Submit(n)), accepted := {n});
    IngestTransition(s1, n, cfg);
    TransitionLeads(s1, s2, cfg);
    LeadsTogether(s0, s1, s2, cfg);
    TakeTransition(s2, cfg);
    s := s2.(buffer := Buffer.Next(s2.buffer, Buffer.Take(0)));
    TransitionLeads(s2, s, cfg);
    LeadsTogether(s0, s2, s, cfg);
  }

  lemma PublishLeads(s: State, n: Notification, cfg: Config) returns (s': State)
    requires s.broker.declared && Buffer.Enabled(s.buffer, Buffer.TryPublish(0, Buffer.ROUTED))
    requires Buffer.Stores(s.buffer, Buffer.TryPublish(0, Buffer.ROUTED)) == Some(n)
    ensures Leads(s, s', cfg)
    ensures s'.bodies == s.bodies + [Some(n)] && s'.job == s.job
    ensures s'.broker == Broker.Next(s.broker, Broker.Publish(Some(n)), cfg.broker)
  {
    hide Buffer.Enabled, Buffer.Next, Buffer.Stores, Leads;
    StepLeads(s, Work(Buffer.TryPublish(0, Buffer.ROUTED)), cfg);
    s' := Next(s, Work(Buffer.TryPublish(0, Buffer.ROUTED)), cfg);
  }

  lemma StartIsReachable(cfg: Config)
    ensures Reachable(Initial(cfg), cfg)
  {
    hide Initial;
    assert IsRun([Initial(cfg)], cfg);
  }

  /** Dispatched, returned by a crash before its settlement, and dispatched again. */
  lemma TwoRows(n: Notification, r: string, cfg: Config) returns (s: State)
    requires Admissible(n, cfg.env) && n.id == "" && cfg.broker.maxRedeliver != 1
    requires cfg.broker.batchSize >= 1 && cfg.broker.prefetch >= 1 && IdsRemain(cfg.env)
    requires r in Job.RecipientsOf(n, cfg.env) && Job.SiteServed(r, n, cfg.env)
    ensures Reachable(s, cfg) && OnlyCopy(s, n) && !OneRowEach(s.db.tables)
  {
    ServedIsStorable(r, n, cfg.env);
    hide Reachable, Inv, Leads, IdsRemain, Job.RecipientsOf, Job.SiteServed, Job.Servable, Admissible, ForeignKeys,
         Storable;
    var s0 := PublishedOnce(n, cfg);
    ReachableInv(s0, cfg);
    ReadyCopy(s0, 0, cfg);
    var s1 := ToDispatched(s0, 0, cfg);
    LeadsReaches(s0, s1, cfg);
    BackInQueue(s1, s0.broker.ready[0], cfg);
    var s2 := ToIdle(s1, cfg);
    LeadsReaches(s1, s2, cfg);
    ReachableInv(s2, cfg);
    ReadyCopy(s2, 0, cfg);
    s := ToDispatched(s2, 0, cfg);
    LeadsReaches(s2, s, cfg);
    InboxIsExactlyOnce(s2, cfg);
    FirstIdInUse(s2.db.tables, s1.job.value.stage.id, r);
    assert (s1.job.value.stage.id, r) in s.db.tables.deliveries;
    assert (s.job.value.stage.id, r) in s.db.tables.deliveries;
  }

  lemma ServedIsStorable(r: string, n: Notification, env: Job.Env)
    ensures Job.SiteServed(r, n, env) ==> Storable(ContentOf(n))
  {
  }

  lemma FirstIdInUse(t: Tables, id: string, r: string)
    requires ForeignKeys(t) && (id, r) in t.deliveries
    ensures id in t.notifications
  {
  }

  lemma BackInQueue(s: State, c: Consumer.Copy, cfg: Config)
    requires Reachable(s, cfg) && Alone(s, c, true)
    ensures c.cid in s.broker.unacked
  {
    hide Reachable;
    HeadAwaited(s, cfg);
  }

  /** One copy of a notification puts at most one row into each inbox, in every run, exactly
      when the notification has an id, or the limit of one redelivery keeps the copy from a
      second dispatch, or nobody's row can be written at all. */
  lemma OneRowIff(n: Notification, cfg: Config)
    requires Admissible(n, cfg.env) && IdsRemain(cfg.env)
    requires cfg.broker.batchSize >= 1 && cfg.broker.prefetch >= 1
    ensures (forall s :: Reachable(s, cfg) && OnlyCopy(s, n) ==> OneRowEach(s.db.tables))
            <==> n.id != "" || cfg.broker.maxRedeliver == 1 || !SomeoneServed(n, cfg.env)
  {
    hide Reachable, Admissible, IdsRemain, Job.RecipientsOf, Job.SiteServed, OnlyCopy;
    if n.id != "" || cfg.broker.maxRedeliver == 1 || !SomeoneServed(n, cfg.env) {
      forall s | Reachable(s, cfg) && OnlyCopy(s, n) ensures OneRowEach(s.db.tables) {
        if cfg.broker.maxRedeliver == 1 {
          OnceDispatchedOneRow(s, n, cfg);
        } else {
          RowsOfOnlyCopy(s, n, cfg);
        }
      }
    } else {
      var r :| r in Job.RecipientsOf(n, cfg.env) && Job.SiteServed(r, n, cfg.env);
      var s := TwoRows(n, r, cfg);
    }
  }
}
