/** The whole path from ingest to inbox as one machine: submitters, buffer, publishing
    workers, broker, consumer, dispatch, tables and users, moving in any order. */
module Service {
  import opened Wrappers
  import opened GoErrors
  import opened Domain
  import opened Acknowledge
  import Consumer
  import Buffer
  import Broker
  import opened Inbox
  import opened ExactlyOnce
  import Job
  import opened Rows
  import opened Refinement

  datatype Config = Config(depth: int, workers: int, broker: Broker.Config, env: Job.Env)

  /** What an acknowledged copy's dispatch did: the id it stored the notification under, and
      the provider calls it made. */
  datatype Ack = Ack(id: string, sent: seq<Job.Sent>)

  type Bodies = seq<Option<Notification>>

  /** `job` is the dispatch in progress. The history, which a crash does not end: every
      notification `accepted` from a client, the buffers of `earlier` processes as they were
      at their crash, the `bodies` of the broker's copies by copy number, and the `acks` that
      reached the broker, by copy number. */
  datatype State = State(
    buffer: Buffer.State,
    earlier: seq<Buffer.State>,
    accepted: set<Notification>,
    bodies: Bodies,
    broker: Broker.State,
    job: Option<Job.Job>,
    db: Job.Database,
    acks: map<nat, Ack>)

  function Initial(cfg: Config): State {
    State(Buffer.Initial(cfg.depth, cfg.workers), [], {}, [], Broker.INITIAL, None, Job.NO_DATA, map[])
  }

  datatype Step =
    | Ingest(n: Notification)
    | Work(action: Buffer.Step)
    | PublishGarbage
    | Consume(move: Broker.Step)
    | BeginDispatch
    | Dispatch(task: Job.Step)
    | SettleDispatch
    | CrashProcess
    | UserReads(id: string, recipient: string, now: int)
    | UserDismisses(id: string, recipient: string)

  /** What ingest lets through: valid, normalised, and under a client's id only with that
      id's content. */
  ghost predicate Admissible(n: Notification, env: Job.Env) {
    Normalized(n) == n && Acceptable(n, env.isUUID) && Job.ContentKnown(n, env)
  }

  /** Steps of the queue that involve neither publishing nor a dispatch nor a crash. */
  predicate Plain(step: Broker.Step) {
    !step.Publish? && !step.Begin? && !step.Settle? && !step.Crash?
  }

  ghost predicate Enabled(s: State, step: Step, cfg: Config) {
    match step
    case Ingest(n) => Admissible(n, cfg.env) && Buffer.Enabled(s.buffer, Buffer.Submit(n))
    case Work(b) =>
      && !b.Submit? && Buffer.Enabled(s.buffer, b)
      && (b.TryPublish? ==> b.attempt.routable == s.broker.declared)
    case PublishGarbage => s.broker.declared
    case Consume(q) => Plain(q) && Broker.Enabled(s.broker, q, cfg.broker)
    case BeginDispatch => Broker.Enabled(s.broker, Broker.Begin, cfg.broker)
    case Dispatch(j) => s.job.Some? && Job.Enabled(s.job.value, j, s.db, cfg.env)
    case SettleDispatch =>
      && s.job.Some? && s.job.value.stage.Finished?
      && Broker.Enabled(s.broker, Broker.Settle(Consumer.SettlementAfter(s.job.value.stage.err)), cfg.broker)
    case CrashProcess => true
    case UserReads(_, _, _) => true
    case UserDismisses(_, _) => true
  }

  predicate Busy(q: Broker.State) {
    Broker.AtHead(q) && q.session.phase.busy
  }

  /** The copy being dispatched. */
  function Head(q: Broker.State): Consumer.Copy
    requires Broker.AtHead(q)
  {
    q.session.phase.plan[0].copy
  }

  function Enqueued(s: State, body: Option<Notification>, cfg: Config): State
    requires s.broker.declared
  {
    s.(bodies := s.bodies + [body], broker := Broker.Next(s.broker, Broker.Publish(body), cfg.broker))
  }

  ghost function Next(s: State, step: Step, cfg: Config): State
    requires Enabled(s, step, cfg)
  {
    match step
    case Ingest(n) =>
      var buffer := Buffer.Next(s.buffer, Buffer.Submit(n));
      s.(buffer := buffer, accepted := if buffer == s.buffer then s.accepted else s.accepted + {n})
    case Work(b) =>
      var stored := Buffer.Stores(s.buffer, b);
      (if stored.Some? then Enqueued(s, stored, cfg) else s).(buffer := Buffer.Next(s.buffer, b))
    case PublishGarbage => Enqueued(s, None, cfg)
    case Consume(q) => s.(broker := Broker.Next(s.broker, q, cfg.broker))
    case BeginDispatch =>
      s.(broker := Broker.Next(s.broker, Broker.Begin, cfg.broker),
         job := Some(Job.Started(Head(s.broker).body.value)))
    case Dispatch(j) =>
      var (job, db) := Job.Next(s.job.value, j, s.db, cfg.env);
      s.(job := Some(job), db := db)
    case SettleDispatch =>
      var settlement := Consumer.SettlementAfter(s.job.value.stage.err);
      var broker := Broker.Next(s.broker, Broker.Settle(settlement), cfg.broker);
      s.(broker := broker, job := None,
         acks := if settlement.Ack? && s.broker.session.alive then
                   s.acks[Head(s.broker).cid := Ack(s.job.value.stage.id, s.job.value.sent)]
                 else s.acks)
    case CrashProcess =>
      s.(buffer := Buffer.Initial(cfg.depth, cfg.workers), earlier := s.earlier + [s.buffer], job := None,
         broker := if s.broker.session.Online? then Broker.Next(s.broker, Broker.Crash, cfg.broker) else s.broker)
    case UserReads(id, r, now) => s.(db := Job.Do(s.db, MarkRead(id, r, now)))
    case UserDismisses(id, r) => s.(db := Job.Do(s.db, Dismiss(id, r)))
  }

  ghost predicate Transition(s: State, s': State, cfg: Config) {
    exists step :: Enabled(s, step, cfg) && s' == Next(s, step, cfg)
  }

  /** From the start, each state by some step from the one before. */
  ghost predicate IsRun(run: seq<State>, cfg: Config) {
    && (run != [] ==> run[0] == Initial(cfg))
    && forall i :: 0 <= i < |run| - 1 ==> Transition(run[i], run[i + 1], cfg)
  }

  ghost predicate Reachable(s: State, cfg: Config) {
    exists run: seq<State> :: run != [] && IsRun(run, cfg) && run[|run| - 1] == s
  }

  // ----- invariants -----

  /** What was accepted is admissible, and whatever is underway was accepted. */
  ghost predicate AcceptedInv(s: State, env: Job.Env) {
    && (forall n <- s.accepted :: Admissible(n, env))
    && (forall b <- s.bodies :: b.Some? ==> b.value in s.accepted)
  }

  ghost predicate BufferOrigin(buffer: Buffer.State, accepted: set<Notification>) {
    && (forall n <- buffer.queue :: n in accepted)
    && (forall w <- buffer.workers :: w.Publishing? ==> w.n in accepted)
  }

  ghost predicate BuffersInv(s: State) {
    Buffer.Inv(s.buffer) && forall b <- s.earlier :: Buffer.Inv(b)
  }

  /** The copies of a notification, by number. */
  function CopiesOf(bodies: Bodies, n: Notification): set<nat> {
    set cid: nat | cid < |bodies| && bodies[cid] == Some(n)
  }

  function MadeBy(buffers: seq<Buffer.State>, n: Notification): nat
    decreases |buffers|
  {
    if buffers == [] then 0
    else MadeBy(buffers[..|buffers| - 1], n) + Buffer.CopiesMade(buffers[|buffers| - 1], n)
  }

  predicate CountedFor(s: State, n: Notification) {
    |CopiesOf(s.bodies, n)| == MadeBy(s.earlier, n) + Buffer.CopiesMade(s.buffer, n)
  }

  /** The copies of each notification are those that the workers account for, and there are
      none before the queue exists. */
  ghost predicate CopiesInv(s: State) {
    && (forall n :: CountedFor(s, n))
    && (!s.broker.declared ==> s.bodies == [])
  }

  /** The notifications that the broker's copies carry. */
  function Carried(bodies: Bodies): set<Notification> {
    set b <- bodies | b.Some? :: b.value
  }

  predicate Genuine(c: Consumer.Copy, bodies: Bodies) {
    c.cid < |bodies| && bodies[c.cid] == c.body
  }

  /** Every copy still carries what was published under its number. */
  ghost predicate QueueOrigin(q: Broker.State, bodies: Bodies) {
    && |bodies| == q.published
    && (forall cid <- q.ready :: Genuine(q.ready[cid], bodies))
    && (forall cid <- q.unacked :: Genuine(q.unacked[cid].copy, bodies))
    && (forall d <- Broker.Holding(q) :: Genuine(d.copy, bodies))
    && (forall cid <- q.dead :: cid < |bodies| && bodies[cid] == q.dead[cid].body)
  }

  /** A job exists exactly while the consumer is busy with the head of its plan. */
  ghost predicate JobAtHead(q: Broker.State, job: Option<Job.Job>) {
    && (job.Some? <==> Busy(q))
    && (job.Some? ==> Head(q).body == Some(job.value.n))
  }

  /** No acknowledged dispatch used the id, and no client has chosen it. */
  ghost predicate NewId(id: string, acks: map<nat, Ack>, env: Job.Env) {
    env.contents(id).None? && forall cid <- acks :: acks[cid].id != id
  }

  /** A dispatch of a notification without an id stores it under a new one. */
  ghost predicate FreshId(job: Job.Job, acks: map<nat, Ack>, env: Job.Env) {
    Normalized(job.n).id == "" ==>
      match job.stage
      case Begun => true
      case Validated => true
      case Stored(id) => NewId(id, acks, env)
      case Sending(id, _, _) => NewId(id, acks, env)
      case Finished(id, err) => Acknowledged(err) ==> NewId(id, acks, env)
  }

  ghost predicate TaskInv(job: Job.Job, db: Job.Database, acks: map<nat, Ack>, env: Job.Env) {
    && Job.JobInv(job, db, env) && HoldsContent(job, db.tables)
    && SentInv(job, env) && FreshId(job, acks, env)
  }

  ghost predicate WorkInv(s: State, env: Job.Env) {
    && Job.DatabaseInv(s.db, env)
    && RowsJustified(s.db.tables, Carried(s.bodies), env)
    && (s.job.Some? ==> TaskInv(s.job.value, s.db, s.acks, env))
  }

  /** The notification is stored under the id, the client's own if there was one, and is in
      the inbox of everyone it is due to. */
  ghost predicate DeliveredAs(id: string, n: Notification, db: Job.Database, env: Job.Env) {
    && (if n.id != "" then id == n.id else env.contents(id).None?)
    && Shows(db.tables, id, n) && Job.InboxComplete(id, n, db, env)
  }

  /** The notification could be stored, every send due was made, and none failed but for
      permanent web push failures. */
  ghost predicate SentAll(sent: seq<Job.Sent>, n: Notification, env: Job.Env) {
    Storable(ContentOf(n)) && Job.CallsIn(sent) == DueCalls(n, env) && AllClean(sent, n, env)
  }

  ghost predicate AckHolds(cid: nat, a: Ack, bodies: Bodies, db: Job.Database, env: Job.Env) {
    && cid < |bodies| && bodies[cid].Some?
    && DeliveredAs(a.id, bodies[cid].value, db, env)
    && SentAll(a.sent, bodies[cid].value, env)
  }

  predicate WithoutId(cid: nat, bodies: Bodies) {
    cid < |bodies| && bodies[cid].Some? && bodies[cid].value.id == ""
  }

  /** Copies of notifications without an id do not share a stored notification with any
      other copy. */
  ghost predicate OwnIds(acks: map<nat, Ack>, bodies: Bodies) {
    forall c <- acks, c' <- acks :: c != c' && WithoutId(c, bodies) ==> acks[c].id != acks[c'].id
  }

  ghost predicate AcksInv(s: State, env: Job.Env) {
    && s.acks.Keys == s.broker.acked
    && (forall cid <- s.acks :: AckHolds(cid, s.acks[cid], s.bodies, s.db, env))
    && OwnIds(s.acks, s.bodies)
  }

  ghost predicate Core(s: State, cfg: Config) {
    && AcceptedInv(s, cfg.env)
    && BufferOrigin(s.buffer, s.accepted)
    && BuffersInv(s)
    && Broker.Inv(s.broker, cfg.broker)
    && QueueOrigin(s.broker, s.bodies)
    && JobAtHead(s.broker, s.job)
    && WorkInv(s, cfg.env)
    && AcksInv(s, cfg.env)
  }

  /** A dispatch that may still store its notification. */
  function Storing(job: Option<Job.Job>): nat {
    if job.Some? && (job.value.stage.Begun? || job.value.stage.Validated?) then 1 else 0
  }

  /** Each dispatch stores at most one notification. */
  predicate StoredInv(s: State) {
    |s.db.tables.notifications| + Storing(s.job) <= |s.broker.dispatched|
  }

  ghost predicate Inv(s: State, cfg: Config) {
    Core(s, cfg) && CopiesInv(s) && StoredInv(s)
  }

  // ----- where things come from -----

  lemma BufferStepOrigin(b: Buffer.State, step: Buffer.Step, accepted: set<Notification>, accepted': set<Notification>)
    requires Buffer.Enabled(b, step) && accepted <= accepted' && BufferOrigin(b, accepted)
    requires step.Submit? && Buffer.Next(b, step) != b ==> step.n in accepted'
    ensures BufferOrigin(Buffer.Next(b, step), accepted')
  {
    hide Buffer.Try;
    if step.TryPublish? {
      assert b.workers[step.w] in b.workers;
    }
  }

  lemma QueueStepOrigin(q: Broker.State, step: Broker.Step, cfg: Broker.Config, bodies: Bodies)
    requires Broker.Enabled(q, step, cfg) && QueueOrigin(q, bodies) && !step.Publish?
    ensures QueueOrigin(Broker.Next(q, step, cfg), bodies)
  {
    hide Consumer.IsPoison, Consumer.SettlingOrder, QueueOrigin, Broker.Attempted, Broker.Requeued;
    var q' := Broker.Next(q, step, cfg);
    match step
    case BatchComplete => BatchOrigin(q, cfg, bodies);
    case SettlePoison => AttemptOrigin(q, Consumer.DeadLetter, bodies);
    case Settle(settlement) => AttemptOrigin(q, settlement, bodies);
    case DeliverCopy(cid) => DeliverOrigin(q, cid, cfg, bodies);
    case GiveUp => RequeueOrigin(q, bodies); FewerHeld(Broker.Requeued(q), q', bodies);
    case Crash => RequeueOrigin(q, bodies); FewerHeld(Broker.Requeued(q), q', bodies);
    case LoseConnection => RequeueOrigin(q, bodies); FewerHeld(Broker.Requeued(q), q', bodies);
    case Declare => FewerHeld(q, q', bodies);
    case Open => FewerHeld(q, q', bodies);
    case Collect => FewerHeld(q, q', bodies);
    case Begin => FewerHeld(q, q', bodies);
    case BatchDone => FewerHeld(q, q', bodies);
  }

  lemma FewerHeld(q: Broker.State, q': Broker.State, bodies: Bodies)
    requires QueueOrigin(q, bodies)
    requires q'.ready == q.ready && q'.unacked == q.unacked && q'.published == q.published && q'.dead == q.dead
    requires forall d <- Broker.Holding(q') :: d in Broker.Holding(q)
    ensures QueueOrigin(q', bodies)
  {
    hide Genuine, Broker.Holding;
  }

  lemma RequeueOrigin(q: Broker.State, bodies: Bodies)
    requires QueueOrigin(q, bodies)
    ensures QueueOrigin(Broker.Requeued(q), bodies)
    ensures Broker.Requeued(q).session == q.session
  {
  }

  lemma DeliverOrigin(q: Broker.State, cid: nat, cfg: Broker.Config, bodies: Bodies)
    requires QueueOrigin(q, bodies) && Broker.Enabled(q, Broker.DeliverCopy(cid), cfg)
    ensures QueueOrigin(Broker.Next(q, Broker.DeliverCopy(cid), cfg), bodies)
  {
    hide Genuine;
    var q' := Broker.Next(q, Broker.DeliverCopy(cid), cfg);
    assert Broker.Holding(q') == Broker.Holding(q) + [Consumer.Delivery(q.nextTag, q.ready[cid])];
  }

  lemma PublishOrigin(q: Broker.State, body: Option<Notification>, cfg: Broker.Config, bodies: Bodies)
    requires QueueOrigin(q, bodies) && q.declared
    ensures QueueOrigin(Broker.Next(q, Broker.Publish(body), cfg), bodies + [body])
  {
  }

  lemma AttemptOrigin(q: Broker.State, settlement: Consumer.Settlement, bodies: Bodies)
    requires Broker.AtHead(q) && QueueOrigin(q, bodies)
    ensures QueueOrigin(Broker.Attempted(q, settlement), bodies)
  {
    Broker.HeadOfHolding(q);
    assert q.session.phase.plan[0] in Broker.Holding(q);
  }

  lemma BatchOrigin(q: Broker.State, cfg: Broker.Config, bodies: Bodies)
    requires Broker.Enabled(q, Broker.BatchComplete, cfg) && QueueOrigin(q, bodies)
    ensures QueueOrigin(Broker.Next(q, Broker.BatchComplete, cfg), bodies)
  {
    hide Consumer.IsPoison, Genuine;
    var batch := q.session.phase.batch;
    Consumer.SelectMembers(batch, cfg.maxRedeliver, true);
    Consumer.SelectMembers(batch, cfg.maxRedeliver, false);
    hide Consumer.Select;
    assert forall d <- batch :: d in Broker.Holding(q);
  }

  lemma HeadIsGenuine(q: Broker.State, bodies: Bodies)
    requires Broker.AtHead(q) && QueueOrigin(q, bodies)
    ensures Genuine(Head(q), bodies)
  {
    Broker.HeadOfHolding(q);
    assert q.session.phase.plan[0] in Broker.Holding(q);
  }

  lemma JobIsAdmissible(s: State, env: Job.Env)
    requires AcceptedInv(s, env) && QueueOrigin(s.broker, s.bodies) && JobAtHead(s.broker, s.job) && s.job.Some?
    ensures var n := s.job.value.n; n in Carried(s.bodies) && Normalized(n) == n && Job.ContentKnown(n, env)
  {
    hide QueueOrigin, Acceptable, Normalized;
    HeadIsGenuine(s.broker, s.bodies);
    assert s.bodies[Head(s.broker).cid] in s.bodies;
  }

  // ----- what a step leaves alone -----

  lemma AcceptedStays(s: State, s': State, env: Job.Env)
    requires AcceptedInv(s, env) && s'.accepted == s.accepted && s'.bodies == s.bodies
    ensures AcceptedInv(s', env)
  {
    hide Admissible;
  }

  lemma WorkStays(s: State, s': State, env: Job.Env)
    requires WorkInv(s, env) && s'.db == s.db && s.bodies <= s'.bodies
    requires s'.job.None? || (s'.job == s.job && s'.acks == s.acks)
    ensures WorkInv(s', env)
  {
    hide Job.DatabaseInv, TaskInv;
    CarriedGrows(s.bodies, s'.bodies);
    SameContents(s.db.tables);
    JustifiedStays(s.db.tables, s.db.tables, Carried(s.bodies), Carried(s'.bodies), env);
    hide Justified, Carried, ContentsStay;
  }

  lemma CarriedGrows(bodies: Bodies, bodies': Bodies)
    requires bodies <= bodies'
    ensures Carried(bodies) <= Carried(bodies')
  {
    assert forall i :: 0 <= i < |bodies| ==> bodies'[i] == bodies[i];
  }

  lemma BuffersStay(s: State, s': State)
    requires BuffersInv(s) && s'.buffer == s.buffer && s'.earlier == s.earlier
    ensures BuffersInv(s')
  {
    hide Buffer.Inv;
  }

  ghost predicate RowsStay(t: Tables, t': Tables) {
    ContentsStay(t, t') && forall k <- t.deliveries :: k in t'.deliveries
  }

  lemma AcksStay(s: State, s': State, env: Job.Env)
    requires AcksInv(s, env)
    requires s'.acks == s.acks && s'.broker.acked == s.broker.acked && s.bodies <= s'.bodies
    requires RowsStay(s.db.tables, s'.db.tables)
    ensures AcksInv(s', env)
  {
    hide Job.SiteDue, Job.RecipientsOf, DueCalls, AllClean, Job.CallsIn;
    forall cid <- s.acks ensures AckHolds(cid, s'.acks[cid], s'.bodies, s'.db, env) {
      assert AckHolds(cid, s.acks[cid], s.bodies, s.db, env);
    }
    assert forall cid <- s.acks :: cid < |s.bodies| && s'.bodies[cid] == s.bodies[cid];
  }

  /** No plain step starts, ends or changes a dispatch, or acknowledges. */
  lemma PlainStays(q: Broker.State, step: Broker.Step, cfg: Broker.Config)
    requires Broker.Enabled(q, step, cfg) && (Plain(step) || step.Publish?)
    ensures
      var q' := Broker.Next(q, step, cfg);
      && (Busy(q') <==> Busy(q))
      && (Busy(q) ==> Head(q') == Head(q))
      && q'.acked == q.acked
  {
    hide Consumer.IsPoison, Consumer.SettlingOrder;
  }

  // ----- each kind of step -----

  lemma ClientStep(s: State, n: Notification, cfg: Config)
    requires Core(s, cfg) && Enabled(s, Ingest(n), cfg)
    ensures Core(Next(s, Ingest(n), cfg), cfg)
  {
    Buffer.StepKeepsInv(s.buffer, Buffer.Submit(n));
    SubmittedOnly(s, n, cfg);
    hide Enabled, Next, Broker.Inv, QueueOrigin, BufferOrigin, JobAtHead, WorkInv, AcksInv, Admissible, Buffer.Inv,
         Buffer.Next, Buffer.Enabled;
    var s' := Next(s, Ingest(n), cfg);
    BufferStepOrigin(s.buffer, Buffer.Submit(n), s.accepted, s'.accepted);
    WorkStays(s, s', cfg.env);
    SameRows(s.db.tables);
    AcksStay(s, s', cfg.env);
  }

  lemma SubmittedOnly(s: State, n: Notification, cfg: Config)
    requires Enabled(s, Ingest(n), cfg)
    ensures Admissible(n, cfg.env) && Buffer.Enabled(s.buffer, Buffer.Submit(n))
    ensures
      var s', buffer' := Next(s, Ingest(n), cfg), Buffer.Next(s.buffer, Buffer.Submit(n));
      s' == s.(buffer := buffer', accepted := if buffer' == s.buffer then s.accepted else s.accepted + {n})
  {
    hide Admissible, Buffer.Enabled, Buffer.Next;
  }

  lemma SameRows(t: Tables)
    ensures RowsStay(t, t)
  {
  }

  lemma PublishStep(s: State, body: Option<Notification>, cfg: Config)
    requires Core(s, cfg) && s.broker.declared && (body.Some? ==> body.value in s.accepted)
    ensures Core(Enqueued(s, body, cfg), cfg)
  {
    hide Broker.Inv, QueueOrigin, BufferOrigin, BuffersInv, WorkInv, AcksInv, Admissible;
    var s' := Enqueued(s, body, cfg);
    Broker.StepKeepsInv(s.broker, Broker.Publish(body), cfg.broker);
    PublishOrigin(s.broker, body, cfg.broker, s.bodies);
    PlainStays(s.broker, Broker.Publish(body), cfg.broker);
    BuffersStay(s, s');
    WorkStays(s, s', cfg.env);
    SameRows(s.db.tables);
    AcksStay(s, s', cfg.env);
  }

  lemma WorkStep(s: State, b: Buffer.Step, cfg: Config)
    requires Core(s, cfg) && Enabled(s, Work(b), cfg)
    ensures Core(Next(s, Work(b), cfg), cfg)
  {
    hide Broker.Inv, QueueOrigin, JobAtHead, WorkInv, AcksInv, Admissible, Enqueued, BufferOrigin, Buffer.Inv;
    StoredWasAccepted(s.buffer, b, s.accepted);
    StoredIsRoutable(s.buffer, b);
    BufferStepOrigin(s.buffer, b, s.accepted, s.accepted);
    Buffer.StepKeepsInv(s.buffer, b);
    hide Buffer.Stores, Buffer.Next, Buffer.Enabled;
    var stored := Buffer.Stores(s.buffer, b);
    var mid := s;
    if stored.Some? {
      PublishStep(s, stored, cfg);
      EnqueuedOnly(s, stored, cfg);
      mid := Enqueued(s, stored, cfg);
    }
    OtherBuffer(mid, Buffer.Next(s.buffer, b), cfg);
  }

  lemma EnqueuedOnly(s: State, body: Option<Notification>, cfg: Config)
    requires s.broker.declared
    ensures var s' := Enqueued(s, body, cfg); s'.accepted == s.accepted && s'.buffer == s.buffer
  {
  }

  lemma StoredIsRoutable(buffer: Buffer.State, b: Buffer.Step)
    requires Buffer.Enabled(buffer, b)
    ensures Buffer.Stores(buffer, b).Some? ==> b.TryPublish? && b.attempt.routable
  {
  }

  lemma OtherBuffer(s: State, buffer: Buffer.State, cfg: Config)
    requires Core(s, cfg) && BufferOrigin(buffer, s.accepted) && Buffer.Inv(buffer)
    ensures Core(s.(buffer := buffer), cfg)
  {
    hide Broker.Inv, QueueOrigin, BufferOrigin, JobAtHead, WorkInv, AcksInv, Admissible, Buffer.Inv;
    var s' := s.(buffer := buffer);
    WorkStays(s, s', cfg.env);
    SameRows(s.db.tables);
    AcksStay(s, s', cfg.env);
  }

  lemma StoredWasAccepted(buffer: Buffer.State, b: Buffer.Step, accepted: set<Notification>)
    requires BufferOrigin(buffer, accepted)
    ensures Buffer.Stores(buffer, b).Some? ==> Buffer.Stores(buffer, b).value in accepted
  {
    if Buffer.Stores(buffer, b).Some? {
      assert buffer.workers[b.w] in buffer.workers;
    }
  }

  lemma ConsumeStep(s: State, q: Broker.Step, cfg: Config)
    requires Core(s, cfg) && Enabled(s, Consume(q), cfg)
    ensures Core(Next(s, Consume(q), cfg), cfg)
  {
    hide Broker.Inv, Broker.Next, Broker.Enabled, QueueOrigin, BufferOrigin, BuffersInv, WorkInv, AcksInv, AcceptedInv,
         Busy, Head;
    var s' := Next(s, Consume(q), cfg);
    Broker.StepKeepsInv(s.broker, q, cfg.broker);
    QueueStepOrigin(s.broker, q, cfg.broker, s.bodies);
    PlainStays(s.broker, q, cfg.broker);
    BuffersStay(s, s');
    AcceptedStays(s, s', cfg.env);
    WorkStays(s, s', cfg.env);
    SameRows(s.db.tables);
    AcksStay(s, s', cfg.env);
  }

  lemma BeginStep(s: State, cfg: Config)
    requires Core(s, cfg) && Enabled(s, BeginDispatch, cfg)
    ensures Core(Next(s, BeginDispatch, cfg), cfg)
  {
    hide Broker.Inv, QueueOrigin, BufferOrigin, BuffersInv, AcksInv, AcceptedInv, Job.DatabaseInv, RowsJustified;
    var s' := Next(s, BeginDispatch, cfg);
    Broker.StepKeepsInv(s.broker, Broker.Begin, cfg.broker);
    QueueStepOrigin(s.broker, Broker.Begin, cfg.broker, s.bodies);
    BuffersStay(s, s');
    AcceptedStays(s, s', cfg.env);
    SameRows(s.db.tables);
    AcksStay(s, s', cfg.env);
  }

  lemma DispatchStep(s: State, j: Job.Step, cfg: Config)
    requires Core(s, cfg) && Enabled(s, Dispatch(j), cfg)
    ensures Core(Next(s, Dispatch(j), cfg), cfg)
  {
    hide Broker.Inv, QueueOrigin, BufferOrigin, BuffersInv, AcksInv, AcceptedInv, Job.DatabaseInv, Job.JobInv,
         HoldsContent, SentInv, FreshId, RowsJustified, Job.ContentKnown, Normalized, Busy, Head, RowsStay,
         ContentsStay;
    var s' := Next(s, Dispatch(j), cfg);
    JobIsAdmissible(s, cfg.env);
    Job.StepKeepsJob(s.job.value, j, s.db, cfg.env);
    StepKeepsRows(s.job.value, j, s.db, Carried(s.bodies), cfg.env);
    StepKeepsSent(s.job.value, j, s.db, cfg.env);
    StepKeepsFresh(s, j, cfg);
    JobKeepsRows(s.job.value, j, s.db, cfg.env);
    Job.SameNotification(s.job.value, j, s.db, cfg.env);
    BuffersStay(s, s');
    AcceptedStays(s, s', cfg.env);
    AcksStay(s, s', cfg.env);
  }

  lemma StepKeepsFresh(s: State, j: Job.Step, cfg: Config)
    requires AcksInv(s, cfg.env) && s.job.Some? && Job.Enabled(s.job.value, j, s.db, cfg.env)
    requires FreshId(s.job.value, s.acks, cfg.env)
    ensures FreshId(Job.Next(s.job.value, j, s.db, cfg.env).0, s.acks, cfg.env)
  {
    hide Normalized, Violation, Job.CallsFor, Job.InboxComplete, SentAll, OwnIds, Acknowledged;
    if !j.Finish? {
      EndedEarly(s.job.value, j, s.db, cfg.env);
    } else {
      AcknowledgedFinish(s.job.value, s.db, cfg.env);
    }
    if j.Persist? && j.stored && Normalized(s.job.value.n).id == "" {
      forall cid <- s.acks ensures s.acks[cid].id != j.id {
        assert AckHolds(cid, s.acks[cid], s.bodies, s.db, cfg.env);
      }
    }
  }

  lemma AcknowledgedFinish(job: Job.Job, db: Job.Database, env: Job.Env)
    requires Job.Enabled(job, Job.Finish, db, env)
    ensures Job.Next(job, Job.Finish, db, env).0.stage == Job.Finished(job.stage.id, job.stage.err)
  {
  }

  lemma JobKeepsRows(job: Job.Job, step: Job.Step, db: Job.Database, env: Job.Env)
    requires Job.Enabled(job, step, db, env)
    requires ContentsStay(db.tables, Job.Next(job, step, db, env).1.tables)
    ensures RowsStay(db.tables, Job.Next(job, step, db, env).1.tables)
  {
    hide Normalized, Violation, Job.CallsFor, ContentsStay;
  }

  lemma SettleStep(s: State, cfg: Config)
    requires Core(s, cfg) && Enabled(s, SettleDispatch, cfg)
    ensures Core(Next(s, SettleDispatch, cfg), cfg)
  {
    hide Broker.Inv, Broker.Next, Broker.Enabled, QueueOrigin, BufferOrigin, BuffersInv, JobAtHead, AcksInv,
         AcceptedInv, WorkInv, Acknowledged;
    var s' := Next(s, SettleDispatch, cfg);
    var q := Broker.Settle(Consumer.SettlementAfter(s.job.value.stage.err));
    Broker.StepKeepsInv(s.broker, q, cfg.broker);
    QueueStepOrigin(s.broker, q, cfg.broker, s.bodies);
    SettleFreesHead(s, cfg);
    SettleAcks(s, cfg);
    BuffersStay(s, s');
    AcceptedStays(s, s', cfg.env);
    WorkStays(s, s', cfg.env);
  }

  lemma SettleFreesHead(s: State, cfg: Config)
    requires Enabled(s, SettleDispatch, cfg)
    ensures JobAtHead(Next(s, SettleDispatch, cfg).broker, None)
  {
    hide Acknowledged;
  }

  /** While the connection lives, the end of a dispatch moves its copy out of the consumer's
      hands: acknowledged or else back into the queue, marked. On a lost connection nothing is
      settled. */
  predicate SettledAs(q: Broker.State, q': Broker.State, ack: bool)
    requires Broker.AtHead(q)
  {
    var c := Head(q);
    if q.session.alive then
      && c.cid in q.unacked && c.cid !in q.acked && c.cid !in q.ready
      && q'.unacked == q.unacked - {c.cid}
      && q'.acked == (if ack then q.acked + {c.cid} else q.acked)
      && q'.ready == (if ack then q.ready else q.ready[c.cid := c.(redelivered := true)])
    else
      q'.acked == q.acked && q'.ready == q.ready && q'.unacked == q.unacked
  }

  lemma SettlesHead(s: State, cfg: Config)
    requires Broker.Inv(s.broker, cfg.broker) && Enabled(s, SettleDispatch, cfg)
    ensures SettledAs(s.broker, Next(s, SettleDispatch, cfg).broker, Acknowledged(s.job.value.stage.err))
  {
    hide Acknowledged, Broker.AttemptsInv, Broker.FirstTimeInv, Broker.DeadInv;
    Broker.HeadOfHolding(s.broker);
    assert s.broker.session.phase.plan[0] in Broker.Holding(s.broker);
    assert Broker.Places(s.broker, Head(s.broker).cid) == if Head(s.broker).cid < s.broker.published then 1 else 0;
  }

  lemma SettleAcks(s: State, cfg: Config)
    requires Core(s, cfg) && Enabled(s, SettleDispatch, cfg)
    ensures AcksInv(Next(s, SettleDispatch, cfg), cfg.env)
  {
    hide Normalized, QueueOrigin, AcceptedInv, BufferOrigin, BuffersInv, Broker.Inv, Job.DatabaseInv, Job.InboxComplete,
         RowsJustified, AcksInv, Acknowledged, NewId, DueCalls, AllClean, Job.CallsIn;
    JobIsAdmissible(s, cfg.env);
    HeadIsGenuine(s.broker, s.bodies);
    SettlesHead(s, cfg);
    var s' := Next(s, SettleDispatch, cfg);
    var err := s.job.value.stage.err;
    if Consumer.SettlementAfter(err).Ack? && s.broker.session.alive {
      var a := Ack(s.job.value.stage.id, s.job.value.sent);
      var cid := Head(s.broker).cid;
      AcknowledgedFacts(s, cfg);
      AckRecorded(s, s', cid, a, cfg.env);
    } else {
      SameRows(s.db.tables);
      AcksStay(s, s', cfg.env);
    }
  }

  lemma AcknowledgedFacts(s: State, cfg: Config)
    requires s.job.Some? && s.job.value.stage.Finished? && Acknowledged(s.job.value.stage.err)
    requires TaskInv(s.job.value, s.db, s.acks, cfg.env) && Broker.AtHead(s.broker)
    requires Normalized(s.job.value.n) == s.job.value.n && Job.ContentKnown(s.job.value.n, cfg.env)
    requires Genuine(Head(s.broker), s.bodies) && Head(s.broker).body == Some(s.job.value.n)
    ensures
      var a := Ack(s.job.value.stage.id, s.job.value.sent);
      && AckHolds(Head(s.broker).cid, a, s.bodies, s.db, cfg.env)
      && (s.job.value.n.id == "" ==> NewId(a.id, s.acks, cfg.env))
  {
    hide Normalized, Job.InboxComplete, Acknowledged, DueCalls, AllClean, Job.CallsIn;
  }

  lemma AckRecorded(s: State, s': State, cid: nat, a: Ack, env: Job.Env)
    requires AcksInv(s, env) && AckHolds(cid, a, s.bodies, s.db, env)
    requires WithoutId(cid, s.bodies) ==> NewId(a.id, s.acks, env)
    requires !WithoutId(cid, s.bodies) ==> env.contents(a.id).Some?
    requires s'.acks == s.acks[cid := a] && s'.bodies == s.bodies && s'.db == s.db
    requires s'.broker.acked == s.broker.acked + {cid}
    ensures AcksInv(s', env)
  {
    hide Job.InboxComplete, SentAll;
    forall c <- s'.acks, c' <- s'.acks | c != c' && WithoutId(c, s.bodies) ensures s'.acks[c].id != s'.acks[c'].id {
      if c' == cid {
        assert AckHolds(c, s.acks[c], s.bodies, s.db, env);
      }
    }
  }

  lemma CrashStep(s: State, cfg: Config)
    requires Core(s, cfg) && Enabled(s, CrashProcess, cfg)
    ensures Core(Next(s, CrashProcess, cfg), cfg)
  {
    Buffer.InitialInv(cfg.depth, cfg.workers);
    hide Broker.Inv, QueueOrigin, AcksInv, AcceptedInv, WorkInv, Buffer.Inv;
    var s' := Next(s, CrashProcess, cfg);
    if s.broker.session.Online? {
      Broker.StepKeepsInv(s.broker, Broker.Crash, cfg.broker);
      QueueStepOrigin(s.broker, Broker.Crash, cfg.broker, s.bodies);
    }
    AcceptedStays(s, s', cfg.env);
    WorkStays(s, s', cfg.env);
    SameRows(s.db.tables);
    AcksStay(s, s', cfg.env);
  }

  lemma UserStep(s: State, a: Action, cfg: Config)
    requires Core(s, cfg) && (a.MarkRead? || a.Dismiss?)
    ensures Core(s.(db := Job.Do(s.db, a)), cfg)
  {
    hide Broker.Inv, QueueOrigin, BufferOrigin, BuffersInv, JobAtHead, AcksInv, AcceptedInv, Job.DatabaseInv,
         Job.JobInv, HoldsContent, SentInv, FreshId, RowsJustified, Job.Do, ContentsStay;
    var s' := s.(db := Job.Do(s.db, a));
    assert Job.Fits(a, s.db, cfg.env);
    Job.DoKeepsDatabase(s.db, a, cfg.env);
    DoKeepsRows(s.db, a, Carried(s.bodies), cfg.env);
    DoKeepsContents(s.db, a, cfg.env);
    if s.job.Some? {
      Job.JobStays(s.job.value, s.db, s'.db, cfg.env);
      HoldsContentStays(s.job.value, s.db.tables, s'.db.tables);
    }
    BuffersStay(s, s');
    AcceptedStays(s, s', cfg.env);
    AcksStay(s, s', cfg.env);
  }

  lemma StepKeepsCore(s: State, step: Step, cfg: Config)
    requires Core(s, cfg) && Enabled(s, step, cfg)
    ensures Core(Next(s, step, cfg), cfg)
  {
    hide Core;
    match step
    case Ingest(n) => ClientStep(s, n, cfg);
    case Work(b) => WorkStep(s, b, cfg);
    case PublishGarbage => PublishStep(s, None, cfg);
    case Consume(q) => ConsumeStep(s, q, cfg);
    case BeginDispatch => BeginStep(s, cfg);
    case Dispatch(j) => DispatchStep(s, j, cfg);
    case SettleDispatch => SettleStep(s, cfg);
    case CrashProcess => CrashStep(s, cfg);
    case UserReads(id, r, now) => UserStep(s, MarkRead(id, r, now), cfg);
    case UserDismisses(id, r) => UserStep(s, Dismiss(id, r), cfg);
  }

  // ----- the copies of each notification -----

  lemma CopiesAppended(bodies: Bodies, body: Option<Notification>, n: Notification)
    ensures |CopiesOf(bodies + [body], n)| == |CopiesOf(bodies, n)| + Buffer.One(body == Some(n))
  {
    var before, after := CopiesOf(bodies, n), CopiesOf(bodies + [body], n);
    assert |bodies| !in before;
    assert after == if body == Some(n) then before + {|bodies|} else before;
  }

  lemma BufferStepCounted(s: State, step: Buffer.Step, n: Notification)
    requires CountedFor(s, n) && Buffer.Enabled(s.buffer, step)
    ensures
      var stored := Buffer.Stores(s.buffer, step);
      var bodies := if stored.Some? then s.bodies + [stored] else s.bodies;
      CountedFor(s.(buffer := Buffer.Next(s.buffer, step), bodies := bodies), n)
  {
    hide CopiesOf, Buffer.CopiesMade, MadeBy;
    Buffer.StepMakesCopies(s.buffer, step, n);
    CopiesAppended(s.bodies, Buffer.Stores(s.buffer, step), n);
  }

  lemma SameCounts(s: State, s': State, n: Notification)
    requires CountedFor(s, n) && s'.buffer == s.buffer && s'.earlier == s.earlier && s'.bodies == s.bodies
    ensures CountedFor(s', n)
  {
  }

  lemma CrashCounted(s: State, s': State, cfg: Config, n: Notification)
    requires CountedFor(s, n) && s'.bodies == s.bodies
    requires s'.buffer == Buffer.Initial(cfg.depth, cfg.workers) && s'.earlier == s.earlier + [s.buffer]
    ensures CountedFor(s', n)
  {
    hide CopiesOf, Buffer.CopiesMade;
    Buffer.InitialMadeNone(cfg.depth, cfg.workers, n);
    assert (s.earlier + [s.buffer])[..|s.earlier|] == s.earlier;
  }

  lemma StepCounted(s: State, step: Step, cfg: Config, n: Notification)
    requires CountedFor(s, n) && Enabled(s, step, cfg)
    ensures CountedFor(Next(s, step, cfg), n)
  {
    hide CountedFor, Admissible, Job.Next, Job.Enabled, Broker.Next, Buffer.Next, Buffer.Enabled;
    var s' := Next(s, step, cfg);
    match step
    case Ingest(m) =>
      BufferStepCounted(s, Buffer.Submit(m), n);
      SameCounts(s.(buffer := s'.buffer), s', n);
    case Work(b) =>
      BufferStepCounted(s, b, n);
      SameCounts(s.(buffer := s'.buffer, bodies := s'.bodies), s', n);
    case PublishGarbage => GarbageCounted(s, s', n);
    case CrashProcess => CrashCounted(s, s', cfg, n);
    case _ => SameCounts(s, s', n);
  }

  lemma GarbageCounted(s: State, s': State, n: Notification)
    requires CountedFor(s, n) && s'.buffer == s.buffer && s'.earlier == s.earlier && s'.bodies == s.bodies + [None]
    ensures CountedFor(s', n)
  {
    hide CopiesOf;
    CopiesAppended(s.bodies, None, n);
  }

  lemma StaysDeclared(q: Broker.State, step: Broker.Step, cfg: Broker.Config)
    requires Broker.Enabled(q, step, cfg)
    ensures q.declared ==> Broker.Next(q, step, cfg).declared
  {
    hide Consumer.IsPoison, Consumer.SettlingOrder;
  }

  lemma StepKeepsDeclared(s: State, step: Step, cfg: Config)
    requires Enabled(s, step, cfg) && (!s.broker.declared ==> s.bodies == [])
    ensures var s' := Next(s, step, cfg); !s'.broker.declared ==> s'.bodies == []
  {
    hide Admissible, Job.Next, Job.Enabled, Broker.Next, Broker.Enabled, Buffer.Next, Consumer.SettlementAfter;
    match step
    case Work(b) =>
      StoredIsRoutable(s.buffer, b);
      if s.broker.declared {
        StillDeclared(s.broker, Broker.Publish(Buffer.Stores(s.buffer, b)), cfg.broker);
      }
    case PublishGarbage => StillDeclared(s.broker, Broker.Publish(None), cfg.broker);
    case Consume(q) => StaysDeclared(s.broker, q, cfg.broker);
    case BeginDispatch => StaysDeclared(s.broker, Broker.Begin, cfg.broker);
    case SettleDispatch =>
      StaysDeclared(s.broker, Broker.Settle(Consumer.SettlementAfter(s.job.value.stage.err)), cfg.broker);
    case CrashProcess =>
      if s.broker.session.Online? {
        CrashEnabled(s.broker, cfg.broker);
        StaysDeclared(s.broker, Broker.Crash, cfg.broker);
      }
    case _ =>
  }

  lemma CrashEnabled(q: Broker.State, cfg: Broker.Config)
    requires q.session.Online?
    ensures Broker.Enabled(q, Broker.Crash, cfg)
  {
  }

  lemma StillDeclared(q: Broker.State, step: Broker.Step, cfg: Broker.Config)
    requires q.declared && step.Publish?
    ensures Broker.Enabled(q, step, cfg) && Broker.Next(q, step, cfg).declared
  {
  }

  // ----- one notification stored per dispatch -----

  lemma JobStoresOne(job: Job.Job, j: Job.Step, db: Job.Database, env: Job.Env)
    requires Job.Enabled(job, j, db, env)
    ensures
      var (job', db') := Job.Next(job, j, db, env);
      |db'.tables.notifications| + Storing(Some(job')) <= |db.tables.notifications| + Storing(Some(job))
  {
    hide Normalized, Violation, Job.CallsFor, Job.Refused, Job.SendOutcome, PermanentPush, StorageError, Storable,
         Job.RecipientsOf;
    var db' := Job.Next(job, j, db, env).1;
    if j.Persist? && j.stored {
      assert db'.tables.notifications.Keys == db.tables.notifications.Keys + {j.id};
      KeysCount(db.tables.notifications, db'.tables.notifications, j.id);
    }
  }

  lemma KeysCount(rows: map<string, NotificationRow>, rows': map<string, NotificationRow>, id: string)
    requires rows'.Keys == rows.Keys + {id}
    ensures |rows'| <= |rows| + 1
  {
    assert |rows'.Keys| == |rows'| && |rows.Keys| == |rows|;
    if id in rows {
      assert rows'.Keys == rows.Keys;
    }
  }

  /** Only the beginning of a dispatch is recorded as one. */
  lemma DispatchedStays(q: Broker.State, step: Broker.Step, cfg: Broker.Config)
    requires Broker.Enabled(q, step, cfg)
    ensures
      |Broker.Next(q, step, cfg).dispatched| == |q.dispatched| + (if step.Begin? then 1 else 0)
  {
    hide Consumer.IsPoison, Consumer.SettlingOrder;
  }

  lemma StepKeepsStored(s: State, step: Step, cfg: Config)
    requires JobAtHead(s.broker, s.job) && StoredInv(s) && Enabled(s, step, cfg)
    ensures StoredInv(Next(s, step, cfg))
  {
    BeginsIdle(s.broker, cfg.broker);
    hide Admissible, Job.Next, Job.Enabled, Broker.Next, Broker.Enabled, Buffer.Next, Buffer.Enabled,
         Consumer.SettlementAfter;
    match step
    case Work(b) =>
      StoredIsRoutable(s.buffer, b);
      if Buffer.Stores(s.buffer, b).Some? {
        StillDeclared(s.broker, Broker.Publish(Buffer.Stores(s.buffer, b)), cfg.broker);
        DispatchedStays(s.broker, Broker.Publish(Buffer.Stores(s.buffer, b)), cfg.broker);
      }
    case PublishGarbage =>
      StillDeclared(s.broker, Broker.Publish(None), cfg.broker);
      DispatchedStays(s.broker, Broker.Publish(None), cfg.broker);
    case Consume(q) => DispatchedStays(s.broker, q, cfg.broker);
    case BeginDispatch => DispatchedStays(s.broker, Broker.Begin, cfg.broker);
    case Dispatch(j) => JobStoresOne(s.job.value, j, s.db, cfg.env);
    case SettleDispatch =>
      DispatchedStays(s.broker, Broker.Settle(Consumer.SettlementAfter(s.job.value.stage.err)), cfg.broker);
    case CrashProcess =>
      if s.broker.session.Online? {
        CrashEnabled(s.broker, cfg.broker);
        DispatchedStays(s.broker, Broker.Crash, cfg.broker);
      }
    case _ =>
  }

  lemma BeginsIdle(q: Broker.State, cfg: Broker.Config)
    ensures Broker.Enabled(q, Broker.Begin, cfg) ==> !Busy(q)
  {
    hide Consumer.IsPoison;
  }

  lemma StepKeepsInv(s: State, step: Step, cfg: Config)
    requires Inv(s, cfg) && Enabled(s, step, cfg)
    ensures Inv(Next(s, step, cfg), cfg)
  {
    assert JobAtHead(s.broker, s.job);
    hide Core, Enabled, Next, CountedFor, JobAtHead, StoredInv;
    StepKeepsCore(s, step, cfg);
    StepKeepsStored(s, step, cfg);
    StepKeepsDeclared(s, step, cfg);
    forall n ensures CountedFor(Next(s, step, cfg), n) {
      StepCounted(s, step, cfg, n);
    }
  }

  // ----- every run -----

  lemma InitialInv(cfg: Config)
    ensures Inv(Initial(cfg), cfg)
  {
    Buffer.InitialInv(cfg.depth, cfg.workers);
    forall n ensures CountedFor(Initial(cfg), n) {
      Buffer.InitialMadeNone(cfg.depth, cfg.workers, n);
    }
    hide Broker.Inv, Buffer.Inv, CountedFor;
    Broker.InitialInv(cfg.broker);
  }

  lemma {:induction false} RunKeepsInv(run: seq<State>, cfg: Config)
    requires run != [] && IsRun(run, cfg)
    ensures Inv(run[|run| - 1], cfg)
    decreases |run|
  {
    hide Inv, Enabled, Next, Transition, Initial;
    if |run| == 1 {
      InitialInv(cfg);
    } else {
      RunKeepsInv(run[..|run| - 1], cfg);
      assert Transition(run[|run| - 2], run[|run| - 2 + 1], cfg);
      TransitionKeepsInv(run[|run| - 2], run[|run| - 1], cfg);
    }
  }

  lemma TransitionKeepsInv(s: State, s': State, cfg: Config)
    requires Inv(s, cfg) && Transition(s, s', cfg)
    ensures Inv(s', cfg)
  {
    hide Inv, Enabled, Next;
    var step :| Enabled(s, step, cfg) && s' == Next(s, step, cfg);
    StepKeepsInv(s, step, cfg);
  }

  /** Every state that the service can reach. */
  lemma ReachableInv(s: State, cfg: Config)
    requires Reachable(s, cfg)
    ensures Inv(s, cfg)
  {
    hide Inv, IsRun;
    var run: seq<State> :| run != [] && IsRun(run, cfg) && run[|run| - 1] == s;
    RunKeepsInv(run, cfg);
  }

  /** A copy that was acknowledged, whatever crashes, lost connections, repeats and failures
      came before and after, held an accepted notification, and everyone due it has it in
      the inbox. Copies of notifications without an id are each delivered on their own. */
  lemma AcknowledgedIsInTheInbox(s: State, cfg: Config)
    requires Reachable(s, cfg)
    ensures s.acks.Keys == s.broker.acked
    ensures forall cid <- s.acks ::
        && cid < |s.bodies| && s.bodies[cid].Some?
        && s.bodies[cid].value in s.accepted
        && DeliveredAs(s.acks[cid].id, s.bodies[cid].value, s.db, cfg.env)
    ensures OwnIds(s.acks, s.bodies)
  {
    hide DeliveredAs, SentAll, Reachable, Broker.Inv, BuffersInv, CopiesInv, WorkInv, QueueOrigin, BufferOrigin, OwnIds;
    ReachableInv(s, cfg);
    forall cid <- s.acks
      ensures cid < |s.bodies| && s.bodies[cid].Some? && s.bodies[cid].value in s.accepted
      ensures DeliveredAs(s.acks[cid].id, s.bodies[cid].value, s.db, cfg.env)
    {
      assert AckHolds(cid, s.acks[cid], s.bodies, s.db, cfg.env);
      assert s.bodies[cid] in s.bodies;
    }
  }

  /** The stored notification of an acknowledged copy shows, column by column, the fields of the
      notification in the copy. */
  lemma AcknowledgedRowShows(s: State, cid: nat, cfg: Config)
    requires Reachable(s, cfg) && cid in s.acks
    ensures cid < |s.bodies| && s.bodies[cid].Some? && s.acks[cid].id in s.db.tables.notifications
    ensures
      var n, c := s.bodies[cid].value, s.db.tables.notifications[s.acks[cid].id].content;
      && c.topic == n.topic && c.title == n.title && c.body == n.body && c.link == n.link
      && c.metadata == n.metadata && c.priority == n.priority && c.sender == n.sender
      && (c.broadcast <==> n.recipients == [])
  {
    hide Reachable, Job.InboxComplete;
    AcknowledgedIsInTheInbox(s, cfg);
    var id := s.acks[cid].id;
    assert DeliveredAs(id, s.bodies[cid].value, s.db, cfg.env);
    ContentFields(s.bodies[cid].value, s.db.tables.notifications[id].content);
  }

  /** And so does the line in the inbox of everyone it was due to, until they dismiss it. */
  lemma AcknowledgedLineShows(s: State, cid: nat, r: string, cfg: Config)
    requires Reachable(s, cfg) && cid in s.acks && cid < |s.bodies| && s.bodies[cid].Some?
    requires r in Job.RecipientsOf(s.bodies[cid].value, cfg.env) && Job.SiteDue(r, s.bodies[cid].value, cfg.env)
    ensures (s.acks[cid].id, r) in s.db.tables.deliveries
    ensures !s.db.tables.deliveries[(s.acks[cid].id, r)].dismissed ==>
      exists item <- Inbox.Inbox(s.db.tables, r) ::
        item.id == s.acks[cid].id && SameFields(item.notification.content, s.bodies[cid].value)
  {
    hide Reachable, Job.RecipientsOf, Job.SiteDue, Inbox.Inbox, SameFields, ContentOf;
    AcknowledgedIsInTheInbox(s, cfg);
    var id, n := s.acks[cid].id, s.bodies[cid].value;
    assert DeliveredAs(id, n, s.db, cfg.env);
    ContentFields(n, s.db.tables.notifications[id].content);
    if !s.db.tables.deliveries[(id, r)].dismissed {
      InboxItems(s.db.tables, r);
      assert (id, r).0 in Listed(s.db.tables, r);
      var all := Inbox.Inbox(s.db.tables, r);
      var i :| 0 <= i < |all| && all[i].id == id;
      assert IsItem(s.db.tables, r, all[i]) && all[i] in all;
    }
  }

  /** The dispatch that was acknowledged for a copy had made every send that was due, on every
      channel, and none of them failed but for permanent web push refusals. */
  lemma AcknowledgedWasSent(s: State, cfg: Config)
    requires Reachable(s, cfg)
    ensures forall cid <- s.acks ::
        && cid < |s.bodies| && s.bodies[cid].Some?
        && Job.CallsIn(s.acks[cid].sent) == DueCalls(s.bodies[cid].value, cfg.env)
        && forall x <- s.acks[cid].sent :: x.error.Nil? || PermanentPush(x.error)
  {
    hide DeliveredAs, Reachable, Broker.Inv, BuffersInv, CopiesInv, WorkInv, QueueOrigin, BufferOrigin, OwnIds,
         DueCalls, Job.CallsIn, PermanentPush, AcceptedInv;
    ReachableInv(s, cfg);
    forall cid <- s.acks
      ensures cid < |s.bodies| && s.bodies[cid].Some? && SentAll(s.acks[cid].sent, s.bodies[cid].value, cfg.env)
    {
      assert AckHolds(cid, s.acks[cid], s.bodies, s.db, cfg.env);
    }
  }

  /** In any reachable state, the end of a dispatch acknowledges its copy exactly when there was
      no error, or one whose leaves are all permanent web push failures. */
  lemma SettlementReachesBroker(s: State, cfg: Config)
    requires Reachable(s, cfg) && Enabled(s, SettleDispatch, cfg)
    ensures
      var err := s.job.value.stage.err;
      var ack := err.Nil? || (Leaves(err) != [] &&
        forall l <- Leaves(err) :: l.SendError? && l.channel == "web_push" && l.permanent);
      SettledAs(s.broker, Next(s, SettleDispatch, cfg).broker, ack)
  {
    AcknowledgedSpelled(s.job.value.stage.err);
    hide Acknowledged, Leaves, SettledAs, Reachable, Broker.Inv, AcksInv, AcceptedInv, BufferOrigin, BuffersInv, CopiesInv, WorkInv,
         QueueOrigin;
    ReachableInv(s, cfg);
    SettlesHead(s, cfg);
  }

  // ----- nothing published is lost -----

  /** The copy waits, with the notification in it, in the queue or in the consumer's hands, or
      was acknowledged and is delivered, or was dead-lettered, with the notification in it, as a
      redelivery under a limit of one. */
  ghost predicate SafelyAt(cid: nat, n: Notification, s: State, cfg: Config) {
    || (cid in s.broker.ready && s.broker.ready[cid].body == Some(n))
    || (cid in s.broker.unacked && s.broker.unacked[cid].copy.body == Some(n))
    || (cid in s.broker.acked && cid in s.acks && DeliveredAs(s.acks[cid].id, n, s.db, cfg.env))
    || (cid in s.broker.dead && s.broker.dead[cid].body == Some(n)
        && cfg.broker.maxRedeliver == 1 && s.broker.dead[cid].redelivered)
  }

  function ConfirmedBy(buffers: seq<Buffer.State>, n: Notification): nat
    decreases |buffers|
  {
    if buffers == [] then 0
    else ConfirmedBy(buffers[..|buffers| - 1], n) + Buffer.Confirmed(buffers[|buffers| - 1].published, n)
  }

  /** How often the notification was counted as published while the queue existed, by this
      process and those before it. */
  function Publications(s: State, n: Notification): nat {
    ConfirmedBy(s.earlier, n) + Buffer.Confirmed(s.buffer.published, n)
  }

  lemma {:induction false} ConfirmedWereMade(buffers: seq<Buffer.State>, n: Notification)
    requires forall b <- buffers :: Buffer.Inv(b)
    ensures ConfirmedBy(buffers, n) <= MadeBy(buffers, n)
    decreases |buffers|
  {
    hide Buffer.Inv, Buffer.CopiesMade;
    if buffers != [] {
      var init, last := buffers[..|buffers| - 1], buffers[|buffers| - 1];
      assert forall b <- init :: b in buffers;
      assert last in buffers;
      ConfirmedWereMade(init, n);
      Buffer.PublishedHaveCopies(last, n);
    }
  }

  /** Nothing counted as published while the queue existed is lost: each such publication, also
      of one and the same notification, has a copy of its own, and each copy still waits, or is
      delivered, or, only when one redelivery is the limit, was dead-lettered after being
      redelivered. */
  lemma PublishedIsNeverLost(s: State, cfg: Config)
    requires Reachable(s, cfg)
    ensures forall n :: Publications(s, n) <= |CopiesOf(s.bodies, n)|
    ensures forall n, cid <- CopiesOf(s.bodies, n) :: SafelyAt(cid, n, s, cfg)
  {
    hide Reachable, Inv, SafelyAt;
    ReachableInv(s, cfg);
    forall n ensures Publications(s, n) <= |CopiesOf(s.bodies, n)| {
      PublicationsHaveCopies(s, n, cfg);
    }
    forall n, cid <- CopiesOf(s.bodies, n) ensures SafelyAt(cid, n, s, cfg) {
      CopyIsSafe(s, cid, n, cfg);
    }
  }

  lemma PublicationsHaveCopies(s: State, n: Notification, cfg: Config)
    requires Inv(s, cfg)
    ensures Publications(s, n) <= |CopiesOf(s.bodies, n)|
  {
    hide Buffer.Inv, Broker.Inv, AcksInv, AcceptedInv, BufferOrigin, WorkInv, QueueOrigin, CopiesOf, MadeBy,
         ConfirmedBy,
         Buffer.CopiesMade, Buffer.Confirmed;
    assert CountedFor(s, n);
    ConfirmedWereMade(s.earlier, n);
    Buffer.PublishedHaveCopies(s.buffer, n);
  }

  lemma CopyIsSafe(s: State, cid: nat, n: Notification, cfg: Config)
    requires Inv(s, cfg) && cid in CopiesOf(s.bodies, n)
    ensures SafelyAt(cid, n, s, cfg)
  {
    hide AcceptedInv, BufferOrigin, BuffersInv, CopiesInv, WorkInv, DeliveredAs, SentAll, JobAtHead, OwnIds,
         Broker.HoldingInv, Broker.AttemptsInv, Broker.FirstTimeInv;
    assert Broker.Places(s.broker, cid) == 1;
    assert forall c <- s.broker.ready :: Genuine(s.broker.ready[c], s.bodies);
    if cid in s.broker.acked {
      assert AckHolds(cid, s.acks[cid], s.bodies, s.db, cfg.env);
    }
  }

  /** The copies in the broker are exactly those that the workers of all processes made, and
      each publication counted has copies or not as it did when it was confirmed. */
  lemma PublishedIffRoutable(s: State, cfg: Config)
    requires Reachable(s, cfg)
    ensures forall n :: |CopiesOf(s.bodies, n)| == MadeBy(s.earlier + [s.buffer], n)
    ensures forall b <- s.earlier + [s.buffer], f <- b.published :: f.progress.copies >= 1 <==> f.progress.routable
    ensures !s.broker.declared ==> s.bodies == []
  {
    hide Reachable, Inv;
    ReachableInv(s, cfg);
    forall n ensures |CopiesOf(s.bodies, n)| == MadeBy(s.earlier + [s.buffer], n) {
      AllCounted(s, n, cfg);
    }
    forall b <- s.earlier + [s.buffer], f <- b.published ensures f.progress.copies >= 1 <==> f.progress.routable {
      PublicationIffRoutable(s, b, f, cfg);
    }
    UndeclaredIsEmpty(s, cfg);
  }

  /** The worker was confirmed and counted the notification as published. */
  predicate CountedAs(buffer: Buffer.State, buffer': Buffer.State, n: Notification, routable: bool) {
    && |buffer'.published| == |buffer.published| + 1
    && buffer'.published[..|buffer.published|] == buffer.published
    && buffer'.published[|buffer.published|].n == n
    && (buffer'.published[|buffer.published|].progress.copies >= 1 <==> routable)
  }

  /** A confirmed publish is counted, and it puts the notification into the broker's queue
      exactly when the queue has been declared by then; otherwise there is still no copy of
      anything. */
  lemma PublishedIffDeclared(s: State, w: nat, a: Buffer.Attempt, cfg: Config)
    requires Reachable(s, cfg) && Enabled(s, Work(Buffer.TryPublish(w, a)), cfg) && a.ok
    ensures
      var s' := Next(s, Work(Buffer.TryPublish(w, a)), cfg);
      var n := s.buffer.workers[w].n;
      && CountedAs(s.buffer, s'.buffer, n, s.broker.declared)
      && (if s.broker.declared then
            && s'.bodies == s.bodies + [Some(n)]
            && |s.bodies| in s'.broker.ready && s'.broker.ready[|s.bodies|].body == Some(n)
          else
            s'.bodies == [])
  {
    hide Reachable, Broker.Inv, AcksInv, WorkInv, AcceptedInv, CountedFor, Buffer.Conserved, Buffer.QueueInv,
         Buffer.ClosingInv;
    ReachableInv(s, cfg);
    assert s.buffer.workers[w] in s.buffer.workers;
    Buffer.TryKeepsInv(s.buffer.workers[w].progress, a);
  }

  lemma AllCounted(s: State, n: Notification, cfg: Config)
    requires Inv(s, cfg)
    ensures |CopiesOf(s.bodies, n)| == MadeBy(s.earlier + [s.buffer], n)
  {
    hide Core, CopiesOf, Buffer.CopiesMade;
    assert CountedFor(s, n);
    assert (s.earlier + [s.buffer])[..|s.earlier|] == s.earlier;
  }

  lemma PublicationIffRoutable(s: State, b: Buffer.State, f: Buffer.Finished, cfg: Config)
    requires Inv(s, cfg) && b in s.earlier + [s.buffer] && f in b.published
    ensures f.progress.copies >= 1 <==> f.progress.routable
  {
    hide CopiesInv, AcceptedInv, BufferOrigin, WorkInv, QueueOrigin, JobAtHead, AcksInv, Broker.Inv, Buffer.Conserved,
         Buffer.QueueInv, Buffer.ClosingInv;
    assert Buffer.Inv(b);
  }

  lemma UndeclaredIsEmpty(s: State, cfg: Config)
    requires Inv(s, cfg)
    ensures !s.broker.declared ==> s.bodies == []
  {
    hide Core, CountedFor;
  }

  /** What a fresh service does with a notification that arrives before its consumer has
      declared the queue: accept, take, publish into nothing, and count as published. */
  lemma PublishedIntoNothing(n: Notification, cfg: Config) returns (s: State)
    requires Admissible(n, cfg.env)
    ensures Reachable(s, cfg)
    ensures s.accepted == {n} && s.bodies == []
    ensures |s.buffer.published| == 1 && s.buffer.published[0].n == n && s.buffer.queue == []
  {
    var b := Buffer.ConfirmedAtOnce(n, cfg.depth, cfg.workers, Buffer.UNROUTED);
    hide Admissible, Enabled, Next, Buffer.Enabled, Buffer.Next, Buffer.Initial, Buffer.Stores;
    var s0 := Initial(cfg);
    var s1 := s0.(buffer := Buffer.Next(s0.buffer, Buffer.Submit(n)), accepted := {n});
    IngestTransition(s0, n, cfg);
    var s2 := s1.(buffer := Buffer.Next(s1.buffer, Buffer.Take(0)));
    TakeTransition(s1, cfg);
    s := s2.(buffer := Buffer.Next(s2.buffer, Buffer.TryPublish(0, Buffer.UNROUTED)));
    UnroutedTransition(s2, cfg);
    RunOfFour(s0, s1, s2, s, cfg);
  }

  lemma IngestTransition(s: State, n: Notification, cfg: Config)
    requires Admissible(n, cfg.env) && s.accepted == {}
    requires Buffer.Enabled(s.buffer, Buffer.Submit(n)) && Buffer.Next(s.buffer, Buffer.Submit(n)) != s.buffer
    ensures Transition(s, s.(buffer := Buffer.Next(s.buffer, Buffer.Submit(n)), accepted := {n}), cfg)
  {
    hide Admissible, Buffer.Enabled, Buffer.Next, Transition;
    StepIsTransition(s, Ingest(n), cfg);
    assert s.accepted + {n} == {n};
  }

  lemma TakeTransition(s: State, cfg: Config)
    requires Buffer.Enabled(s.buffer, Buffer.Take(0))
    ensures Transition(s, s.(buffer := Buffer.Next(s.buffer, Buffer.Take(0))), cfg)
  {
    hide Buffer.Enabled, Buffer.Next, Transition;
    StepIsTransition(s, Work(Buffer.Take(0)), cfg);
  }

  lemma UnroutedTransition(s: State, cfg: Config)
    requires !s.broker.declared && Buffer.Enabled(s.buffer, Buffer.TryPublish(0, Buffer.UNROUTED))
    ensures Transition(s, s.(buffer := Buffer.Next(s.buffer, Buffer.TryPublish(0, Buffer.UNROUTED))), cfg)
  {
    hide Buffer.Enabled, Buffer.Next, Transition;
    StepIsTransition(s, Work(Buffer.TryPublish(0, Buffer.UNROUTED)), cfg);
  }

  lemma StepIsTransition(s: State, step: Step, cfg: Config)
    requires Enabled(s, step, cfg)
    ensures Transition(s, Next(s, step, cfg), cfg)
  {
    hide Enabled, Next;
  }

  lemma RunOfFour(s0: State, s1: State, s2: State, s3: State, cfg: Config)
    requires s0 == Initial(cfg)
    requires Transition(s0, s1, cfg) && Transition(s1, s2, cfg) && Transition(s2, s3, cfg)
    ensures Reachable(s3, cfg)
  {
    hide Transition, Initial;
    var run := [s0, s1, s2, s3];
    assert IsRun(run, cfg);
    assert run[|run| - 1] == s3;
  }

  // ----- the inbox -----

  /** Nobody finds in the inbox what was not accepted for them: each row has a notification,
      accepted from a client and carried by a copy in the broker, that shows the row's content,
      is meant for the row's recipient and goes to the site by the recipient's preferences. */
  lemma RowsWereAccepted(s: State, cfg: Config)
    requires Reachable(s, cfg)
    ensures forall k <- s.db.tables.deliveries :: Justified(k.0, k.1, s.db.tables, Carried(s.bodies), cfg.env)
    ensures Carried(s.bodies) <= s.accepted
  {
    hide Justified, Reachable, CopiesInv, Broker.Inv, QueueOrigin, AcksInv, BuffersInv;
    ReachableInv(s, cfg);
  }

  /** Under its id, a notification dispatched at least once is in the inbox exactly once: the
      tables are always those of the statements so far without the repeated ones. A dispatch of
      a notification without an id generates a new one and so repeats nothing; how many rows
      one copy of it can leave is the subject of `Progress.OneRowIff`. */
  lemma InboxIsExactlyOnce(s: State, cfg: Config)
    requires Reachable(s, cfg)
    ensures s.db.tables == Replay(Distilled(s.db.log))
    ensures ForeignKeys(s.db.tables)
  {
    hide Replay, Distilled, ForeignKeys, Reachable, CopiesInv, Broker.Inv, QueueOrigin, AcksInv, BuffersInv;
    ReachableInv(s, cfg);
    ExactlyOnceTables(s.db.log);
    ReplayKeepsForeignKeys(s.db.log);
  }

  /** Each row was created by the first delivery, and read and dismissed by what its user did
      after that and by nothing else. */
  lemma InboxIsExplained(s: State, cfg: Config)
    requires Reachable(s, cfg)
    ensures Explains(s.db.log, s.db.tables)
  {
    hide Explains, Reachable, CopiesInv, Broker.Inv, QueueOrigin, AcksInv, BuffersInv;
    ReachableInv(s, cfg);
    ReplayIsExplained(s.db.log);
  }

  /** The copy's body, wherever the broker still has it, is what was published under its
      number. */
  predicate Unaltered(cid: nat, q: Broker.State, body: Option<Notification>) {
    && (cid in q.ready ==> q.ready[cid].body == body)
    && (cid in q.unacked ==> q.unacked[cid].copy.body == body)
    && (cid in q.dead ==> q.dead[cid].body == body)
  }

  /** Each copy in the broker is in exactly one place, and its body is what was published:
      garbage, or a notification accepted from a client. */
  lemma CopiesAreConserved(s: State, cfg: Config)
    requires Reachable(s, cfg)
    ensures forall cid: nat :: Broker.Places(s.broker, cid) == if cid < |s.bodies| then 1 else 0
    ensures forall cid: nat :: cid < |s.bodies| ==> Unaltered(cid, s.broker, s.bodies[cid])
    ensures forall b <- s.bodies :: b.Some? ==> b.value in s.accepted
  {
    hide Reachable, CopiesInv, AcksInv, BuffersInv, WorkInv, Broker.HoldingInv, Broker.AttemptsInv, Broker.DeadInv,
         Broker.FirstTimeInv;
    ReachableInv(s, cfg);
  }
}
