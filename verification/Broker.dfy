/** The broker's queue and the consumer's sessions as one step machine: publishing,
    delivering, collecting, settling, lost connections and crashes, in any interleaving
    (internal/rmq/consumer.go, internal/consumer/runner.go). */
module Broker {
  import opened Wrappers
  import opened Domain
  import opened Consumer

  datatype Config = Config(maxRedeliver: int, batchSize: nat, prefetch: nat)

  /** What the consumer is doing in its session: collecting a batch, or settling one with
      the head of `plan` being dispatched when `busy`. */
  datatype Phase =
    | Collecting(batch: seq<Delivery>)
    | Settling(plan: seq<Delivery>, busy: bool)

  /** `alive` is false once the connection is lost and the consumer has not yet noticed;
      `inflight` has been delivered but not yet collected. */
  datatype Session =
    | Offline
    | Online(alive: bool, inflight: seq<Delivery>, phase: Phase)

  /** `declared` once the queue exists: the consumer's session declares it, and until then the
      broker drops what is published. Where each copy is: `ready`, `unacked` (by copy number),
      `acked` or `dead`.
      The rest is history: settlement attempts, copies delivered, copies dispatched, tags of
      complete batches, and tags of complete batches cut off by a crash. */
  datatype State = State(
    declared: bool,
    published: nat,
    nextTag: nat,
    ready: map<nat, Copy>,
    unacked: map<nat, Delivery>,
    acked: set<nat>,
    dead: map<nat, Copy>,
    session: Session,
    attempts: seq<Attempt>,
    delivered: set<nat>,
    dispatched: seq<nat>,
    batched: set<nat>,
    abandoned: set<nat>)

  const INITIAL := State(false, 0, 0, map[], map[], {}, map[], Offline, [], {}, [], {}, {})

  datatype Step =
    | Publish(body: Option<Notification>)
    | Declare
    | Open
    | DeliverCopy(cid: nat)
    | Collect
    | BatchComplete
    | GiveUp
    | LoseConnection
    | SettlePoison
    | Begin
    | Settle(settlement: Settlement)
    | BatchDone
    | Crash

  predicate Enabled(s: State, step: Step, cfg: Config) {
    var o := s.session;
    match step
    case Publish(_) => s.declared
    case Declare => o.Offline?
    case Open => o.Offline?
    case DeliverCopy(cid) => o.Online? && o.alive && cid in s.ready && |s.unacked| < cfg.prefetch
    case Collect => o.Online? && o.phase.Collecting? && o.inflight != [] && |o.phase.batch| < cfg.batchSize
    case BatchComplete => o.Online? && o.phase.Collecting? && o.phase.batch != []
    case GiveUp => o.Online? && o.phase.Collecting?
    case LoseConnection => o.Online? && o.alive
    case SettlePoison => AtHead(s) && !o.phase.busy && IsPoison(o.phase.plan[0], cfg.maxRedeliver)
    case Begin => AtHead(s) && !o.phase.busy && !IsPoison(o.phase.plan[0], cfg.maxRedeliver)
    case Settle(settlement) => AtHead(s) && o.phase.busy && settlement != DeadLetter
    case BatchDone => o.Online? && o.phase.Settling? && o.phase.plan == []
    case Crash => o.Online?
  }

  predicate AtHead(s: State) {
    s.session.Online? && s.session.phase.Settling? && s.session.phase.plan != []
  }

  /** Unsettled deliveries go back to the queue, marked. */
  function Requeued(s: State): State {
    s.(ready := s.ready + map cid <- s.unacked :: s.unacked[cid].copy.(redelivered := true),
       unacked := map[])
  }

  /** The consumer calls Ack or Nack on the head of its plan; on a lost connection the call
      fails and the broker hears nothing. */
  function Attempted(s: State, settlement: Settlement): State
    requires AtHead(s)
  {
    var d := s.session.phase.plan[0];
    var cid := d.copy.cid;
    var moved := s.(session := s.session.(phase := Settling(s.session.phase.plan[1..], false)),
                    attempts := s.attempts + [Attempt(d.tag, settlement)]);
    if !s.session.alive || cid !in s.unacked || s.unacked[cid] != d then moved
    else
      var settled := moved.(unacked := s.unacked - {cid});
      match settlement
      case Ack => settled.(acked := s.acked + {cid})
      case Requeue => settled.(ready := s.ready[cid := d.copy.(redelivered := true)])
      case DeadLetter => settled.(dead := s.dead[cid := d.copy.(xDeath := Deaths(1))])
  }

  function TagsOf(ds: seq<Delivery>): set<nat> {
    set d <- ds :: d.tag
  }

  function Next(s: State, step: Step, cfg: Config): State
    requires Enabled(s, step, cfg)
  {
    match step
    case Publish(body) =>
      s.(published := s.published + 1, ready := s.ready[s.published := Copy(s.published, body, false, Absent)])
    case Declare => s.(declared := true)
    case Open => s.(declared := true, session := Online(true, [], Collecting([])))
    case DeliverCopy(cid) =>
      var d := Delivery(s.nextTag, s.ready[cid]);
      s.(nextTag := s.nextTag + 1, ready := s.ready - {cid}, unacked := s.unacked[cid := d],
         session := s.session.(inflight := s.session.inflight + [d]), delivered := s.delivered + {cid})
    case Collect =>
      s.(session := s.session.(inflight := s.session.inflight[1..],
                               phase := Collecting(s.session.phase.batch + [s.session.inflight[0]])))
    case BatchComplete =>
      var plan := SettlingOrder(s.session.phase.batch, cfg.maxRedeliver);
      s.(session := s.session.(phase := Settling(plan, false)), batched := s.batched + TagsOf(plan))
    case GiveUp => Requeued(s).(session := Offline)
    case LoseConnection => Requeued(s).(session := s.session.(alive := false))
    case SettlePoison => Attempted(s, DeadLetter)
    case Begin =>
      s.(session := s.session.(phase := s.session.phase.(busy := true)),
         dispatched := s.dispatched + [s.session.phase.plan[0].copy.cid])
    case Settle(settlement) => Attempted(s, settlement)
    case BatchDone => s.(session := s.session.(phase := Collecting([])))
    case Crash =>
      var left := if s.session.phase.Settling? then TagsOf(s.session.phase.plan) else {};
      Requeued(s).(session := Offline, abandoned := s.abandoned + left)
  }

  function Exec(steps: seq<Step>, cfg: Config): Option<State> {
    ExecFrom(INITIAL, steps, cfg)
  }

  function ExecFrom(start: State, steps: seq<Step>, cfg: Config): Option<State>
    decreases |steps|
  {
    if steps == [] then Some(start)
    else
      match ExecFrom(start, steps[..|steps| - 1], cfg)
      case None => None
      case Some(s) =>
        var step := steps[|steps| - 1];
        if Enabled(s, step, cfg) then Some(Next(s, step, cfg)) else None
  }

  // ----- every copy is in exactly one place -----

  /** In how many of the four places a copy is. */
  function Places(s: State, cid: nat): nat {
    (if cid in s.ready then 1 else 0) + (if cid in s.unacked then 1 else 0)
    + (if cid in s.acked then 1 else 0) + (if cid in s.dead then 1 else 0)
  }

  ghost predicate PlacesInv(s: State) {
    && (forall cid: nat :: Places(s, cid) == if cid < s.published then 1 else 0)
    && (forall cid <- s.ready :: s.ready[cid].cid == cid && s.ready[cid].xDeath.Absent?)
    && (forall cid <- s.unacked :: s.unacked[cid].copy.cid == cid && s.unacked[cid].copy.xDeath.Absent?)
  }

  lemma RequeuedPlaces(s: State)
    requires PlacesInv(s)
    ensures PlacesInv(Requeued(s))
    ensures Requeued(s).ready.Keys == s.ready.Keys + s.unacked.Keys
  {
    var s' := Requeued(s);
    forall cid: nat ensures Places(s', cid) == if cid < s.published then 1 else 0 {
      assert Places(s, cid) == if cid < s.published then 1 else 0;
    }
  }

  lemma AttemptedPlaces(s: State, settlement: Settlement)
    requires PlacesInv(s) && AtHead(s)
    ensures PlacesInv(Attempted(s, settlement))
  {
    var s' := Attempted(s, settlement);
    forall cid: nat ensures Places(s', cid) == if cid < s.published then 1 else 0 {
      assert Places(s, cid) == if cid < s.published then 1 else 0;
    }
  }

  lemma StepKeepsPlaces(s: State, step: Step, cfg: Config)
    requires PlacesInv(s) && Enabled(s, step, cfg)
    ensures PlacesInv(Next(s, step, cfg))
  {
    hide IsPoison, SettlingOrder;
    var s' := Next(s, step, cfg);
    match step
    case Publish(_) => PublishPlaces(s, step, cfg);
    case DeliverCopy(_) => DeliverPlaces(s, step, cfg);
    case GiveUp => RequeuedPlaces(s); SamePlaces(Requeued(s), s');
    case LoseConnection => RequeuedPlaces(s); SamePlaces(Requeued(s), s');
    case Crash => RequeuedPlaces(s); SamePlaces(Requeued(s), s');
    case SettlePoison => AttemptedPlaces(s, DeadLetter);
    case Settle(settlement) => AttemptedPlaces(s, settlement);
    case _ => SamePlaces(s, s');
  }

  lemma SamePlaces(s: State, s': State)
    requires PlacesInv(s)
    requires s'.published == s.published && s'.ready == s.ready && s'.unacked == s.unacked
    requires s'.acked == s.acked && s'.dead == s.dead
    ensures PlacesInv(s')
  {
    forall cid: nat ensures Places(s', cid) == Places(s, cid) {
    }
  }

  lemma PublishPlaces(s: State, step: Step, cfg: Config)
    requires PlacesInv(s) && step.Publish? && Enabled(s, step, cfg)
    ensures PlacesInv(Next(s, step, cfg))
  {
    forall cid: nat ensures Places(Next(s, step, cfg), cid) == if cid < s.published + 1 then 1 else 0 {
      assert Places(s, cid) == if cid < s.published then 1 else 0;
    }
  }

  lemma DeliverPlaces(s: State, step: Step, cfg: Config)
    requires PlacesInv(s) && step.DeliverCopy? && Enabled(s, step, cfg)
    ensures PlacesInv(Next(s, step, cfg))
  {
    forall cid: nat ensures Places(Next(s, step, cfg), cid) == if cid < s.published then 1 else 0 {
      assert Places(s, cid) == if cid < s.published then 1 else 0;
    }
  }

  // ----- consumer and broker agree; every tag is settled at most once -----

  function Working(phase: Phase): seq<Delivery> {
    match phase
    case Collecting(batch) => batch
    case Settling(plan, _) => plan
  }

  /** The deliveries the consumer still has to settle, or to collect and settle. */
  function Holding(s: State): seq<Delivery> {
    if s.session.Offline? then [] else Working(s.session.phase) + s.session.inflight
  }

  ghost predicate TagsInv(s: State) {
    DistinctTags(Holding(s)) && forall d <- Holding(s) :: d.tag < s.nextTag && d.copy.xDeath.Absent?
  }

  /** While the connection lives, what the consumer holds is what the broker waits for. */
  ghost predicate AgreeInv(s: State) {
    if s.session.Online? && s.session.alive then
      && (forall d <- Holding(s) :: d.copy.cid in s.unacked && s.unacked[d.copy.cid] == d)
      && (forall cid <- s.unacked :: s.unacked[cid] in Holding(s))
    else
      s.unacked == map[]
  }

  ghost predicate HoldingInv(s: State) {
    TagsInv(s) && AgreeInv(s)
  }

  predicate AttemptedTag(s: State, tag: nat) {
    exists a <- s.attempts :: a.tag == tag
  }

  /** A tag is settled at most once and never while the consumer still holds it; the tags of
      complete batches are settled, or still in the plan, or were cut off by a crash. */
  ghost predicate AttemptsInv(s: State) {
    && (forall i, j :: 0 <= i < j < |s.attempts| ==> s.attempts[i].tag != s.attempts[j].tag)
    && (forall a <- s.attempts :: a.tag < s.nextTag)
    && (forall d <- Holding(s) :: !AttemptedTag(s, d.tag))
    && (forall tag <- s.batched :: AttemptedTag(s, tag) || tag in s.abandoned || InPlan(s, tag))
  }

  predicate InPlan(s: State, tag: nat) {
    s.session.Online? && s.session.phase.Settling? && tag in TagsOf(s.session.phase.plan)
  }

  /** The same deliveries in the consumer's hands, however arranged. */
  ghost predicate SameHands(s: State, s': State) {
    && (forall d :: d in Holding(s') <==> d in Holding(s))
    && DistinctTags(Holding(s'))
  }

  lemma HeadOfHolding(s: State)
    requires AtHead(s)
    ensures Holding(s) == [s.session.phase.plan[0]] + (s.session.phase.plan[1..] + s.session.inflight)
  {
  }

  lemma TailDistinct(s: State)
    requires AtHead(s) && DistinctTags(Holding(s))
    ensures
      var rest := s.session.phase.plan[1..] + s.session.inflight;
      && DistinctTags(rest)
      && (forall d <- rest :: d in Holding(s) && d.tag != s.session.phase.plan[0].tag)
      && (forall d <- Holding(s) :: d == s.session.phase.plan[0] || d in rest)
  {
    HeadOfHolding(s);
    var head := s.session.phase.plan[0];
    var rest := s.session.phase.plan[1..] + s.session.inflight;
    assert forall i :: 0 <= i < |rest| ==> rest[i] == Holding(s)[i + 1];
    assert Holding(s)[0] == head;
  }

  /** Taking the head out of both keeps hands and broker in agreement. */
  lemma HandsWithout(unacked: map<nat, Delivery>, held: seq<Delivery>, head: Delivery, rest: seq<Delivery>)
    requires forall d <- held :: d.copy.cid in unacked && unacked[d.copy.cid] == d
    requires forall cid <- unacked :: unacked[cid] in held && unacked[cid].copy.cid == cid
    requires head in held && forall d <- rest :: d in held && d.tag != head.tag
    requires forall d <- held :: d == head || d in rest
    ensures
      var left := unacked - {head.copy.cid};
      && (forall d <- rest :: d.copy.cid in left && left[d.copy.cid] == d)
      && (forall cid <- left :: left[cid] in rest)
  {
  }

  /** What an attempt does to the session and the broker's unsettled deliveries, whichever
      settlement it is. */
  lemma AttemptedShape(s: State, settlement: Settlement)
    requires AtHead(s)
    ensures
      var s', head := Attempted(s, settlement), s.session.phase.plan[0];
      && s'.session == s.session.(phase := Settling(s.session.phase.plan[1..], false))
      && s'.nextTag == s.nextTag
      && s'.unacked ==
           if s.session.alive && head.copy.cid in s.unacked && s.unacked[head.copy.cid] == head then
             s.unacked - {head.copy.cid}
           else s.unacked
  {
  }

  lemma AttemptedHolding(s: State, settlement: Settlement)
    requires PlacesInv(s) && HoldingInv(s) && AtHead(s)
    ensures HoldingInv(Attempted(s, settlement))
    ensures Holding(Attempted(s, settlement)) == s.session.phase.plan[1..] + s.session.inflight
  {
    AttemptedShape(s, settlement);
    hide DistinctTags, Attempted;
    TailDistinct(s);
    HeadOfHolding(s);
    var s' := Attempted(s, settlement);
    var head := s.session.phase.plan[0];
    assert head in Holding(s);
    assert Holding(s') == s.session.phase.plan[1..] + s.session.inflight;
    if s.session.alive {
      HandsWithout(s.unacked, Holding(s), head, Holding(s'));
    }
  }

  lemma AttemptedAttempts(s: State, settlement: Settlement)
    requires PlacesInv(s) && HoldingInv(s) && AttemptsInv(s) && AtHead(s)
    ensures AttemptsInv(Attempted(s, settlement))
  {
    AttemptedHolding(s, settlement);
    TailDistinct(s);
    HeadOfHolding(s);
    hide PlacesInv, TagsInv, AgreeInv, DistinctTags;
    var s' := Attempted(s, settlement);
    var head := s.session.phase.plan[0];
    assert head in Holding(s);
    HeadLeft(s, s', Attempt(head.tag, settlement));
  }

  lemma HeadLeft(s: State, s': State, a: Attempt)
    requires AttemptsInv(s) && AtHead(s) && a.tag == s.session.phase.plan[0].tag && a.tag < s.nextTag
    requires !AttemptedTag(s, a.tag)
    requires s'.attempts == s.attempts + [a] && s'.nextTag == s.nextTag
    requires s'.batched == s.batched && s'.abandoned == s.abandoned
    requires s'.session == s.session.(phase := Settling(s.session.phase.plan[1..], false))
    requires forall d <- Holding(s') :: d in Holding(s) && d.tag != a.tag
    ensures AttemptsInv(s')
  {
    hide Holding;
    AttemptRecorded(s, s', a);
    forall tag <- s'.batched ensures AttemptedTag(s', tag) || tag in s'.abandoned || InPlan(s', tag) {
      if InPlan(s, tag) && tag != a.tag {
        var d :| d in s.session.phase.plan && d.tag == tag;
        assert d in s.session.phase.plan[1..];
      }
    }
  }

  lemma AttemptRecorded(s: State, s': State, a: Attempt)
    requires s'.attempts == s.attempts + [a]
    ensures forall tag :: AttemptedTag(s', tag) <==> AttemptedTag(s, tag) || tag == a.tag
    ensures !AttemptedTag(s, a.tag) ==> forall i :: 0 <= i < |s.attempts| ==> s.attempts[i].tag != a.tag
  {
    assert a in s'.attempts;
    assert forall b <- s.attempts :: b in s'.attempts;
    assert forall i :: 0 <= i < |s.attempts| ==> s.attempts[i] in s.attempts;
  }

  lemma AttemptsStay(s: State, s': State)
    requires AttemptsInv(s)
    requires s'.attempts == s.attempts && s'.abandoned == s.abandoned && s.nextTag <= s'.nextTag
    requires forall d <- Holding(s') :: d in Holding(s) || d.tag >= s.nextTag
    requires forall tag <- s'.batched :: tag in s.batched || InPlan(s', tag)
    requires forall tag <- s.batched :: InPlan(s, tag) ==> InPlan(s', tag)
    ensures AttemptsInv(s')
  {
    hide Holding, InPlan;
    assert forall tag :: AttemptedTag(s', tag) <==> AttemptedTag(s, tag);
  }

  lemma HandsKeepInvs(s: State, s': State)
    requires HoldingInv(s) && AttemptsInv(s) && SameHands(s, s')
    requires s'.nextTag == s.nextTag && s'.unacked == s.unacked && s'.attempts == s.attempts
    requires s'.abandoned == s.abandoned
    requires s.session.Online? <==> s'.session.Online?
    requires s.session.Online? ==> s'.session.alive == s.session.alive
    requires forall tag <- s'.batched :: tag in s.batched || InPlan(s', tag)
    requires forall tag <- s.batched :: InPlan(s, tag) ==> InPlan(s', tag)
    ensures HoldingInv(s') && AttemptsInv(s')
  {
    AttemptsStay(s, s');
  }

  lemma Rearranged(batch: seq<Delivery>, plan: seq<Delivery>, inflight: seq<Delivery>)
    requires DistinctTags(batch + inflight) && DistinctTags(plan)
    requires forall d :: d in plan <==> d in batch
    ensures DistinctTags(plan + inflight)
    ensures forall d :: d in plan + inflight <==> d in batch + inflight
  {
    var before := batch + inflight;
    forall i, j | 0 <= i < |plan| && 0 <= j < |inflight| ensures plan[i].tag != inflight[j].tag {
      assert plan[i] in batch;
      var a :| 0 <= a < |batch| && batch[a] == plan[i];
      assert before[a] == plan[i] && before[|batch| + j] == inflight[j];
    }
    assert forall j :: 0 <= j < |inflight| ==> before[|batch| + j] == inflight[j];
  }

  lemma BatchCompleteKeeps(s: State, cfg: Config)
    requires HoldingInv(s) && AttemptsInv(s) && Enabled(s, BatchComplete, cfg)
    ensures HoldingInv(Next(s, BatchComplete, cfg)) && AttemptsInv(Next(s, BatchComplete, cfg))
  {
    hide IsPoison, SettlingOrder;
    var s' := Next(s, BatchComplete, cfg);
    var batch, inflight := s.session.phase.batch, s.session.inflight;
    assert forall i :: 0 <= i < |batch| ==> batch[i] == Holding(s)[i];
    PlanDistinct(batch, cfg.maxRedeliver);
    Rearranged(batch, SettlingOrder(batch, cfg.maxRedeliver), inflight);
    hide DistinctTags;
    assert SameHands(s, s');
    HandsKeepInvs(s, s');
  }

  lemma DeliverHolding(s: State, step: Step, cfg: Config)
    requires PlacesInv(s) && HoldingInv(s) && step.DeliverCopy? && Enabled(s, step, cfg)
    ensures HoldingInv(Next(s, step, cfg))
    ensures Holding(Next(s, step, cfg)) == Holding(s) + [Delivery(s.nextTag, s.ready[step.cid])]
  {
    hide PlacesInv, TagsInv, AgreeInv;
    DeliverHands(s, step, cfg);
    DeliverTags(s, step, cfg);
    DeliverAgrees(s, step, cfg);
  }

  lemma DeliverHands(s: State, step: Step, cfg: Config)
    requires step.DeliverCopy? && Enabled(s, step, cfg)
    ensures Holding(Next(s, step, cfg)) == Holding(s) + [Delivery(s.nextTag, s.ready[step.cid])]
  {
  }

  lemma DeliverTags(s: State, step: Step, cfg: Config)
    requires PlacesInv(s) && TagsInv(s) && step.DeliverCopy? && Enabled(s, step, cfg)
    ensures TagsInv(Next(s, step, cfg))
  {
    DeliverHands(s, step, cfg);
    TagsExtended(Holding(s), Delivery(s.nextTag, s.ready[step.cid]), s.nextTag);
    hide DistinctTags, Holding;
  }

  lemma DeliverAgrees(s: State, step: Step, cfg: Config)
    requires PlacesInv(s) && AgreeInv(s) && step.DeliverCopy? && Enabled(s, step, cfg)
    ensures AgreeInv(Next(s, step, cfg))
  {
    DeliverHands(s, step, cfg);
    assert Places(s, step.cid) == if step.cid < s.published then 1 else 0;
    hide Holding;
    HandsWith(s.unacked, Holding(s), Delivery(s.nextTag, s.ready[step.cid]));
  }

  lemma HandsWith(unacked: map<nat, Delivery>, held: seq<Delivery>, d: Delivery)
    requires forall e <- held :: e.copy.cid in unacked && unacked[e.copy.cid] == e
    requires forall cid <- unacked :: unacked[cid] in held
    requires d.copy.cid !in unacked
    ensures
      var more := unacked[d.copy.cid := d];
      && (forall e <- held + [d] :: e.copy.cid in more && more[e.copy.cid] == e)
      && (forall cid <- more :: more[cid] in held + [d])
  {
  }

  lemma TagsExtended(held: seq<Delivery>, d: Delivery, nextTag: nat)
    requires DistinctTags(held) && d.tag == nextTag && forall e <- held :: e.tag < nextTag
    ensures DistinctTags(held + [d])
  {
    assert forall i :: 0 <= i < |held| ==> held[i] in held;
  }

  lemma DeliverKeeps(s: State, step: Step, cfg: Config)
    requires PlacesInv(s) && HoldingInv(s) && AttemptsInv(s) && step.DeliverCopy? && Enabled(s, step, cfg)
    ensures HoldingInv(Next(s, step, cfg)) && AttemptsInv(Next(s, step, cfg))
  {
    hide PlacesInv, AttemptsInv;
    DeliverHolding(s, step, cfg);
    AttemptsStay(s, Next(s, step, cfg));
  }

  lemma StepKeepsHands(s: State, step: Step, cfg: Config)
    requires PlacesInv(s) && HoldingInv(s) && AttemptsInv(s) && Enabled(s, step, cfg)
    ensures HoldingInv(Next(s, step, cfg)) && AttemptsInv(Next(s, step, cfg))
  {
    hide PlacesInv, IsPoison, SettlingOrder;
    var s' := Next(s, step, cfg);
    match step
    case DeliverCopy(_) => DeliverKeeps(s, step, cfg);
    case BatchComplete => BatchCompleteKeeps(s, cfg);
    case SettlePoison =>
      AttemptedHolding(s, DeadLetter);
      AttemptedAttempts(s, DeadLetter);
    case Settle(settlement) =>
      AttemptedHolding(s, settlement);
      AttemptedAttempts(s, settlement);
    case Collect =>
      assert Holding(s') == Holding(s);
      HandsKeepInvs(s, s');
    case Begin =>
      assert Holding(s') == Holding(s);
      HandsKeepInvs(s, s');
    case BatchDone =>
      assert Holding(s') == Holding(s);
      HandsKeepInvs(s, s');
    case Publish(_) =>
      HandsKeepInvs(s, s');
    case Declare => HandsKeepInvs(s, s');
    case Open => EmptyHands(s, s');
    case GiveUp => EmptyHands(s, s');
    case LoseConnection => LoseKeeps(s, s');
    case Crash => EmptyHands(s, s');
  }

  lemma EmptyHands(s: State, s': State)
    requires AttemptsInv(s) && Holding(s') == [] && s'.unacked == map[]
    requires s'.attempts == s.attempts && s'.nextTag == s.nextTag && s'.batched == s.batched
    requires s.abandoned <= s'.abandoned
    requires forall tag <- s.batched :: InPlan(s, tag) ==> tag in s'.abandoned
    ensures HoldingInv(s') && AttemptsInv(s')
  {
  }

  lemma LoseKeeps(s: State, s': State)
    requires HoldingInv(s) && AttemptsInv(s) && s.session.Online?
    requires s'.session == s.session.(alive := false) && s'.unacked == map[]
    requires s'.attempts == s.attempts && s'.nextTag == s.nextTag
    requires s'.batched == s.batched && s'.abandoned == s.abandoned
    ensures HoldingInv(s') && AttemptsInv(s')
  {
    assert Holding(s') == Holding(s);
  }

  // ----- what is dispatched and what is dead-lettered -----

  /** Held deliveries whose dispatch has not begun. */
  function Waiting(s: State): seq<Delivery> {
    if AtHead(s) && s.session.phase.busy then s.session.phase.plan[1..] + s.session.inflight else Holding(s)
  }

  /** Two deliveries of one copy are never both its first. */
  ghost predicate OneFirst(ds: seq<Delivery>) {
    forall i, j :: 0 <= i < j < |ds| && ds[i].copy.cid == ds[j].copy.cid ==>
      ds[i].copy.redelivered || ds[j].copy.redelivered
  }

  /** A copy not marked as redelivered has not been delivered before, and a delivery of one
      that waits for its dispatch is of a copy never dispatched. */
  ghost predicate FirstTimeInv(s: State) {
    && (forall cid <- s.ready :: cid < s.published && (s.ready[cid].redelivered || cid !in s.delivered))
    && (forall cid <- s.delivered :: cid < s.published)
    && (forall cid <- s.dispatched :: cid in s.delivered)
    && (forall d <- Holding(s) :: d.copy.cid in s.delivered)
    && (forall d <- Waiting(s) :: d.copy.redelivered || d.copy.cid !in s.dispatched)
    && OneFirst(Holding(s))
    && Distinct(s.dispatched)
  }

  /** What joins the queue is marked as redelivered. */
  ghost predicate OnlyMarkedJoin(s: State, s': State) {
    forall cid <- s'.ready ::
      cid < s.published && (s'.ready[cid].redelivered || (cid in s.ready && s'.ready[cid] == s.ready[cid]))
  }

  /** The same or fewer deliveries wait, the queue gains only marked copies. */
  lemma FirstTimeStays(s: State, s': State)
    requires FirstTimeInv(s)
    requires s'.dispatched == s.dispatched && s'.delivered == s.delivered && s'.published == s.published
    requires OnlyMarkedJoin(s, s')
    requires forall d <- Holding(s') :: d in Holding(s)
    requires forall d <- Waiting(s') :: d in Waiting(s)
    requires OneFirst(Holding(s'))
    ensures FirstTimeInv(s')
  {
    hide Holding, Waiting, OneFirst;
  }

  lemma RequeuedReady(s: State)
    requires PlacesInv(s)
    ensures OnlyMarkedJoin(s, Requeued(s))
  {
    forall cid <- Requeued(s).ready ensures cid < s.published {
      assert Places(s, cid) == if cid < s.published then 1 else 0;
    }
  }

  lemma AttemptedFirstTime(s: State, settlement: Settlement)
    requires PlacesInv(s) && HoldingInv(s) && FirstTimeInv(s) && AtHead(s)
    ensures FirstTimeInv(Attempted(s, settlement))
  {
    AttemptedHolding(s, settlement);
    HeadOfHolding(s);
    hide PlacesInv, HoldingInv, OneFirst;
    var s' := Attempted(s, settlement);
    OneFirstTail(s.session.phase.plan[0], Holding(s'));
    assert s.session.phase.plan[0] in Holding(s);
    assert Waiting(s') == Holding(s');
    FirstTimeStays(s, s');
  }

  lemma OneFirstTail(head: Delivery, rest: seq<Delivery>)
    requires OneFirst([head] + rest)
    ensures OneFirst(rest)
  {
    assert forall i :: 0 <= i < |rest| ==> rest[i] == ([head] + rest)[i + 1];
  }

  lemma DeliverFirstTime(s: State, step: Step, cfg: Config)
    requires PlacesInv(s) && HoldingInv(s) && FirstTimeInv(s) && step.DeliverCopy? && Enabled(s, step, cfg)
    ensures FirstTimeInv(Next(s, step, cfg))
  {
    DeliverHolding(s, step, cfg);
    DeliverWaiting(s, step, cfg);
    ReadyKey(s, step.cid);
    OneFirstExtended(Holding(s), Delivery(s.nextTag, s.ready[step.cid]), s.delivered);
    hide PlacesInv, HoldingInv, OneFirst;
    FirstTimeGrows(s, Next(s, step, cfg), Delivery(s.nextTag, s.ready[step.cid]));
  }

  lemma FirstTimeGrows(s: State, s': State, d: Delivery)
    requires FirstTimeInv(s)
    requires s'.dispatched == s.dispatched && s'.published == s.published
    requires d.copy.cid in s.ready && d.copy == s.ready[d.copy.cid]
    requires s'.ready == s.ready - {d.copy.cid} && s'.delivered == s.delivered + {d.copy.cid}
    requires Holding(s') == Holding(s) + [d] && Waiting(s') == Waiting(s) + [d]
    requires OneFirst(Holding(s'))
    ensures FirstTimeInv(s')
  {
    hide Holding, Waiting, OneFirst;
  }

  lemma ReadyKey(s: State, cid: nat)
    requires PlacesInv(s) && cid in s.ready
    ensures s.ready[cid].cid == cid
  {
  }

  lemma DeliverWaiting(s: State, step: Step, cfg: Config)
    requires step.DeliverCopy? && Enabled(s, step, cfg)
    ensures Waiting(Next(s, step, cfg)) == Waiting(s) + [Delivery(s.nextTag, s.ready[step.cid])]
  {
  }

  lemma OneFirstExtended(ds: seq<Delivery>, d: Delivery, delivered: set<nat>)
    requires OneFirst(ds)
    requires forall e <- ds :: e.copy.cid in delivered
    requires d.copy.redelivered || d.copy.cid !in delivered
    ensures OneFirst(ds + [d])
  {
    assert forall i :: 0 <= i < |ds| ==> ds[i] in ds;
  }

  lemma FirstAgainstRest(head: Delivery, rest: seq<Delivery>)
    requires OneFirst([head] + rest) && !head.copy.redelivered
    ensures forall d <- rest :: d.copy.redelivered || d.copy.cid != head.copy.cid
  {
    var all := [head] + rest;
    forall i | 0 <= i < |rest| ensures rest[i].copy.redelivered || rest[i].copy.cid != head.copy.cid {
      assert all[0] == head && all[i + 1] == rest[i];
    }
  }

  lemma HeadIsFirst(s: State, cfg: Config)
    requires HoldingInv(s) && FirstTimeInv(s) && Enabled(s, Begin, cfg) && cfg.maxRedeliver == 1
    ensures
      var head := s.session.phase.plan[0];
      && !head.copy.redelivered && head.copy.cid !in s.dispatched && head.copy.cid in s.delivered
      && forall d <- Waiting(Next(s, Begin, cfg)) ::
           d in Waiting(s) && (d.copy.redelivered || d.copy.cid != head.copy.cid)
  {
    hide AgreeInv, DistinctTags, OneFirst, Attempted, Requeued, SettlingOrder;
    var head := s.session.phase.plan[0];
    HeadOfHolding(s);
    assert head in Holding(s);
    PoisonReason(head, 1);
    hide IsPoison;
    var rest := s.session.phase.plan[1..] + s.session.inflight;
    FirstAgainstRest(head, rest);
    assert Waiting(Next(s, Begin, cfg)) == rest;
  }

  lemma BeginFirstTime(s: State, cfg: Config)
    requires HoldingInv(s) && FirstTimeInv(s) && Enabled(s, Begin, cfg) && cfg.maxRedeliver == 1
    ensures FirstTimeInv(Next(s, Begin, cfg))
  {
    HeadIsFirst(s, cfg);
    hide HoldingInv, OneFirst, IsPoison;
    var s' := Next(s, Begin, cfg);
    assert Holding(s') == Holding(s);
    HeadDispatched(s, s', s.session.phase.plan[0].copy.cid);
  }

  lemma HeadDispatched(s: State, s': State, cid: nat)
    requires FirstTimeInv(s) && cid !in s.dispatched && cid in s.delivered
    requires s'.dispatched == s.dispatched + [cid] && s'.published == s.published
    requires s'.ready == s.ready && s'.delivered == s.delivered && Holding(s') == Holding(s)
    requires forall d <- Waiting(s') :: d in Waiting(s) && (d.copy.redelivered || d.copy.cid != cid)
    ensures FirstTimeInv(s')
  {
    hide Holding, Waiting, OneFirst;
  }

  lemma PlanFirstTime(s: State, cfg: Config)
    requires HoldingInv(s) && FirstTimeInv(s) && Enabled(s, BatchComplete, cfg)
    ensures FirstTimeInv(Next(s, BatchComplete, cfg))
  {
    hide IsPoison, SettlingOrder;
    var s' := Next(s, BatchComplete, cfg);
    var batch, inflight := s.session.phase.batch, s.session.inflight;
    var plan := SettlingOrder(batch, cfg.maxRedeliver);
    assert forall i :: 0 <= i < |batch| ==> batch[i] == Holding(s)[i];
    PlanDistinct(batch, cfg.maxRedeliver);
    Rearranged(batch, plan, inflight);
    OneFirstRearranged(batch + inflight, plan + inflight);
    hide DistinctTags, OneFirst;
    assert Waiting(s') == Holding(s') == plan + inflight;
    assert Waiting(s) == Holding(s) == batch + inflight;
    FirstTimeStays(s, s');
  }

  lemma OneFirstRearranged(before: seq<Delivery>, after: seq<Delivery>)
    requires OneFirst(before) && DistinctTags(after) && forall d <- after :: d in before
    ensures OneFirst(after)
  {
    forall i, j | 0 <= i < j < |after| && after[i].copy.cid == after[j].copy.cid
      ensures after[i].copy.redelivered || after[j].copy.redelivered
    {
      assert after[i] in before && after[j] in before && after[i] != after[j];
      var a :| 0 <= a < |before| && before[a] == after[i];
      var b :| 0 <= b < |before| && before[b] == after[j];
      if a < b {
        assert before[a].copy.redelivered || before[b].copy.redelivered;
      } else {
        assert before[b].copy.redelivered || before[a].copy.redelivered;
      }
    }
  }

  lemma StepKeepsFirstTime(s: State, step: Step, cfg: Config)
    requires cfg.maxRedeliver == 1
    requires PlacesInv(s) && HoldingInv(s) && FirstTimeInv(s) && Enabled(s, step, cfg)
    ensures FirstTimeInv(Next(s, step, cfg))
  {
    hide IsPoison, SettlingOrder, HoldingInv, PlacesInv, FirstTimeInv, Requeued, Attempted;
    match step
    case DeliverCopy(_) => DeliverFirstTime(s, step, cfg);
    case SettlePoison => AttemptedFirstTime(s, DeadLetter);
    case Settle(settlement) => AttemptedFirstTime(s, settlement);
    case Begin => BeginFirstTime(s, cfg);
    case BatchComplete => PlanFirstTime(s, cfg);
    case Publish(_) => PublishFirstTime(s, step, cfg);
    case GiveUp => LostFirstTime(s, step, cfg);
    case Crash => LostFirstTime(s, step, cfg);
    case LoseConnection => LostFirstTime(s, step, cfg);
    case _ => SessionFirstTime(s, step, cfg);
  }

  lemma SessionFirstTime(s: State, step: Step, cfg: Config)
    requires FirstTimeInv(s) && Enabled(s, step, cfg)
    requires step.Collect? || step.BatchDone? || step.Declare? || step.Open?
    ensures FirstTimeInv(Next(s, step, cfg))
  {
    hide OneFirst;
    var s' := Next(s, step, cfg);
    NothingHeld();
    if !step.Open? {
      assert Holding(s') == Holding(s) && Waiting(s') == Waiting(s);
    }
    FirstTimeStays(s, s');
  }

  lemma LostFirstTime(s: State, step: Step, cfg: Config)
    requires PlacesInv(s) && FirstTimeInv(s) && Enabled(s, step, cfg)
    requires step.GiveUp? || step.Crash? || step.LoseConnection?
    ensures FirstTimeInv(Next(s, step, cfg))
  {
    hide PlacesInv, OneFirst;
    var s' := Next(s, step, cfg);
    NothingHeld();
    RequeuedReady(s);
    if step.LoseConnection? {
      assert Holding(s') == Holding(s) && Waiting(s') == Waiting(s);
    }
    FirstTimeStays(s, s');
  }

  lemma NothingHeld()
    ensures OneFirst([])
  {
  }

  lemma PublishFirstTime(s: State, step: Step, cfg: Config)
    requires FirstTimeInv(s) && step.Publish? && Enabled(s, step, cfg)
    ensures FirstTimeInv(Next(s, step, cfg))
  {
    hide OneFirst;
    var s' := Next(s, step, cfg);
    assert Holding(s') == Holding(s) && Waiting(s') == Waiting(s);
    assert s.published !in s.delivered;
  }

  /** Dead-lettering is for what cannot be decoded and, when one redelivery is the limit,
      for what comes back. */
  ghost predicate DeadInv(s: State, cfg: Config) {
    forall cid <- s.dead :: s.dead[cid].body.None? || (cfg.maxRedeliver == 1 && s.dead[cid].redelivered)
  }

  lemma PoisonReason(d: Delivery, maxRedeliver: int)
    requires d.copy.xDeath.Absent?
    ensures 0 <= DeathCount(d.copy) <= 1
    ensures IsPoison(d, maxRedeliver) <==>
      d.copy.body.None? || (maxRedeliver == 1 && d.copy.redelivered)
  {
  }

  lemma StepKeepsDead(s: State, step: Step, cfg: Config)
    requires TagsInv(s) && DeadInv(s, cfg) && Enabled(s, step, cfg)
    ensures DeadInv(Next(s, step, cfg), cfg)
  {
    hide IsPoison, SettlingOrder, DistinctTags;
    if step.SettlePoison? {
      HeadOfHolding(s);
      assert s.session.phase.plan[0] in Holding(s);
      PoisonReason(s.session.phase.plan[0], cfg.maxRedeliver);
    }
  }

  // ----- every run -----

  ghost predicate Inv(s: State, cfg: Config) {
    && PlacesInv(s) && HoldingInv(s) && AttemptsInv(s) && DeadInv(s, cfg)
    && (cfg.maxRedeliver == 1 ==> FirstTimeInv(s))
  }

  lemma StepKeepsInv(s: State, step: Step, cfg: Config)
    requires Inv(s, cfg) && Enabled(s, step, cfg)
    ensures Inv(Next(s, step, cfg), cfg)
  {
    assert TagsInv(s);
    hide Next, Enabled, PlacesInv, TagsInv, AgreeInv, AttemptsInv, DeadInv, FirstTimeInv;
    StepKeepsPlaces(s, step, cfg);
    StepKeepsHands(s, step, cfg);
    StepKeepsDead(s, step, cfg);
    if cfg.maxRedeliver == 1 {
      StepKeepsFirstTime(s, step, cfg);
    }
  }

  lemma InitialInv(cfg: Config)
    ensures Inv(INITIAL, cfg)
  {
    assert Holding(INITIAL) == [];
    forall cid: nat ensures Places(INITIAL, cid) == 0 {
    }
  }

  lemma {:induction false} RunKeepsInv(steps: seq<Step>, cfg: Config)
    requires Exec(steps, cfg).Some?
    ensures Inv(Exec(steps, cfg).value, cfg)
    decreases |steps|
  {
    hide Inv;
    if steps == [] {
      InitialInv(cfg);
    } else {
      RunKeepsInv(steps[..|steps| - 1], cfg);
      StepKeepsInv(Exec(steps[..|steps| - 1], cfg).value, steps[|steps| - 1], cfg);
    }
  }

  lemma StepKeepsLimits(s: State, step: Step, cfg: Config)
    requires Enabled(s, step, cfg) && |s.unacked| <= cfg.prefetch
    requires s.session.Online? && s.session.phase.Collecting? ==> |s.session.phase.batch| <= cfg.batchSize
    ensures
      var s' := Next(s, step, cfg);
      && |s'.unacked| <= cfg.prefetch
      && (s'.session.Online? && s'.session.phase.Collecting? ==> |s'.session.phase.batch| <= cfg.batchSize)
  {
    hide IsPoison, SettlingOrder;
    match step
    case DeliverCopy(cid) => OneMoreUnacked(s.unacked, cid, Delivery(s.nextTag, s.ready[cid]));
    case SettlePoison => OneLessUnacked(s.unacked, s.session.phase.plan[0].copy.cid);
    case Settle(_) => OneLessUnacked(s.unacked, s.session.phase.plan[0].copy.cid);
    case _ =>
  }

  lemma OneMoreUnacked(unacked: map<nat, Delivery>, cid: nat, d: Delivery)
    ensures |unacked[cid := d]| <= |unacked| + 1
  {
    var more := unacked[cid := d];
    assert more.Keys == unacked.Keys + {cid};
    assert |more.Keys| == |more| && |unacked.Keys| == |unacked|;
  }

  lemma OneLessUnacked(unacked: map<nat, Delivery>, cid: nat)
    ensures |unacked - {cid}| <= |unacked|
  {
    var less := unacked - {cid};
    assert less.Keys == unacked.Keys - {cid};
    assert |less.Keys| == |less| && |unacked.Keys| == |unacked|;
  }

  /** Never more deliveries are unsettled than the prefetch limit allows, and no batch grows
      over the batch size. */
  lemma {:induction false} LimitsHold(steps: seq<Step>, cfg: Config)
    requires Exec(steps, cfg).Some?
    ensures
      var s := Exec(steps, cfg).value;
      && |s.unacked| <= cfg.prefetch
      && (s.session.Online? && s.session.phase.Collecting? ==> |s.session.phase.batch| <= cfg.batchSize)
    decreases |steps|
  {
    hide Next, Enabled;
    if steps != [] {
      LimitsHold(steps[..|steps| - 1], cfg);
      StepKeepsLimits(Exec(steps[..|steps| - 1], cfg).value, steps[|steps| - 1], cfg);
    }
  }

  /** In every reachable state each published copy is in exactly one of the four places,
      also after partial batches, lost connections and crashes. */
  lemma EveryCopyInOnePlace(steps: seq<Step>, cfg: Config)
    requires Exec(steps, cfg).Some?
    ensures
      var s := Exec(steps, cfg).value;
      forall cid: nat :: Places(s, cid) == if cid < s.published then 1 else 0
  {
    RunKeepsInv(steps, cfg);
  }

  /** No delivery is settled twice, and, unless a crash cut its batch off, every delivery of
      a complete batch has been settled once the session is collecting again. */
  lemma CompleteBatchesAreSettled(steps: seq<Step>, cfg: Config)
    requires Exec(steps, cfg).Some?
    ensures
      var s := Exec(steps, cfg).value;
      && (forall i, j :: 0 <= i < j < |s.attempts| ==> s.attempts[i].tag != s.attempts[j].tag)
      && (!(s.session.Online? && s.session.phase.Settling?) ==>
            forall tag <- s.batched :: AttemptedTag(s, tag) || tag in s.abandoned)
  {
    RunKeepsInv(steps, cfg);
  }

  /** The death count the consumer sees is 0 or 1; with any limit but 1 only messages that
      cannot be decoded are dead-lettered, however often a message fails. */
  lemma OnlyLimitOneDeadLetters(steps: seq<Step>, cfg: Config)
    requires Exec(steps, cfg).Some?
    ensures
      var s := Exec(steps, cfg).value;
      && (forall d <- Holding(s) :: 0 <= DeathCount(d.copy) <= 1)
      && (cfg.maxRedeliver != 1 ==>
            && (forall d <- Holding(s) :: IsPoison(d, cfg.maxRedeliver) <==> d.copy.body.None?)
            && (forall cid <- s.dead :: s.dead[cid].body.None?))
  {
    hide IsPoison, DeathCount;
    RunKeepsInv(steps, cfg);
    var s := Exec(steps, cfg).value;
    forall d <- Holding(s)
      ensures 0 <= DeathCount(d.copy) <= 1
      ensures cfg.maxRedeliver != 1 ==> (IsPoison(d, cfg.maxRedeliver) <==> d.copy.body.None?)
    {
      PoisonReason(d, cfg.maxRedeliver);
    }
  }

  /** With a limit of one redelivery each copy is dispatched at most once. */
  lemma DispatchedAtMostOnce(steps: seq<Step>, cfg: Config)
    requires Exec(steps, cfg).Some? && cfg.maxRedeliver == 1
    ensures Distinct(Exec(steps, cfg).value.dispatched)
  {
    RunKeepsInv(steps, cfg);
  }

  // ----- a message that always fails -----

  const ONE_FAILURE := [DeliverCopy(0), Collect, BatchComplete, Begin, Settle(Requeue), BatchDone]

  function FailingRun(body: Notification, times: nat): seq<Step> {
    if times == 0 then [Open, Publish(Some(body))] else FailingRun(body, times - 1) + ONE_FAILURE
  }

  /** The one copy waits in the queue and the consumer waits for it. */
  predicate Waits(s: State, body: Notification) {
    && s.ready.Keys == {0} && s.ready[0].body == Some(body) && s.ready[0].cid == 0 && s.ready[0].xDeath.Absent?
    && s.unacked == map[] && s.dead == map[]
    && s.session == Online(true, [], Collecting([]))
  }

  /** The copy waiting is dispatched when it is delivered: a limit of 1 lets it pass once. */
  predicate Passes(s: State, cfg: Config) {
    0 in s.ready && (cfg.maxRedeliver == 1 ==> !s.ready[0].redelivered)
  }

  lemma {:induction false} ExecConcat(start: State, steps: seq<Step>, more: seq<Step>, cfg: Config)
    requires ExecFrom(start, steps, cfg).Some?
    ensures ExecFrom(start, steps + more, cfg) == ExecFrom(ExecFrom(start, steps, cfg).value, more, cfg)
    decreases |more|
  {
    if more == [] {
      assert steps + more == steps;
    } else {
      assert (steps + more)[..|steps + more| - 1] == steps + more[..|more| - 1];
      ExecConcat(start, steps, more[..|more| - 1], cfg);
    }
  }

  lemma ExecOne(s: State, step: Step, rest: seq<Step>, cfg: Config)
    requires Enabled(s, step, cfg)
    ensures ExecFrom(s, [step] + rest, cfg) == ExecFrom(Next(s, step, cfg), rest, cfg)
  {
    assert [step][..0] == [];
    assert ExecFrom(s, [step], cfg) == Some(Next(s, step, cfg));
    ExecConcat(s, [step], rest, cfg);
  }

  lemma PlanOfOne(d: Delivery, maxRedeliver: int)
    ensures SettlingOrder([d], maxRedeliver) == [d]
  {
    hide IsPoison;
    assert [d][..0] == [];
    assert Select([d], maxRedeliver, IsPoison(d, maxRedeliver)) == [d];
    assert Select([d], maxRedeliver, !IsPoison(d, maxRedeliver)) == [];
  }

  /** The delivery is collected as a batch of its own and its dispatch begins. */
  lemma FailureBegins(s: State, body: Notification, cfg: Config)
    requires Waits(s, body) && Passes(s, cfg) && cfg.batchSize >= 1 && cfg.prefetch >= 1
    ensures
      var steps := [DeliverCopy(0), Collect, BatchComplete, Begin];
      var d := Delivery(s.nextTag, s.ready[0]);
      ExecFrom(s, steps, cfg).Some? &&
        var s4 := ExecFrom(s, steps, cfg).value;
        && s4.session == Online(true, [], Settling([d], true))
        && s4.ready == map[] && s4.unacked == map[0 := d] && s4.dead == map[]
        && s4.dispatched == s.dispatched + [0]
  {
    FailureCollected(s, body, cfg);
    var first, then_ := [DeliverCopy(0), Collect], [BatchComplete, Begin];
    var s2 := ExecFrom(s, first, cfg).value;
    FailurePlanned(s2, Delivery(s.nextTag, s.ready[0]), cfg);
    assert [DeliverCopy(0), Collect, BatchComplete, Begin] == first + then_;
    hide ExecFrom, Next, Enabled;
    ExecConcat(s, first, then_, cfg);
  }

  lemma FailureCollected(s: State, body: Notification, cfg: Config)
    requires Waits(s, body) && cfg.batchSize >= 1 && cfg.prefetch >= 1
    ensures
      var steps := [DeliverCopy(0), Collect];
      var d := Delivery(s.nextTag, s.ready[0]);
      ExecFrom(s, steps, cfg).Some? &&
        var s2 := ExecFrom(s, steps, cfg).value;
        && s2.session == Online(true, [], Collecting([d]))
        && s2.ready == map[] && s2.unacked == map[0 := d] && s2.dead == map[]
        && s2.dispatched == s.dispatched
  {
    var s1 := Next(s, DeliverCopy(0), cfg);
    assert s1.session.inflight == [Delivery(s.nextTag, s.ready[0])];
    ExecOne(s, DeliverCopy(0), [Collect], cfg);
    assert [DeliverCopy(0), Collect] == [DeliverCopy(0)] + [Collect];
    ExecOne(s1, Collect, [], cfg);
    assert [Collect] == [Collect] + [];
  }

  lemma FailurePlanned(s: State, d: Delivery, cfg: Config)
    requires s.session == Online(true, [], Collecting([d]))
    requires d.copy.cid == 0 && d.copy.body.Some? && d.copy.xDeath.Absent?
    requires cfg.maxRedeliver == 1 ==> !d.copy.redelivered
    ensures
      var steps := [BatchComplete, Begin];
      ExecFrom(s, steps, cfg).Some? &&
        var s2 := ExecFrom(s, steps, cfg).value;
        && s2.session == Online(true, [], Settling([d], true))
        && s2.ready == s.ready && s2.unacked == s.unacked && s2.dead == s.dead
        && s2.dispatched == s.dispatched + [0]
  {
    hide IsPoison, SettlingOrder;
    PoisonReason(d, cfg.maxRedeliver);
    PlanOfOne(d, cfg.maxRedeliver);
    var s1 := Next(s, BatchComplete, cfg);
    ExecOne(s, BatchComplete, [Begin], cfg);
    assert [BatchComplete, Begin] == [BatchComplete] + [Begin];
    ExecOne(s1, Begin, [], cfg);
    assert [Begin] == [Begin] + [];
  }

  lemma FailureReturns(s: State, body: Notification, d: Delivery, cfg: Config)
    requires s.session == Online(true, [], Settling([d], true))
    requires s.ready == map[] && s.unacked == map[0 := d] && s.dead == map[]
    requires d.copy.cid == 0 && d.copy.body == Some(body) && d.copy.xDeath.Absent?
    ensures
      var steps := [Settle(Requeue), BatchDone];
      ExecFrom(s, steps, cfg).Some? &&
        var s2 := ExecFrom(s, steps, cfg).value;
        Waits(s2, body) && s2.ready[0].redelivered && s2.dispatched == s.dispatched
  {
    hide IsPoison;
    var s1 := Next(s, Settle(Requeue), cfg);
    ExecOne(s, Settle(Requeue), [BatchDone], cfg);
    assert [Settle(Requeue), BatchDone] == [Settle(Requeue)] + [BatchDone];
    ExecOne(s1, BatchDone, [], cfg);
    assert [BatchDone] == [BatchDone] + [];
  }

  /** With any limit but 1, the reference configuration's 3 among them, a message whose
      dispatch always fails is dispatched as often as one likes and never reaches the
      dead-letter queue: going back to the queue leaves no `x-death` header to count. */
  lemma {:induction false} FailureNeverDeadLetters(body: Notification, times: nat, cfg: Config)
    requires cfg.maxRedeliver != 1 && cfg.batchSize >= 1 && cfg.prefetch >= 1
    ensures Exec(FailingRun(body, times), cfg).Some?
    ensures
      var s := Exec(FailingRun(body, times), cfg).value;
      Waits(s, body) && |s.dispatched| == times
  {
    hide Waits, ExecFrom;
    if times == 0 {
      FirstPublished(body, cfg);
    } else {
      FailureNeverDeadLetters(body, times - 1, cfg);
      WaitingPasses(Exec(FailingRun(body, times - 1), cfg).value, body, cfg);
      OneMoreFailure(Exec(FailingRun(body, times - 1), cfg).value, body, cfg);
      ExecConcat(INITIAL, FailingRun(body, times - 1), ONE_FAILURE, cfg);
    }
  }

  lemma OneMoreFailure(s: State, body: Notification, cfg: Config)
    requires Waits(s, body) && Passes(s, cfg) && cfg.batchSize >= 1 && cfg.prefetch >= 1
    ensures ExecFrom(s, ONE_FAILURE, cfg).Some?
    ensures
      var s' := ExecFrom(s, ONE_FAILURE, cfg).value;
      Waits(s', body) && s'.ready[0].redelivered && s'.dispatched == s.dispatched + [0]
  {
    var begin, end := [DeliverCopy(0), Collect, BatchComplete, Begin], [Settle(Requeue), BatchDone];
    assert ONE_FAILURE == begin + end;
    FailureBegins(s, body, cfg);
    var s4 := ExecFrom(s, begin, cfg).value;
    FailureReturns(s4, body, Delivery(s.nextTag, s.ready[0]), cfg);
    hide ExecFrom, Next, Enabled;
    ExecConcat(s, begin, end, cfg);
  }

  lemma FirstPublished(body: Notification, cfg: Config)
    ensures Exec(FailingRun(body, 0), cfg).Some?
    ensures
      var s := Exec(FailingRun(body, 0), cfg).value;
      Waits(s, body) && !s.ready[0].redelivered && s.dispatched == []
  {
    var publish := Publish(Some(body));
    ExecOne(INITIAL, Open, [publish], cfg);
    assert [Open, publish] == [Open] + [publish];
    var s1 := Next(INITIAL, Open, cfg);
    ExecOne(s1, publish, [], cfg);
    assert [publish] == [publish] + [];
  }

  // ----- when a message that can be decoded is dead-lettered -----

  const ONE_REFUSAL := [DeliverCopy(0), Collect, BatchComplete, SettlePoison]

  /** Under a limit of one, what comes back is poison. */
  lemma RedeliveryRefused(s: State, body: Notification, cfg: Config)
    requires Waits(s, body) && s.ready[0].redelivered
    requires cfg.maxRedeliver == 1 && cfg.batchSize >= 1 && cfg.prefetch >= 1
    ensures ExecFrom(s, ONE_REFUSAL, cfg).Some?
    ensures
      var s' := ExecFrom(s, ONE_REFUSAL, cfg).value;
      0 in s'.dead && s'.dead[0].body == Some(body) && s'.dispatched == s.dispatched
  {
    var first, then_ := [DeliverCopy(0), Collect], [BatchComplete, SettlePoison];
    assert ONE_REFUSAL == first + then_;
    FailureCollected(s, body, cfg);
    RefusalSettled(ExecFrom(s, first, cfg).value, Delivery(s.nextTag, s.ready[0]), cfg);
    hide ExecFrom, Next, Enabled;
    ExecConcat(s, first, then_, cfg);
  }

  lemma RefusalSettled(s: State, d: Delivery, cfg: Config)
    requires s.session == Online(true, [], Collecting([d])) && s.unacked == map[0 := d]
    requires d.copy.cid == 0 && d.copy.xDeath.Absent? && d.copy.redelivered && cfg.maxRedeliver == 1
    ensures
      var steps := [BatchComplete, SettlePoison];
      ExecFrom(s, steps, cfg).Some? &&
        var s2 := ExecFrom(s, steps, cfg).value;
        0 in s2.dead && s2.dead[0].body == d.copy.body && s2.dispatched == s.dispatched
  {
    hide IsPoison, SettlingOrder;
    PoisonReason(d, cfg.maxRedeliver);
    PlanOfOne(d, cfg.maxRedeliver);
    var s1 := Next(s, BatchComplete, cfg);
    ExecOne(s, BatchComplete, [SettlePoison], cfg);
    assert [BatchComplete, SettlePoison] == [BatchComplete] + [SettlePoison];
    ExecOne(s1, SettlePoison, [], cfg);
    assert [SettlePoison] == [SettlePoison] + [];
  }

  /** The run ends with a copy of the message in the dead-letter queue. */
  ghost predicate DeadLetters(steps: seq<Step>, cid: nat, body: Notification, cfg: Config) {
    Exec(steps, cfg).Some? &&
      var s := Exec(steps, cfg).value;
      cid in s.dead && s.dead[cid].body == Some(body)
  }

  /** A message that can be decoded reaches the dead-letter queue in some run exactly when the
      limit is one redelivery; a single failed dispatch is then enough. */
  lemma DeadLettersIff(body: Notification, cfg: Config)
    requires cfg.batchSize >= 1 && cfg.prefetch >= 1
    ensures (exists steps, cid: nat :: DeadLetters(steps, cid, body, cfg)) <==> cfg.maxRedeliver == 1
  {
    hide ExecFrom, Waits;
    if cfg.maxRedeliver == 1 {
      FirstPublished(body, cfg);
      var s0 := Exec(FailingRun(body, 0), cfg).value;
      WaitingPasses(s0, body, cfg);
      OneMoreFailure(s0, body, cfg);
      ExecConcat(INITIAL, FailingRun(body, 0), ONE_FAILURE, cfg);
      var s1 := Exec(FailingRun(body, 1), cfg).value;
      RedeliveryRefused(s1, body, cfg);
      ExecConcat(INITIAL, FailingRun(body, 1), ONE_REFUSAL, cfg);
      assert DeadLetters(FailingRun(body, 1) + ONE_REFUSAL, 0, body, cfg);
    } else {
      forall steps, cid: nat | DeadLetters(steps, cid, body, cfg) ensures false {
        OnlyLimitOneDeadLetters(steps, cfg);
      }
    }
  }

  const ONE_LOSS := [DeliverCopy(0), LoseConnection, GiveUp, Open]

  /** Delivered, and returned by a lost connection before its dispatch. */
  lemma LostBeforeDispatch(s: State, body: Notification, cfg: Config)
    requires Waits(s, body) && cfg.prefetch >= 1
    ensures ExecFrom(s, ONE_LOSS, cfg).Some?
    ensures
      var s' := ExecFrom(s, ONE_LOSS, cfg).value;
      Waits(s', body) && s'.ready[0].redelivered && s'.dispatched == s.dispatched
  {
    DeliveryLost(s, body, cfg);
    hide ExecFrom, Enabled, Next;
    var s1 := Next(s, DeliverCopy(0), cfg);
    ExecTwo(s, DeliverCopy(0), LoseConnection, cfg);
    ExecTwo(Next(s1, LoseConnection, cfg), GiveUp, Open, cfg);
    ExecConcat(s, [DeliverCopy(0), LoseConnection], [GiveUp, Open], cfg);
    assert ONE_LOSS == [DeliverCopy(0), LoseConnection] + [GiveUp, Open];
  }

  lemma ExecTwo(s: State, a: Step, b: Step, cfg: Config)
    requires Enabled(s, a, cfg) && Enabled(Next(s, a, cfg), b, cfg)
    ensures ExecFrom(s, [a, b], cfg) == Some(Next(Next(s, a, cfg), b, cfg))
  {
    hide Enabled, Next;
    ExecOne(s, a, [b], cfg);
    assert [a, b] == [a] + [b];
    ExecOne(Next(s, a, cfg), b, [], cfg);
    assert [b] == [b] + [];
  }

  lemma DeliveryLost(s: State, body: Notification, cfg: Config)
    requires Waits(s, body) && cfg.prefetch >= 1
    ensures Enabled(s, DeliverCopy(0), cfg)
    ensures
      var s1 := Next(s, DeliverCopy(0), cfg);
      Enabled(s1, LoseConnection, cfg) &&
        var s2 := Next(s1, LoseConnection, cfg);
        Enabled(s2, GiveUp, cfg) &&
          var s3 := Next(s2, GiveUp, cfg);
          Enabled(s3, Open, cfg) &&
            var s4 := Next(s3, Open, cfg);
            Waits(s4, body) && s4.ready[0].redelivered && s4.dispatched == s.dispatched
  {
    DeliveryTaken(s, body, cfg);
    var s1 := Next(s, DeliverCopy(0), cfg);
    LossReturns(s1, Delivery(s.nextTag, s.ready[0]), cfg);
    var s2 := Next(s1, LoseConnection, cfg);
    SessionReplaced(s2, body, cfg);
  }

  lemma DeliveryTaken(s: State, body: Notification, cfg: Config)
    requires Waits(s, body) && cfg.prefetch >= 1
    ensures Enabled(s, DeliverCopy(0), cfg)
    ensures
      var s1, d := Next(s, DeliverCopy(0), cfg), Delivery(s.nextTag, s.ready[0]);
      && s1.session == Online(true, [d], Collecting([])) && s1.ready == map[] && s1.unacked == map[0 := d]
      && s1.dead == map[] && s1.dispatched == s.dispatched
  {
  }

  lemma LossReturns(s: State, d: Delivery, cfg: Config)
    requires s.session == Online(true, [d], Collecting([])) && s.ready == map[] && s.unacked == map[0 := d]
    ensures Enabled(s, LoseConnection, cfg)
    ensures
      var s' := Next(s, LoseConnection, cfg);
      && s'.session == Online(false, [d], Collecting([])) && s'.unacked == map[]
      && s'.ready == map[0 := d.copy.(redelivered := true)] && s'.dead == s.dead && s'.dispatched == s.dispatched
  {
  }

  lemma SessionReplaced(s: State, body: Notification, cfg: Config)
    requires s.session.Online? && s.session.phase.Collecting? && s.unacked == map[] && s.dead == map[]
    requires s.ready.Keys == {0} && s.ready[0].body == Some(body) && s.ready[0].cid == 0 && s.ready[0].xDeath.Absent?
    ensures Enabled(s, GiveUp, cfg)
    ensures
      var s1 := Next(s, GiveUp, cfg);
      Enabled(s1, Open, cfg) &&
        var s' := Next(s1, Open, cfg);
        Waits(s', body) && s'.ready == s.ready && s'.dispatched == s.dispatched
  {
    assert s.ready + map[] == s.ready;
  }

  /** The run dead-letters a copy of the message that was never dispatched. */
  ghost predicate DeadLettersUntried(steps: seq<Step>, cid: nat, body: Notification, cfg: Config) {
    DeadLetters(steps, cid, body, cfg) && cid !in Exec(steps, cfg).value.dispatched
  }

  /** Not even one failed dispatch is needed: a message that can be decoded is dead-lettered
      without ever being dispatched in some run exactly when the limit is one redelivery. */
  lemma DeadLettersUntriedIff(body: Notification, cfg: Config)
    requires cfg.batchSize >= 1 && cfg.prefetch >= 1
    ensures (exists steps, cid: nat :: DeadLettersUntried(steps, cid, body, cfg)) <==> cfg.maxRedeliver == 1
  {
    hide ExecFrom, Waits, DeadLetters;
    if cfg.maxRedeliver == 1 {
      var steps := UntriedRun(body, cfg);
      assert DeadLettersUntried(steps, 0, body, cfg);
    } else {
      DeadLettersIff(body, cfg);
    }
  }

  lemma UntriedRun(body: Notification, cfg: Config) returns (steps: seq<Step>)
    requires cfg.maxRedeliver == 1 && cfg.batchSize >= 1 && cfg.prefetch >= 1
    ensures DeadLettersUntried(steps, 0, body, cfg)
  {
    hide ExecFrom, Waits;
    var start := FailingRun(body, 0);
    FirstPublished(body, cfg);
    var s0 := Exec(start, cfg).value;
    LostBeforeDispatch(s0, body, cfg);
    ExecConcat(INITIAL, start, ONE_LOSS, cfg);
    RedeliveryRefused(ExecFrom(s0, ONE_LOSS, cfg).value, body, cfg);
    ExecConcat(INITIAL, start + ONE_LOSS, ONE_REFUSAL, cfg);
    steps := start + ONE_LOSS + ONE_REFUSAL;
  }

  lemma WaitingPasses(s: State, body: Notification, cfg: Config)
    requires Waits(s, body) && (cfg.maxRedeliver == 1 ==> !s.ready[0].redelivered)
    ensures Passes(s, cfg)
  {
  }
}
