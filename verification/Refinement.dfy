/** Dispatching in steps, with anything happening to the tables in between, comes to what
    the `Dispatch` method computes in one go (internal/dispatch/dispatcher.go). */
module Refinement {
  import opened GoErrors
  import opened Domain
  import opened Preferences
  import opened Dispatch
  import opened Acknowledge
  import Job
  import Targets
  import opened Inbox
  import opened Rows

  /** Both say the same about everything that a dispatch reads. */
  ghost predicate Agrees(w: World, env: Job.Env) {
    && w.isUUID == env.isUUID && w.registered == env.registered
    && (forall t :: w.subscribers(t).Ok? ==> w.subscribers(t).value == env.subscribers(t))
    && (forall r :: w.preferences(r).Ok? ==> w.preferences(r).value == env.preferences(r))
    && (forall t :: w.subscribers(t).Err? ==> !w.subscribers(t).error.Nil?)
    && (forall r :: w.preferences(r).Err? ==> !w.preferences(r).error.Nil?)
    && (forall n :: w.upsert(n).Err? ==> !w.upsert(n).error.Nil?)
  }

  function ErrorOf<T>(r: Result<T>): Error {
    match r
    case Ok(_) => Nil
    case Err(e) => e
  }

  /** The notification as the providers see it, with the id it was stored under. */
  function SentAs(job: Job.Job, id: string): Notification {
    Normalized(job.n).(id := id)
  }

  /** The step comes back with the world's answer. */
  predicate AnsweredBy(job: Job.Job, step: Job.Step, db: Job.Database, w: World, env: Job.Env)
    requires Job.Enabled(job, step, db, env)
  {
    var n := Normalized(job.n);
    match step
    case Persist(id, _, e, _) => e == ErrorOf(w.upsert(n)) && (w.upsert(n).Ok? ==> id == w.upsert(n).value)
    case ListRecipients(e) => n.recipients == [] ==> e == ErrorOf(w.subscribers(n.topic))
    case LoadPreferences(e) => e == ErrorOf(w.preferences(job.stage.todo[0].recipient))
    case SendNext(_, e, _) => e == w.send(SentAs(job, job.stage.id), job.stage.todo[0].call)
    case _ => true
  }

  function CallsOf(work: Job.Work, m: Notification, w: World): seq<SendCall> {
    match work
    case Load(r) => CallsTo(r, m, w)
    case Send(call) => [call]
  }

  function ErrorsOf(work: Job.Work, m: Notification, w: World): seq<Error> {
    match work
    case Load(r) => FailuresTo(r, m, w)
    case Send(call) => [CallError(call, m, w)]
  }

  /** The sends and errors still to come. */
  function CallsAhead(todo: seq<Job.Work>, m: Notification, w: World): seq<SendCall> {
    if todo == [] then [] else CallsOf(todo[0], m, w) + CallsAhead(todo[1..], m, w)
  }

  function ErrorsAhead(todo: seq<Job.Work>, m: Notification, w: World): seq<Error> {
    if todo == [] then [] else ErrorsOf(todo[0], m, w) + ErrorsAhead(todo[1..], m, w)
  }

  /** What is done and what is ahead add up to the dispatch. */
  ghost predicate OnTrack(job: Job.Job, w: World) {
    var n := Normalized(job.n);
    var made := Job.CallsIn(job.sent);
    var valid := Violation(n, w.isUUID).Nil?;
    match job.stage
    case Begun => made == []
    case Validated => made == [] && valid
    case Stored(id) => made == [] && valid && w.upsert(n) == Ok(id)
    case Sending(id, todo, err) =>
      var m := SentAs(job, id);
      && JoinAll(err, ErrorsAhead(todo, m, w)) == DispatchError(job.n, w)
      && made + CallsAhead(todo, m, w) == DispatchCalls(job.n, w)
    case Finished(_, err) => err == DispatchError(job.n, w) && made == DispatchCalls(job.n, w)
  }

  lemma {:induction false} AheadConcat(todo: seq<Job.Work>, more: seq<Job.Work>, m: Notification, w: World)
    ensures CallsAhead(todo + more, m, w) == CallsAhead(todo, m, w) + CallsAhead(more, m, w)
    ensures ErrorsAhead(todo + more, m, w) == ErrorsAhead(todo, m, w) + ErrorsAhead(more, m, w)
  {
    hide CallsOf, ErrorsOf;
    if todo == [] {
      assert todo + more == more;
    } else {
      assert (todo + more)[1..] == todo[1..] + more;
      AheadConcat(todo[1..], more, m, w);
    }
  }

  lemma OneAhead(work: Job.Work, m: Notification, w: World)
    ensures CallsAhead([work], m, w) == CallsOf(work, m, w)
    ensures ErrorsAhead([work], m, w) == ErrorsOf(work, m, w)
  {
    hide CallsOf, ErrorsOf;
    assert [work][1..] == [];
  }

  lemma {:induction false} LoadsAhead(recipients: seq<string>, m: Notification, w: World)
    ensures CallsAhead(Job.LoadWork(recipients), m, w) == Calls(recipients, m, w)
    ensures ErrorsAhead(Job.LoadWork(recipients), m, w) == Failures(recipients, m, w)
    decreases |recipients|
  {
    hide CallsTo, FailuresTo;
    if recipients != [] {
      var init, last := recipients[..|recipients| - 1], recipients[|recipients| - 1];
      LoadsAhead(init, m, w);
      assert Job.LoadWork(recipients) == Job.LoadWork(init) + [Job.Load(last)];
      hide CallsAhead, ErrorsAhead, Job.LoadWork;
      AheadConcat(Job.LoadWork(init), [Job.Load(last)], m, w);
      OneAhead(Job.Load(last), m, w);
    }
  }

  lemma {:induction false} SendsAhead(calls: seq<SendCall>, m: Notification, w: World)
    ensures CallsAhead(Job.SendWork(calls), m, w) == calls
    ensures ErrorsAhead(Job.SendWork(calls), m, w) == CallErrors(calls, m, w)
    decreases |calls|
  {
    hide CallError;
    if calls != [] {
      var init, last := calls[..|calls| - 1], calls[|calls| - 1];
      SendsAhead(init, m, w);
      assert Job.SendWork(calls) == Job.SendWork(init) + [Job.Send(last)];
      assert CallErrors(calls, m, w) == CallErrors(init, m, w) + [CallError(last, m, w)];
      hide CallsAhead, ErrorsAhead, Job.SendWork;
      AheadConcat(Job.SendWork(init), [Job.Send(last)], m, w);
      OneAhead(Job.Send(last), m, w);
    }
  }

  lemma JoinFirst(acc: Error, e: Error, es: seq<Error>)
    ensures JoinAll(acc, [e] + es) == JoinAll(JoinOne(acc, e), es)
  {
    JoinAllConcat(acc, [e], es);
    assert [e][..0] == [];
  }

  lemma PersistOnTrack(job: Job.Job, step: Job.Step, db: Job.Database, w: World, env: Job.Env)
    requires Agrees(w, env) && OnTrack(job, w)
    requires step.Persist? && Job.Enabled(job, step, db, env) && AnsweredBy(job, step, db, w, env)
    ensures OnTrack(Job.Next(job, step, db, env).0, w)
  {
    hide Normalized, Violation, Job.CallsIn;
  }

  lemma ListOnTrack(job: Job.Job, e: Error, db: Job.Database, w: World, env: Job.Env)
    requires Agrees(w, env) && OnTrack(job, w)
    requires Job.Enabled(job, Job.ListRecipients(e), db, env) && AnsweredBy(job, Job.ListRecipients(e), db, w, env)
    ensures OnTrack(Job.Next(job, Job.ListRecipients(e), db, env).0, w)
  {
    hide Normalized, Violation, Job.CallsIn, Job.LoadWork, CallsAhead, ErrorsAhead, JoinAll;
    if e.Nil? {
      LoadsAhead(Job.RecipientsOf(Normalized(job.n), env), SentAs(job, job.stage.id), w);
    }
  }

  lemma LoadOnTrack(job: Job.Job, e: Error, db: Job.Database, w: World, env: Job.Env)
    requires Agrees(w, env) && OnTrack(job, w)
    requires Job.Enabled(job, Job.LoadPreferences(e), db, env) && AnsweredBy(job, Job.LoadPreferences(e), db, w, env)
    ensures OnTrack(Job.Next(job, Job.LoadPreferences(e), db, env).0, w)
  {
    hide Normalized, Violation, Job.CallsIn, Job.SendWork, JoinAll, DispatchError, DispatchCalls, Resolved,
         WithProvider;
    var Sending(id, todo, err) := job.stage;
    var m, r := SentAs(job, id), todo[0].recipient;
    if e.Nil? {
      var calls := CallsTo(r, m, w);
      assert calls == Job.CallsFor(r, Normalized(job.n), env);
      SendsAhead(calls, m, w);
      AheadConcat(Job.SendWork(calls), todo[1..], m, w);
    } else {
      JoinFirst(err, Wrap("resolve channels for " + r, e), ErrorsAhead(todo[1..], m, w));
    }
  }

  lemma SendOnTrack(job: Job.Job, step: Job.Step, db: Job.Database, w: World, env: Job.Env)
    requires Agrees(w, env) && OnTrack(job, w)
    requires step.SendNext? && Job.Enabled(job, step, db, env) && AnsweredBy(job, step, db, w, env)
    ensures OnTrack(Job.Next(job, step, db, env).0, w)
  {
    hide Normalized, Violation, JoinAll, DispatchError, DispatchCalls, Job.SendOutcome, Job.CallsIn;
    var Sending(id, todo, err) := job.stage;
    var m, call := SentAs(job, id), todo[0].call;
    JoinFirst(err, CallError(call, m, w), ErrorsAhead(todo[1..], m, w));
    CallsAppended(job.sent, Job.Sent(call, step.error));
    var made := Job.CallsIn(job.sent);
    assert made + [call] + CallsAhead(todo[1..], m, w) == made + CallsAhead(todo, m, w);
  }

  lemma CallsAppended(sent: seq<Job.Sent>, x: Job.Sent)
    ensures Job.CallsIn(sent + [x]) == Job.CallsIn(sent) + [x.call]
  {
  }

  lemma StepOnTrack(job: Job.Job, step: Job.Step, db: Job.Database, w: World, env: Job.Env)
    requires Agrees(w, env) && OnTrack(job, w)
    requires Job.Enabled(job, step, db, env) && AnsweredBy(job, step, db, w, env)
    ensures OnTrack(Job.Next(job, step, db, env).0, w)
  {
    hide Normalized, Violation, JoinAll, CallsAhead, ErrorsAhead, Job.CallsIn;
    match step
    case Validate =>
    case Persist(_, _, _, _) => PersistOnTrack(job, step, db, w, env);
    case ListRecipients(e) => ListOnTrack(job, e, db, w, env);
    case LoadPreferences(e) => LoadOnTrack(job, e, db, w, env);
    case SendNext(_, _, _) => SendOnTrack(job, step, db, w, env);
    case Finish => FinishOnTrack(job, db, w, env);
  }

  lemma FinishOnTrack(job: Job.Job, db: Job.Database, w: World, env: Job.Env)
    requires OnTrack(job, w) && Job.Enabled(job, Job.Finish, db, env)
    ensures OnTrack(Job.Next(job, Job.Finish, db, env).0, w)
  {
    hide Normalized, Violation, DispatchError, DispatchCalls, Job.CallsIn;
    var made := Job.CallsIn(job.sent);
    assert made + [] == made;
  }

  // ----- a dispatch among other things -----

  predicate MovesBy(job: Job.Job, job': Job.Job, step: Job.Step, db: Job.Database, w: World, env: Job.Env) {
    && Job.Enabled(job, step, db, env) && AnsweredBy(job, step, db, w, env)
    && job' == Job.Next(job, step, db, env).0
  }

  /** A step on whatever database it finds: others may have changed it since the last step. */
  ghost predicate Moves(job: Job.Job, job': Job.Job, w: World, env: Job.Env) {
    exists step, db :: MovesBy(job, job', step, db, w, env)
  }

  ghost predicate IsDispatch(run: seq<Job.Job>, n: Notification, w: World, env: Job.Env) {
    && (run != [] ==> run[0] == Job.Started(n))
    && forall i :: 0 <= i < |run| - 1 ==> Moves(run[i], run[i + 1], w, env)
  }

  lemma MoveStaysOnTrack(job: Job.Job, job': Job.Job, w: World, env: Job.Env)
    requires Agrees(w, env) && OnTrack(job, w) && Moves(job, job', w, env)
    ensures OnTrack(job', w) && job'.n == job.n
  {
    hide OnTrack, Agrees, Job.Enabled, Job.Next, AnsweredBy;
    var step, db :| MovesBy(job, job', step, db, w, env);
    StepOnTrack(job, step, db, w, env);
    Job.SameNotification(job, step, db, env);
  }

  lemma {:induction false} RunStaysOnTrack(run: seq<Job.Job>, n: Notification, w: World, env: Job.Env)
    requires Agrees(w, env) && run != [] && IsDispatch(run, n, w, env)
    ensures OnTrack(run[|run| - 1], w) && run[|run| - 1].n == n
    decreases |run|
  {
    hide OnTrack, Agrees, Moves;
    if |run| == 1 {
      StartsOnTrack(n, w);
    } else {
      RunStaysOnTrack(run[..|run| - 1], n, w, env);
      assert Moves(run[|run| - 2], run[|run| - 2 + 1], w, env);
      MoveStaysOnTrack(run[|run| - 2], run[|run| - 1], w, env);
    }
  }

  lemma StartsOnTrack(n: Notification, w: World)
    ensures OnTrack(Job.Started(n), w)
  {
  }

  /** However a dispatch is interleaved with users and with changes to the tables, it ends
      with the error that `Dispatch` returns and has made the sends that `Dispatch` makes,
      in the same order. */
  lemma InterleavedDispatch(run: seq<Job.Job>, n: Notification, w: World, env: Job.Env)
    requires Agrees(w, env) && run != [] && IsDispatch(run, n, w, env)
    requires run[|run| - 1].stage.Finished?
    ensures run[|run| - 1].stage.err == DispatchError(n, w)
    ensures Job.CallsIn(run[|run| - 1].sent) == DispatchCalls(n, w)
  {
    RunStaysOnTrack(run, n, w, env);
  }

  // ----- a dispatch can always be carried through -----

  /** Answers that storage and providers do give: see `Job.Enabled`. */
  ghost predicate Plausible(w: World, env: Job.Env) {
    && SaneWorld(w)
    && (forall sent, call: SendCall :: Job.Refused(call, sent, env) ==> !PermanentPush(w.send(sent, call)))
    && (forall sent, call: SendCall :: call.channel != WEB_PUSH ==> Job.NilOrStorage(w.send(sent, call)))
  }

  predicate IdFits(n: Notification, db: Job.Database, w: World, env: Job.Env) {
    var m := Normalized(n);
    w.upsert(m).Ok? ==> Job.IdStored(w.upsert(m).value, m, db, env) && Storable(ContentOf(m))
  }

  /** The step of the world's answer, with rows written whenever there is no error. */
  function NextStep(job: Job.Job, w: World): Job.Step
    requires !job.stage.Finished?
  {
    var n := Normalized(job.n);
    match job.stage
    case Begun => Job.Validate
    case Validated =>
      var r := w.upsert(n);
      Job.Persist(if r.Ok? then r.value else "", r.Ok?, ErrorOf(r), 0)
    case Stored(_) => Job.ListRecipients(if n.recipients != [] then Nil else ErrorOf(w.subscribers(n.topic)))
    case Sending(id, todo, _) =>
      if todo == [] then Job.Finish
      else
        match todo[0]
        case Load(r) => Job.LoadPreferences(ErrorOf(w.preferences(r)))
        case Send(call) =>
          var e := w.send(SentAs(job, id), call);
          Job.SendNext(e.Nil?, e, 0)
  }

  function Loads(todo: seq<Job.Work>): nat {
    if todo == [] then 0 else (if todo[0].Load? then 1 else 0) + Loads(todo[1..])
  }

  function StagesLeft(stage: Job.Stage): nat {
    match stage
    case Begun => 4
    case Validated => 3
    case Stored(_) => 2
    case Sending(_, _, _) => 1
    case Finished(_, _) => 0
  }

  function TodoOf(stage: Job.Stage): seq<Job.Work> {
    if stage.Sending? then stage.todo else []
  }

  lemma {:induction false} SendsLoadNothing(calls: seq<SendCall>, rest: seq<Job.Work>)
    ensures Loads(Job.SendWork(calls) + rest) == Loads(rest)
  {
    if calls == [] {
      assert Job.SendWork(calls) + rest == rest;
    } else {
      SendsLoadNothing(calls[1..], rest);
      assert (Job.SendWork(calls) + rest)[1..] == Job.SendWork(calls[1..]) + rest;
    }
  }

  ghost predicate Closer(a: Job.Stage, b: Job.Stage) {
    || StagesLeft(a) < StagesLeft(b)
    || (StagesLeft(a) == StagesLeft(b) && Loads(TodoOf(a)) < Loads(TodoOf(b)))
    || (StagesLeft(a) == StagesLeft(b) && Loads(TodoOf(a)) == Loads(TodoOf(b)) && |TodoOf(a)| < |TodoOf(b)|)
  }

  lemma NextStepIsEnabled(job: Job.Job, db: Job.Database, w: World, env: Job.Env)
    requires Plausible(w, env) && (job.stage.Validated? ==> IdFits(job.n, db, w, env)) && !job.stage.Finished?
    ensures Job.Enabled(job, NextStep(job, w), db, env)
    ensures AnsweredBy(job, NextStep(job, w), db, w, env)
  {
    hide Normalized, WellBuilt, SendFree, Storable, Job.Refused, PermanentPush;
    NilIsPermanentPush();
    if job.stage.Sending? && job.stage.todo != [] && job.stage.todo[0].Send? {
      RefusedWhateverId(job.stage.todo[0].call, Normalized(job.n), job.stage.id, env);
    }
  }

  lemma RefusedWhateverId(call: SendCall, n: Notification, id: string, env: Job.Env)
    ensures Job.Refused(call, n.(id := id), env) <==> Job.Refused(call, n, env)
  {
    hide Targets.Resolvable;
    assert n.(id := id).(id := "") == n.(id := "");
  }

  lemma NextStepIsCloser(job: Job.Job, db: Job.Database, w: World, env: Job.Env)
    requires Plausible(w, env) && !job.stage.Finished?
    requires Job.Enabled(job, NextStep(job, w), db, env)
    ensures Closer(Job.Next(job, NextStep(job, w), db, env).0.stage, job.stage)
  {
    hide Normalized, Violation, Plausible, Job.CallsFor, Job.SendWork, Job.LoadWork, Job.Enabled;
    if job.stage.Sending? && job.stage.todo != [] && job.stage.todo[0].Load? {
      SendsLoadNothing(Job.CallsFor(job.stage.todo[0].recipient, Normalized(job.n), env), job.stage.todo[1..]);
    }
  }

  /** Wherever a dispatch stands, answers of the world take it to its end. */
  lemma {:induction false} DispatchFinishes(before: seq<Job.Job>, n: Notification, db: Job.Database, w: World,
                                            env: Job.Env)
    returns (run: seq<Job.Job>)
    requires Agrees(w, env) && Plausible(w, env) && IdFits(n, db, w, env)
    requires before != [] && IsDispatch(before, n, w, env)
    ensures before <= run && IsDispatch(run, n, w, env) && run[|run| - 1].stage.Finished?
    decreases
      StagesLeft(before[|before| - 1].stage),
      Loads(TodoOf(before[|before| - 1].stage)),
      |TodoOf(before[|before| - 1].stage)|
  {
    hide Agrees, Plausible, IdFits, Job.Enabled, Job.Next, AnsweredBy, NextStep, OnTrack, Loads, Moves;
    var job := before[|before| - 1];
    if job.stage.Finished? {
      return before;
    }
    RunStaysOnTrack(before, n, w, env);
    NextStepIsEnabled(job, db, w, env);
    NextStepIsCloser(job, db, w, env);
    var job' := Job.Next(job, NextStep(job, w), db, env).0;
    StepMoves(job, NextStep(job, w), db, w, env);
    run := DispatchFinishes(before + [job'], n, db, w, env);
  }

  lemma StepMoves(job: Job.Job, step: Job.Step, db: Job.Database, w: World, env: Job.Env)
    requires Job.Enabled(job, step, db, env) && AnsweredBy(job, step, db, w, env)
    ensures Moves(job, Job.Next(job, step, db, env).0, w, env)
  {
    hide Job.Enabled, AnsweredBy, Job.Next;
    assert MovesBy(job, Job.Next(job, step, db, env).0, step, db, w, env);
  }

  // ----- what an acknowledged dispatch has sent, whoever answers -----

  /** A world of these preferences and subscribers where nothing fails. */
  function Granted(env: Job.Env): World {
    World(env.isUUID, (n: Notification) => Ok(n.id), t => Ok(env.subscribers(t)), r => Ok(env.preferences(r)),
          env.registered, (n, call) => Nil)
  }

  /** All the sends that a dispatch owes, in order. */
  function DueCalls(n: Notification, env: Job.Env): seq<SendCall> {
    Calls(Job.RecipientsOf(n, env), n, Granted(env))
  }

  /** Every answer was nil or nothing but permanent web push failures, so no call was one
      that always fails. */
  ghost predicate AllClean(sent: seq<Job.Sent>, n: Notification, env: Job.Env) {
    forall x <- sent :: PermanentPush(x.error) && !Job.Refused(x.call, n, env)
  }

  /** As long as the error allows an acknowledgement, no answer forbids it, and the sends made
      and those ahead are all that are due. */
  ghost predicate SentInv(job: Job.Job, env: Job.Env) {
    var n := Normalized(job.n);
    match job.stage
    case Begun => job.sent == []
    case Validated => job.sent == []
    case Stored(_) => job.sent == []
    case Sending(_, todo, err) =>
      PermanentPush(err) ==>
        && AllClean(job.sent, n, env)
        && Job.CallsIn(job.sent) + CallsAhead(todo, n, Granted(env)) == DueCalls(n, env)
    case Finished(_, err) =>
      Acknowledged(err) ==> AllClean(job.sent, n, env) && Job.CallsIn(job.sent) == DueCalls(n, env)
  }

  lemma LoadKeepsSent(job: Job.Job, e: Error, db: Job.Database, env: Job.Env)
    requires SentInv(job, env) && Job.Enabled(job, Job.LoadPreferences(e), db, env)
    ensures SentInv(Job.Next(job, Job.LoadPreferences(e), db, env).0, env)
  {
    hide Normalized, PermanentPush, StorageError, Resolved, WithProvider, DueCalls, AllClean, Job.SendWork;
    var n := Normalized(job.n);
    var Sending(id, todo, err) := job.stage;
    var r := todo[0].recipient;
    if e.Nil? {
      var calls := CallsTo(r, n, Granted(env));
      assert calls == Job.CallsFor(r, n, env);
      SendsAhead(calls, n, Granted(env));
      AheadConcat(Job.SendWork(calls), todo[1..], n, Granted(env));
    } else {
      WrappedIsNotPermanentPush("resolve channels for " + r, e);
      Job.CleanStays(err, Wrap("resolve channels for " + r, e));
    }
  }

  lemma SendKeepsSent(job: Job.Job, step: Job.Step, db: Job.Database, env: Job.Env)
    requires SentInv(job, env) && step.SendNext? && Job.Enabled(job, step, db, env)
    ensures SentInv(Job.Next(job, step, db, env).0, env)
  {
    hide Normalized, StorageError, DueCalls, Job.CallsIn, Job.SendOutcome, Job.Refused;
    var n := Normalized(job.n);
    var Sending(id, todo, err) := job.stage;
    var call := todo[0].call;
    Job.CleanStays(err, WrapCall(call, step.error));
    WrapKeepsClean(call, step.error);
    hide PermanentPush, WrapCall;
    CallsAppended(job.sent, Job.Sent(call, step.error));
    var made, rest := Job.CallsIn(job.sent), CallsAhead(todo[1..], n, Granted(env));
    assert made + [call] + rest == made + CallsAhead(todo, n, Granted(env));
  }

  lemma WrapKeepsClean(call: SendCall, e: Error)
    ensures PermanentPush(WrapCall(call, e)) <==> PermanentPush(e)
  {
    if !e.Nil? {
      assert Leaves(WrapCall(call, e)) == Leaves(e);
    }
  }

  lemma ListKeepsSent(job: Job.Job, e: Error, db: Job.Database, env: Job.Env)
    requires SentInv(job, env) && Job.Enabled(job, Job.ListRecipients(e), db, env)
    ensures SentInv(Job.Next(job, Job.ListRecipients(e), db, env).0, env)
  {
    hide Normalized, Job.LoadWork, CallsAhead, Acknowledged, PermanentPush, StorageError;
    if e.Nil? {
      LoadsAhead(Job.RecipientsOf(Normalized(job.n), env), Normalized(job.n), Granted(env));
    } else {
      EndedEarly(job, Job.ListRecipients(e), db, env);
    }
  }

  lemma FinishKeepsSent(job: Job.Job, db: Job.Database, env: Job.Env)
    requires SentInv(job, env) && Job.Enabled(job, Job.Finish, db, env)
    ensures SentInv(Job.Next(job, Job.Finish, db, env).0, env)
  {
    hide Normalized, DueCalls, AllClean, Job.CallsIn;
    if Acknowledged(job.stage.err) {
      Job.AcknowledgedIsClean(job.stage.err);
      assert Job.CallsIn(job.sent) + [] == Job.CallsIn(job.sent);
    }
  }

  lemma StepKeepsSent(job: Job.Job, step: Job.Step, db: Job.Database, env: Job.Env)
    requires SentInv(job, env) && Job.Enabled(job, step, db, env)
    ensures SentInv(Job.Next(job, step, db, env).0, env)
  {
    hide Normalized, Violation, Acknowledged, PermanentPush, StorageError, DueCalls, CallsAhead, AllClean;
    match step
    case Validate => EndedEarly(job, step, db, env);
    case Persist(_, _, _, _) => EndedEarly(job, step, db, env);
    case ListRecipients(e) => ListKeepsSent(job, e, db, env);
    case LoadPreferences(e) => LoadKeepsSent(job, e, db, env);
    case SendNext(_, _, _) => SendKeepsSent(job, step, db, env);
    case Finish => FinishKeepsSent(job, db, env);
  }

  /** With the tables' unique keys, the sends due are each recipient's resolved channels with
      a provider, each once. */
  lemma DueCallsMeaning(n: Notification, env: Job.Env)
    requires KeysHold(Granted(env)) && Normalized(n) == n
    ensures AtMostOnce(DueCalls(n, env))
    ensures forall c :: c in DueCalls(n, env) <==> Due(c, Job.RecipientsOf(n, env), n, Granted(env))
  {
    hide Normalized, Due, AtMostOnce;
    NormalizedIsClean(n);
    assert Granted(env).subscribers(n.topic) == Ok(env.subscribers(n.topic));
    CallsMeaning(Job.RecipientsOf(n, env), n, Granted(env));
  }
}
