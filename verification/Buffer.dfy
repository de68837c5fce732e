/** The in-process buffer between ingest and the broker, and the workers that publish from
    it (internal/pipeline/buffer.go, internal/rmq/publisher.go). */
module Buffer {
  import opened Wrappers
  import opened GoErrors
  import opened Domain

  const ERR_FULL := Plain("notify pipeline buffer full")

  const MAX_ATTEMPTS := 4
  // Milliseconds.
  const FIRST_BACKOFF := 100
  const MAX_BACKOFF := 5000

  /** One call of `PublishRaw`: whether it returned nil, whether the broker put the message
      into the queue, and whether the queue existed. The call may fail after the broker took
      the message. It does not ask for a return of what cannot be routed, so without a queue
      the broker drops the message and confirms it all the same. */
  datatype Attempt = Attempt(ok: bool, stored: bool, routable: bool)

  predicate Possible(a: Attempt) {
    if a.routable then a.ok ==> a.stored else !a.stored
  }

  /** How far publishing one notification has come: attempts made, copies the broker took,
      time slept between attempts, whether the queue existed at the last attempt. */
  datatype Progress =
    | Going(attempts: nat, copies: nat, slept: nat, backoff: nat, routable: bool)
    | Done(ok: bool, attempts: nat, copies: nat, slept: nat, routable: bool)

  const START := Going(0, 0, 0, FIRST_BACKOFF, false)

  /** A queue once declared stays. */
  predicate Follows(p: Progress, a: Attempt) {
    Possible(a) && (p.routable ==> a.routable)
  }

  ghost predicate PossibleAll(outcome: nat -> Attempt) {
    && (forall i :: Possible(outcome(i)))
    && (forall i, j :: i <= j && outcome(i).routable ==> outcome(j).routable)
  }

  /** One turn of the retry loop. */
  function Try(p: Progress, a: Attempt): Progress
    requires p.Going?
  {
    var slept := if p.attempts > 0 then p.slept + p.backoff else p.slept;
    var backoff := if p.attempts == 0 then p.backoff
                   else if p.backoff * 2 < MAX_BACKOFF then p.backoff * 2 else MAX_BACKOFF;
    var copies := if a.stored then p.copies + 1 else p.copies;
    var attempts := p.attempts + 1;
    if a.ok || attempts == MAX_ATTEMPTS then Done(a.ok, attempts, copies, slept, a.routable)
    else Going(attempts, copies, slept, backoff, a.routable)
  }

  function Retry(outcome: nat -> Attempt, attempts: nat): Progress {
    if attempts == 0 then START
    else
      var p := Retry(outcome, attempts - 1);
      if p.Done? then p else Try(p, outcome(attempts - 1))
  }

  /** The bounds the retry loop promises: never over four attempts or 700 ms of sleep; a
      success has put a copy in the broker exactly when the queue existed. */
  predicate ProgressInv(p: Progress) {
    match p
    case Going(attempts, copies, slept, backoff, routable) =>
      && attempts < MAX_ATTEMPTS && copies <= attempts && (copies >= 1 ==> routable)
      && (attempts <= 1 ==> slept == 0 && backoff == 100)
      && (attempts == 2 ==> slept == 100 && backoff == 200)
      && (attempts == 3 ==> slept == 300 && backoff == 400)
    case Done(ok, attempts, copies, slept, routable) =>
      && 1 <= attempts <= MAX_ATTEMPTS && copies <= attempts && (copies >= 1 ==> routable)
      && slept == (if attempts == 1 then 0 else if attempts == 2 then 100 else if attempts == 3 then 300 else 700)
      && (ok && routable ==> copies >= 1) && (!ok ==> attempts == MAX_ATTEMPTS)
  }

  lemma TryKeepsInv(p: Progress, a: Attempt)
    requires p.Going? && ProgressInv(p) && Follows(p, a)
    ensures ProgressInv(Try(p, a))
  {
  }

  lemma {:induction false} RetryInv(outcome: nat -> Attempt, attempts: nat)
    requires PossibleAll(outcome)
    ensures ProgressInv(Retry(outcome, attempts))
    ensures var p := Retry(outcome, attempts);
      p.attempts <= attempts && p.routable == (p.attempts > 0 && outcome(p.attempts - 1).routable)
    ensures Retry(outcome, attempts).Going? ==> Retry(outcome, attempts).attempts == attempts
    ensures attempts >= MAX_ATTEMPTS ==> Retry(outcome, attempts).Done?
  {
    if attempts > 0 {
      RetryInv(outcome, attempts - 1);
      var p := Retry(outcome, attempts - 1);
      if p.Going? {
        TryKeepsInv(p, outcome(attempts - 1));
      }
    }
  }

  /** It succeeds exactly when one of the first four attempts does. */
  lemma {:induction false} RetrySucceedsIff(outcome: nat -> Attempt, attempts: nat)
    requires attempts <= MAX_ATTEMPTS
    ensures var p := Retry(outcome, attempts);
      p.Done? && p.ok <==> exists i :: 0 <= i < attempts && outcome(i).ok
    ensures Retry(outcome, attempts).Going? ==> Retry(outcome, attempts).attempts == attempts < MAX_ATTEMPTS
    ensures Retry(outcome, attempts).Done? && !Retry(outcome, attempts).ok ==> attempts == MAX_ATTEMPTS
  {
    if attempts > 0 {
      RetrySucceedsIff(outcome, attempts - 1);
    }
  }

  /** How many of the first attempts put the message into the queue. */
  function StoredIn(outcome: nat -> Attempt, attempts: nat): nat {
    if attempts == 0 then 0 else StoredIn(outcome, attempts - 1) + if outcome(attempts - 1).stored then 1 else 0
  }

  /** The loop goes on after a failure and stops at the first success, and every copy counts. */
  lemma {:induction false} RetryTrace(outcome: nat -> Attempt, attempts: nat)
    requires attempts <= MAX_ATTEMPTS
    ensures
      var p := Retry(outcome, attempts);
      && p.attempts <= attempts && p.copies == StoredIn(outcome, p.attempts)
      && (p.Going? ==> p.attempts == attempts)
      && (p.Done? ==> 1 <= p.attempts && p.ok == outcome(p.attempts - 1).ok)
      && (p.Done? && !p.ok ==> p.attempts == MAX_ATTEMPTS)
      && forall i :: 0 <= i < p.attempts && (p.Done? && p.ok ==> i < p.attempts - 1) ==> !outcome(i).ok
  {
    if attempts > 0 {
      RetryTrace(outcome, attempts - 1);
    }
  }

  lemma RetryKept(outcome: nat -> Attempt)
    requires PossibleAll(outcome)
    ensures
      var p := Retry(outcome, MAX_ATTEMPTS);
      && p.Done? && 1 <= p.attempts <= 4
      && p.slept == [0, 100, 300, 700][p.attempts - 1]
      && p.ok == outcome(p.attempts - 1).ok && (!p.ok ==> p.attempts == 4)
      && (forall i :: 0 <= i < p.attempts - 1 ==> !outcome(i).ok)
      && p.copies == StoredIn(outcome, p.attempts)
      && (p.ok <==> exists i :: 0 <= i < 4 && outcome(i).ok)
      && (p.ok ==> (p.copies >= 1 <==> outcome(p.attempts - 1).routable))
  {
    RetryInv(outcome, MAX_ATTEMPTS);
    RetrySucceedsIff(outcome, MAX_ATTEMPTS);
    RetryTrace(outcome, MAX_ATTEMPTS);
    hide Retry, StoredIn;
  }

  /** `publishWithRetry` after the body is encoded. */
  method PublishWithRetry(outcome: nat -> Attempt) returns (p: Progress)
    requires PossibleAll(outcome)
    ensures p == Retry(outcome, MAX_ATTEMPTS)
    ensures p.Done? && 1 <= p.attempts <= 4 && p.ok == outcome(p.attempts - 1).ok && (!p.ok ==> p.attempts == 4)
    ensures forall i :: 0 <= i < p.attempts - 1 ==> !outcome(i).ok
    ensures p.slept == [0, 100, 300, 700][p.attempts - 1]
    ensures p.copies == StoredIn(outcome, p.attempts)
    ensures p.ok <==> exists i :: 0 <= i < 4 && outcome(i).ok
    ensures p.ok ==> (p.copies >= 1 <==> outcome(p.attempts - 1).routable)
  {
    RetryKept(outcome);
    hide PossibleAll;
    var backoff: nat, slept: nat, copies: nat := FIRST_BACKOFF, 0, 0;
    var attempt, routable := 0, false;
    while attempt < MAX_ATTEMPTS
      invariant 0 <= attempt <= MAX_ATTEMPTS
      invariant attempt < MAX_ATTEMPTS ==> Retry(outcome, attempt) == Going(attempt, copies, slept, backoff, routable)
      invariant attempt == MAX_ATTEMPTS ==> Retry(outcome, attempt) == Done(false, attempt, copies, slept, routable)
    {
      if attempt > 0 {
        slept := slept + backoff;
        backoff := if backoff * 2 < MAX_BACKOFF then backoff * 2 else MAX_BACKOFF;
      }
      var a := outcome(attempt);
      if a.stored {
        copies := copies + 1;
      }
      routable := a.routable;
      attempt := attempt + 1;
      if a.ok {
        DoneStays(outcome, attempt, MAX_ATTEMPTS);
        return Done(true, attempt, copies, slept, routable);
      }
    }
    return Done(false, MAX_ATTEMPTS, copies, slept, routable);
  }

  lemma {:induction false} DoneStays(outcome: nat -> Attempt, k: nat, m: nat)
    requires k <= m && Retry(outcome, k).Done?
    ensures Retry(outcome, m) == Retry(outcome, k)
  {
    if k < m {
      DoneStays(outcome, k, m - 1);
    }
  }

  // ----- the buffer -----

  /** The channel that `Submit` fills and the workers drain. */
  class Queue {
    const capacity: nat
    var ch: seq<Notification>

    constructor (depth: int)
      ensures capacity == (if depth < 1 then 1 else depth) && ch == []
    {
      capacity := if depth < 1 then 1 else depth;
      ch := [];
    }

    /** `Submit`, with none for a nil notification: accepted at the end, or refused. */
    method Submit(n: Option<Notification>) returns (err: Error)
      modifies this
      ensures n.None? ==> err == Plain("nil notification") && ch == old(ch)
      ensures n.Some? && |old(ch)| < capacity ==> err.Nil? && ch == old(ch) + [n.value]
      ensures n.Some? && |old(ch)| >= capacity ==> err == ERR_FULL && ch == old(ch)
    {
      if n.None? {
        return Plain("nil notification");
      }
      if |ch| < capacity {
        ch := ch + [n.value];
        return Nil;
      }
      return ERR_FULL;
    }
  }

  // ----- any interleaving of submitters, workers and Close -----

  datatype Worker =
    | Idle
    | Publishing(n: Notification, progress: Progress)
    | Exited

  /** A notification a worker has finished with. */
  datatype Finished = Finished(n: Notification, progress: Progress)

  /** `accepted` and `taken` list, in order, what was submitted with success and what
      workers have received; `unencodable`, `published` and `exhausted` what became of it. */
  datatype State = State(
    capacity: nat,
    queue: seq<Notification>,
    closed: bool,
    closeReturned: bool,
    workers: seq<Worker>,
    accepted: seq<Notification>,
    taken: seq<Notification>,
    unencodable: seq<Notification>,
    published: seq<Finished>,
    exhausted: seq<Finished>)

  /** `NewBuffer` raises a depth or worker count below one to one. */
  function Initial(depth: int, workers: int): State {
    State(if depth < 1 then 1 else depth, [], false, false,
          seq(if workers < 1 then 1 else workers, i => Idle), [], [], [], [], [])
  }

  datatype Step =
    | Submit(n: Notification)
    | Take(w: nat)
    | EncodeFails(w: nat)
    | TryPublish(w: nat, attempt: Attempt)
    | Close
    | Exit(w: nat)
    | CloseReturns

  /** Nothing is submitted after `Close`; a worker leaves its loop when the channel is
      closed and drained; `Close` returns when all have left. */
  predicate Enabled(s: State, step: Step) {
    match step
    case Submit(_) => !s.closed
    case Take(w) => w < |s.workers| && s.workers[w].Idle? && s.queue != []
    case EncodeFails(w) => w < |s.workers| && s.workers[w].Publishing? && s.workers[w].progress == START
    case TryPublish(w, a) => w < |s.workers| && s.workers[w].Publishing? && s.workers[w].progress.Going?
      && Follows(s.workers[w].progress, a)
    case Close => !s.closed
    case Exit(w) => w < |s.workers| && s.workers[w].Idle? && s.closed && s.queue == []
    case CloseReturns => s.closed && forall w <- s.workers :: w.Exited?
  }

  function Next(s: State, step: Step): State
    requires Enabled(s, step)
  {
    match step
    case Submit(n) =>
      if |s.queue| < s.capacity then s.(queue := s.queue + [n], accepted := s.accepted + [n]) else s
    case Take(w) =>
      s.(queue := s.queue[1..], taken := s.taken + [s.queue[0]],
         workers := s.workers[w := Publishing(s.queue[0], START)])
    case EncodeFails(w) =>
      s.(unencodable := s.unencodable + [s.workers[w].n], workers := s.workers[w := Idle])
    case TryPublish(w, a) =>
      var Publishing(n, progress) := s.workers[w];
      var p := Try(progress, a);
      if p.Going? then s.(workers := s.workers[w := Publishing(n, p)])
      else if p.ok then s.(published := s.published + [Finished(n, p)], workers := s.workers[w := Idle])
      else s.(exhausted := s.exhausted + [Finished(n, p)], workers := s.workers[w := Idle])
    case Close => s.(closed := true)
    case Exit(w) => s.(workers := s.workers[w := Exited])
    case CloseReturns => s.(closeReturned := true)
  }

  function Exec(depth: int, workers: int, steps: seq<Step>): Option<State>
    decreases |steps|
  {
    if steps == [] then Some(Initial(depth, workers))
    else
      match Exec(depth, workers, steps[..|steps| - 1])
      case None => None
      case Some(s) =>
        var step := steps[|steps| - 1];
        if Enabled(s, step) then Some(Next(s, step)) else None
  }

  function One(holds: bool): nat {
    if holds then 1 else 0
  }

  /** How often a notification occurs in a list, in the workers' hands, among those finished. */
  function Count(ns: seq<Notification>, n: Notification): nat
    decreases |ns|
  {
    if ns == [] then 0 else Count(ns[..|ns| - 1], n) + One(ns[|ns| - 1] == n)
  }

  function Holds(w: Worker, n: Notification): nat {
    One(w.Publishing? && w.n == n)
  }

  function Held(workers: seq<Worker>, n: Notification): nat
    decreases |workers|
  {
    if workers == [] then 0 else Held(workers[..|workers| - 1], n) + Holds(workers[|workers| - 1], n)
  }

  function Among(finished: seq<Finished>, n: Notification): nat
    decreases |finished|
  {
    if finished == [] then 0 else Among(finished[..|finished| - 1], n) + One(finished[|finished| - 1].n == n)
  }

  lemma {:induction false} HeldUpdated(workers: seq<Worker>, i: nat, w: Worker, n: Notification)
    requires i < |workers|
    ensures Held(workers[i := w], n) + Holds(workers[i], n) == Held(workers, n) + Holds(w, n)
    decreases |workers|
  {
    var init := workers[..|workers| - 1];
    if i == |workers| - 1 {
      assert workers[i := w][..i] == init;
    } else {
      HeldUpdated(init, i, w, n);
      assert workers[i := w][..|workers| - 1] == init[i := w];
    }
  }

  lemma Appended(ns: seq<Notification>, m: Notification, finished: seq<Finished>, f: Finished, n: Notification)
    ensures Count(ns + [m], n) == Count(ns, n) + One(m == n)
    ensures Among(finished + [f], n) == Among(finished, n) + One(f.n == n)
  {
    assert (ns + [m])[..|ns|] == ns;
    assert (finished + [f])[..|finished|] == finished;
  }

  lemma {:induction false} CountConcat(ns: seq<Notification>, ms: seq<Notification>, n: Notification)
    ensures Count(ns + ms, n) == Count(ns, n) + Count(ms, n)
    decreases |ms|
  {
    if ms == [] {
      assert ns + ms == ns;
    } else {
      CountConcat(ns, ms[..|ms| - 1], n);
      assert (ns + ms)[..|ns + ms| - 1] == ns + ms[..|ms| - 1];
    }
  }

  /** What workers took is what they still hold plus what they published, could not encode
      or gave up on. */
  predicate ConservedFor(s: State, n: Notification) {
    Count(s.taken, n)
    == Held(s.workers, n) + Among(s.published, n) + Count(s.unencodable, n) + Among(s.exhausted, n)
  }

  ghost predicate Conserved(s: State) {
    forall n :: ConservedFor(s, n)
  }

  ghost predicate Inv(s: State) {
    Conserved(s) && QueueInv(s) && ProgressesInv(s) && ClosingInv(s)
  }

  lemma StepConservesFor(s: State, step: Step, n: Notification)
    requires Enabled(s, step) && ConservedFor(s, n)
    ensures ConservedFor(Next(s, step), n)
  {
    hide Try, Held, Count, Among;
    match step
    case Take(w) =>
      HeldUpdated(s.workers, w, Publishing(s.queue[0], START), n);
      Appended(s.taken, s.queue[0], [], Finished(s.queue[0], START), n);
    case EncodeFails(w) =>
      HeldUpdated(s.workers, w, Idle, n);
      Appended(s.unencodable, s.workers[w].n, [], Finished(s.workers[w].n, START), n);
    case TryPublish(w, a) =>
      var p := Try(s.workers[w].progress, a);
      var f := Finished(s.workers[w].n, p);
      HeldUpdated(s.workers, w, Publishing(f.n, p), n);
      HeldUpdated(s.workers, w, Idle, n);
      Appended([], f.n, s.published, f, n);
      Appended([], f.n, s.exhausted, f, n);
    case Exit(w) =>
      HeldUpdated(s.workers, w, Exited, n);
    case _ =>
  }

  lemma StepConserves(s: State, step: Step)
    requires Enabled(s, step) && Conserved(s)
    ensures Conserved(Next(s, step))
  {
    hide Next, Enabled, ConservedFor;
    forall n ensures ConservedFor(Next(s, step), n) {
      StepConservesFor(s, step, n);
    }
  }

  /** The buffer holds no more than its capacity, and what workers took and what is still
      queued are together what was accepted, in order. */
  ghost predicate QueueInv(s: State) {
    |s.queue| <= s.capacity && s.accepted == s.taken + s.queue
  }

  ghost predicate ProgressesInv(s: State) {
    && (forall w <- s.workers :: w.Publishing? ==> w.progress.Going? && ProgressInv(w.progress))
    && (forall f <- s.published :: f.progress.Done? && f.progress.ok && ProgressInv(f.progress))
    && (forall f <- s.exhausted :: f.progress.Done? && !f.progress.ok && ProgressInv(f.progress))
  }

  ghost predicate ClosingInv(s: State) {
    && |s.workers| >= 1
    && ((exists w <- s.workers :: w.Exited?) ==> s.closed && s.queue == [])
    && (s.closeReturned ==> s.closed && forall w <- s.workers :: w.Exited?)
  }

  lemma StepKeepsQueueInv(s: State, step: Step)
    requires QueueInv(s) && Enabled(s, step)
    ensures QueueInv(Next(s, step))
  {
    hide Try;
    if step.Take? {
      assert s.taken + s.queue == s.taken + [s.queue[0]] + s.queue[1..];
    } else if step.Submit? {
      assert s.taken + (s.queue + [step.n]) == s.taken + s.queue + [step.n];
    }
  }

  lemma StepKeepsProgresses(s: State, step: Step)
    requires ProgressesInv(s) && Enabled(s, step)
    ensures ProgressesInv(Next(s, step))
  {
    hide Try, ProgressInv;
    if step.TryPublish? {
      TryKeepsInv(s.workers[step.w].progress, step.attempt);
    } else if step.Take? {
      StartIsFine();
    }
  }

  lemma StepKeepsClosing(s: State, step: Step)
    requires ClosingInv(s) && Enabled(s, step)
    ensures ClosingInv(Next(s, step))
  {
    hide Try;
    if step.Take? || step.TryPublish? || step.EncodeFails? {
      assert s.workers[step.w] in s.workers && !s.workers[step.w].Exited?;
    }
  }

  lemma StepKeepsInv(s: State, step: Step)
    requires Inv(s) && Enabled(s, step)
    ensures Inv(Next(s, step))
  {
    hide Next, Enabled, Conserved, QueueInv, ProgressesInv, ClosingInv;
    StepConserves(s, step);
    StepKeepsQueueInv(s, step);
    StepKeepsProgresses(s, step);
    StepKeepsClosing(s, step);
  }

  lemma StartIsFine()
    ensures ProgressInv(START)
  {
  }

  lemma {:induction false} NoneHeld(workers: seq<Worker>, n: Notification)
    requires forall w <- workers :: !w.Publishing?
    ensures Held(workers, n) == 0
    decreases |workers|
  {
    if workers != [] {
      NoneHeld(workers[..|workers| - 1], n);
      assert workers[|workers| - 1] in workers;
    }
  }

  lemma {:induction false} RunKeepsInv(depth: int, workers: int, steps: seq<Step>)
    requires Exec(depth, workers, steps).Some?
    ensures Inv(Exec(depth, workers, steps).value)
    decreases |steps|
  {
    if steps == [] {
      InitialInv(depth, workers);
    } else {
      RunKeepsInv(depth, workers, steps[..|steps| - 1]);
      StepKeepsInv(Exec(depth, workers, steps[..|steps| - 1]).value, steps[|steps| - 1]);
    }
  }

  /** The buffer has room for the configured depth, at least one, and as many workers, at least
      one, at all times; and it accepts exactly while it has room. */
  lemma {:induction false} ShapeStays(depth: int, workers: int, steps: seq<Step>)
    requires Exec(depth, workers, steps).Some?
    ensures
      var s := Exec(depth, workers, steps).value;
      && s.capacity == (if depth < 1 then 1 else depth)
      && |s.workers| == (if workers < 1 then 1 else workers)
      && forall n :: Enabled(s, Submit(n)) ==>
           var s' := Next(s, Submit(n));
           if |s.queue| < s.capacity then
             s'.queue == s.queue + [n] && s'.accepted == s.accepted + [n]
           else
             s'.queue == s.queue && s'.accepted == s.accepted
    decreases |steps|
  {
    hide Try;
    if steps != [] {
      ShapeStays(depth, workers, steps[..|steps| - 1]);
    }
  }

  /** In every interleaving, what was accepted is exactly what is queued, held by a worker,
      published, unencodable or given up after four attempts; what was published has a copy in
      the broker exactly when the queue existed; the depth never exceeds the capacity; and
      workers take notifications in the order they were accepted. */
  lemma AcceptedAreAccountedFor(depth: int, workers: int, steps: seq<Step>)
    requires Exec(depth, workers, steps).Some?
    ensures
      var s := Exec(depth, workers, steps).value;
      && (forall n :: Count(s.accepted, n) ==
            Count(s.queue, n) + Held(s.workers, n)
            + Among(s.published, n) + Count(s.unencodable, n) + Among(s.exhausted, n))
      && s.accepted == s.taken + s.queue
      && |s.queue| <= s.capacity
      && (forall f <- s.published :: f.progress.copies <= f.progress.attempts <= 4 && f.progress.slept <= 700)
      && (forall f <- s.published :: f.progress.copies >= 1 <==> f.progress.routable)
      && (forall f <- s.exhausted :: f.progress.attempts == 4 && f.progress.slept <= 700)
  {
    hide Held, Count, Among;
    RunKeepsInv(depth, workers, steps);
    var s := Exec(depth, workers, steps).value;
    forall n ensures Count(s.accepted, n) ==
      Count(s.queue, n) + Held(s.workers, n)
      + Among(s.published, n) + Count(s.unencodable, n) + Among(s.exhausted, n)
    {
      assert ConservedFor(s, n);
      CountConcat(s.taken, s.queue, n);
    }
  }

  /** Once `Close` has returned nothing is queued or held: every accepted notification was
      published or counted as dropped. */
  lemma CloseDrains(depth: int, workers: int, steps: seq<Step>)
    requires Exec(depth, workers, steps).Some? && Exec(depth, workers, steps).value.closeReturned
    ensures
      var s := Exec(depth, workers, steps).value;
      && s.queue == []
      && (forall n :: Held(s.workers, n) == 0)
      && (forall n :: Count(s.accepted, n) ==
            Among(s.published, n) + Count(s.unencodable, n) + Among(s.exhausted, n))
  {
    hide Held, Count, Among;
    RunKeepsInv(depth, workers, steps);
    var s := Exec(depth, workers, steps).value;
    assert s.workers[0] in s.workers;
    assert s.accepted == s.taken;
    forall n
      ensures Held(s.workers, n) == 0
      ensures Count(s.accepted, n) == Among(s.published, n) + Count(s.unencodable, n) + Among(s.exhausted, n)
    {
      NoneHeld(s.workers, n);
      assert ConservedFor(s, n);
    }
  }

  // ----- the copies made -----

  /** The notification that a step puts into the queue, even when the worker is told that it
      failed. */
  function Stores(s: State, step: Step): Option<Notification> {
    if step.TryPublish? && step.attempt.stored && step.w < |s.workers| && s.workers[step.w].Publishing? then
      Some(s.workers[step.w].n)
    else None
  }

  function CopiesIn(finished: seq<Finished>, n: Notification): nat
    decreases |finished|
  {
    if finished == [] then 0
    else
      var last := finished[|finished| - 1];
      CopiesIn(finished[..|finished| - 1], n) + if last.n == n then last.progress.copies else 0
  }

  function CopiesBy(w: Worker, n: Notification): nat {
    if w.Publishing? && w.n == n then w.progress.copies else 0
  }

  function CopiesHeld(workers: seq<Worker>, n: Notification): nat
    decreases |workers|
  {
    if workers == [] then 0
    else CopiesHeld(workers[..|workers| - 1], n) + CopiesBy(workers[|workers| - 1], n)
  }

  /** How many copies of the notification the workers have put into the queue. */
  function CopiesMade(s: State, n: Notification): nat {
    CopiesIn(s.published, n) + CopiesIn(s.exhausted, n) + CopiesHeld(s.workers, n)
  }

  lemma {:induction false} CopiesUpdated(workers: seq<Worker>, i: nat, w: Worker, n: Notification)
    requires i < |workers|
    ensures CopiesHeld(workers[i := w], n) + CopiesBy(workers[i], n) == CopiesHeld(workers, n) + CopiesBy(w, n)
    decreases |workers|
  {
    var init := workers[..|workers| - 1];
    if i == |workers| - 1 {
      assert workers[i := w][..i] == init;
    } else {
      CopiesUpdated(init, i, w, n);
      assert workers[i := w][..|workers| - 1] == init[i := w];
    }
  }

  lemma CopiesAppended(finished: seq<Finished>, f: Finished, n: Notification)
    ensures CopiesIn(finished + [f], n) == CopiesIn(finished, n) + if f.n == n then f.progress.copies else 0
  {
    assert (finished + [f])[..|finished|] == finished;
  }

  /** Every step accounts for exactly the copy it makes. */
  lemma StepMakesCopies(s: State, step: Step, n: Notification)
    requires Enabled(s, step)
    ensures CopiesMade(Next(s, step), n) == CopiesMade(s, n) + One(Stores(s, step) == Some(n))
  {
    hide CopiesHeld, CopiesIn;
    match step
    case Take(w) => CopiesUpdated(s.workers, w, Publishing(s.queue[0], START), n);
    case EncodeFails(w) => CopiesUpdated(s.workers, w, Idle, n);
    case TryPublish(w, a) =>
      var p := Try(s.workers[w].progress, a);
      var f := Finished(s.workers[w].n, p);
      CopiesUpdated(s.workers, w, Publishing(f.n, p), n);
      CopiesUpdated(s.workers, w, Idle, n);
      CopiesAppended(s.published, f, n);
      CopiesAppended(s.exhausted, f, n);
    case Exit(w) => CopiesUpdated(s.workers, w, Exited, n);
    case _ =>
  }

  lemma {:induction false} NoCopiesYet(depth: int, workers: int, n: Notification, k: nat)
    requires k <= |Initial(depth, workers).workers|
    ensures CopiesHeld(Initial(depth, workers).workers[..k], n) == 0
  {
    var ws := Initial(depth, workers).workers;
    if k > 0 {
      NoCopiesYet(depth, workers, n, k - 1);
      assert ws[..k][..k - 1] == ws[..k - 1];
    }
  }

  lemma InitialMadeNone(depth: int, workers: int, n: Notification)
    ensures CopiesMade(Initial(depth, workers), n) == 0
  {
    var ws := Initial(depth, workers).workers;
    NoCopiesYet(depth, workers, n, |ws|);
    assert ws[..|ws|] == ws;
  }

  /** How often the notification was counted as published while the queue existed. */
  function Confirmed(finished: seq<Finished>, n: Notification): nat
    decreases |finished|
  {
    if finished == [] then 0
    else
      var last := finished[|finished| - 1];
      Confirmed(finished[..|finished| - 1], n) + One(last.n == n && last.progress.routable)
  }

  lemma {:induction false} ConfirmedHaveCopies(finished: seq<Finished>, n: Notification)
    requires forall f <- finished :: f.progress.routable ==> f.progress.copies >= 1
    ensures Confirmed(finished, n) <= CopiesIn(finished, n)
    decreases |finished|
  {
    if finished != [] {
      assert forall f <- finished[..|finished| - 1] :: f in finished;
      ConfirmedHaveCopies(finished[..|finished| - 1], n);
      assert finished[|finished| - 1] in finished;
    }
  }

  /** Each publication counted while the queue existed has a copy of its own. */
  lemma PublishedHaveCopies(s: State, n: Notification)
    requires Inv(s)
    ensures Confirmed(s.published, n) <= CopiesMade(s, n)
  {
    hide Confirmed, CopiesIn, CopiesHeld;
    ConfirmedHaveCopies(s.published, n);
  }

  /** Without a queue the broker confirms what it drops. */
  const UNROUTED := Attempt(true, false, false)

  const ROUTED := Attempt(true, true, true)

  /** Submitted, taken and confirmed at the first attempt, with or without a queue. */
  lemma ConfirmedAtOnce(n: Notification, depth: int, workers: int, a: Attempt) returns (s: State)
    requires a == UNROUTED || a == ROUTED
    ensures
      var s0 := Initial(depth, workers);
      Enabled(s0, Submit(n)) && Next(s0, Submit(n)) != s0 &&
        var s1 := Next(s0, Submit(n));
        Enabled(s1, Take(0)) &&
          var s2 := Next(s1, Take(0));
          && Enabled(s2, TryPublish(0, a)) && s == Next(s2, TryPublish(0, a))
          && Stores(s2, TryPublish(0, a)) == if a.stored then Some(n) else None
    ensures |s.published| == 1 && s.published[0].n == n && s.queue == []
  {
    var s0 := Initial(depth, workers);
    var s1 := Next(s0, Submit(n));
    assert s1.queue == [n];
    s := Next(Next(s1, Take(0)), TryPublish(0, a));
  }

  lemma InitialInv(depth: int, workers: int)
    ensures Inv(Initial(depth, workers))
  {
    forall n ensures ConservedFor(Initial(depth, workers), n) {
      NoneHeld(Initial(depth, workers).workers, n);
    }
  }
}
