/** The cache of VAPID authorization headers (internal/provider/webpush/auth.go), used by
    any number of threads. The lock covers the lookup and the store but not the signing
    between them, so the threads interleave at those points. */
module VapidCache {
  import opened Wrappers
  import opened Strings

  // Times are nanoseconds since Go's zero time.
  const SECOND := 1_000_000_000
  const MINUTE := 60 * SECOND
  const HOUR := 60 * MINUTE
  const LIFETIME := 12 * HOUR
  const REFRESH_SKEW := 15 * MINUTE
  /** Section 2 of RFC 8292 allows at most 24 hours. */
  const RFC8292_LIMIT := 24 * HOUR

  /** What a caller asks for: the audience is scheme and host of the push endpoint. */
  datatype Request = Request(audience: string, subscriber: string, publicKey: string, privateKey: string)

  /** A signed header: what it was signed for, and when it expires. */
  datatype Header = Header(request: Request, expiration: int)

  /** The `exp` claim, in whole seconds. */
  function ExpClaim(h: Header): int {
    h.expiration / SECOND
  }

  datatype Cached = Cached(header: Header, refreshAfter: int)

  function CacheKey(r: Request): string {
    r.audience + "\n" + r.subscriber + "\n" + r.publicKey
  }

  /** `buildVAPIDAuthorizationHeader` replaces the zero time by the current one. */
  function Build(r: Request, expiration: int, clock: int): Header {
    Header(r, if expiration == 0 then clock + LIFETIME else expiration)
  }

  lemma CacheKeyInjective(r: Request, r': Request)
    requires '\n' !in r.audience && '\n' !in r.subscriber
    requires '\n' !in r'.audience && '\n' !in r'.subscriber
    requires CacheKey(r) == CacheKey(r')
    ensures r.audience == r'.audience && r.subscriber == r'.subscriber && r.publicKey == r'.publicKey
  {
    var rest, rest' := r.subscriber + "\n" + r.publicKey, r'.subscriber + "\n" + r'.publicKey;
    assert CacheKey(r) == r.audience + ['\n'] + rest;
    assert CacheKey(r') == r'.audience + ['\n'] + rest';
    SplitAtFirst(r.audience, r'.audience, '\n', rest, rest');
    SplitAtFirst(r.subscriber, r'.subscriber, '\n', r.publicKey, r'.publicKey);
  }

  /** Subscriber and keys are fixed for each client, which has a cache of its own: there the
      key tells exactly the audiences apart, newlines or not. */
  lemma KeyIsAudience(r: Request, r': Request)
    requires r.subscriber == r'.subscriber && r.publicKey == r'.publicKey
    ensures CacheKey(r) == CacheKey(r') <==> r.audience == r'.audience
  {
    if CacheKey(r) == CacheKey(r') {
      var tail := "\n" + r.subscriber + "\n" + r.publicKey;
      assert CacheKey(r) == r.audience + tail && CacheKey(r') == r'.audience + tail;
      assert |r.audience| == |r'.audience|;
      assert r.audience == CacheKey(r)[..|r.audience|];
      assert r'.audience == CacheKey(r')[..|r'.audience|];
    }
  }

  function Newlines(s: string): nat
    decreases |s|
  {
    if s == "" then 0 else Newlines(s[..|s| - 1]) + if s[|s| - 1] == '\n' then 1 else 0
  }

  lemma {:induction false} NewlinesConcat(a: string, b: string)
    ensures Newlines(a + b) == Newlines(a) + Newlines(b)
    decreases |b|
  {
    if b == "" {
      assert a + b == a;
    } else {
      NewlinesConcat(a, b[..|b| - 1]);
      assert (a + b)[..|a + b| - 1] == a + b[..|b| - 1];
    }
  }

  lemma {:induction false} NewlinesNone(s: string)
    ensures Newlines(s) == 0 <==> '\n' !in s
    decreases |s|
  {
    if s != "" {
      NewlinesNone(s[..|s| - 1]);
      assert s == s[..|s| - 1] + [s[|s| - 1]];
    }
  }

  lemma KeyNewlines(r: Request)
    ensures Newlines(CacheKey(r)) == Newlines(r.audience) + Newlines(r.subscriber) + Newlines(r.publicKey) + 2
  {
    hide Newlines;
    NewlinesConcat(r.audience + "\n" + r.subscriber + "\n", r.publicKey);
    NewlinesConcat(r.audience + "\n" + r.subscriber, "\n");
    NewlinesConcat(r.audience + "\n", r.subscriber);
    NewlinesConcat(r.audience, "\n");
    assert Newlines("\n") == 1 by {
      OneNewline();
    }
  }

  lemma OneNewline()
    ensures Newlines("\n") == 1
  {
    assert "\n"[..0] == "";
  }

  predicate SameKeyed(r: Request, r': Request) {
    r.audience == r'.audience && r.subscriber == r'.subscriber && r.publicKey == r'.publicKey
  }

  predicate NoNewline(r: Request) {
    '\n' !in r.audience && '\n' !in r.subscriber && '\n' !in r.publicKey
  }

  lemma SplitAt(s: string) returns (before: string, after: string)
    requires '\n' in s
    ensures s == before + "\n" + after
  {
    var i :| 0 <= i < |s| && s[i] == '\n';
    before, after := s[..i], s[i + 1..];
  }

  /** A request with a newline in some part shares its key with a different one. */
  lemma NewlineCollides(r: Request) returns (r': Request)
    requires !NoNewline(r)
    ensures CacheKey(r') == CacheKey(r) && !SameKeyed(r', r)
  {
    if '\n' in r.audience {
      var before, after := SplitAt(r.audience);
      r' := r.(audience := before, subscriber := after, publicKey := r.subscriber + "\n" + r.publicKey);
      assert CacheKey(r') == before + "\n" + after + "\n" + r.subscriber + "\n" + r.publicKey;
      assert |before| < |r.audience|;
    } else if '\n' in r.subscriber {
      var before, after := SplitAt(r.subscriber);
      r' := r.(subscriber := before, publicKey := after + "\n" + r.publicKey);
      assert CacheKey(r') == r.audience + "\n" + before + "\n" + after + "\n" + r.publicKey;
      assert CacheKey(r) == r.audience + "\n" + (before + "\n" + after) + "\n" + r.publicKey;
      assert |before| < |r.subscriber|;
    } else {
      var before, after := SplitAt(r.publicKey);
      r' := r.(audience := r.audience + "\n" + r.subscriber, subscriber := before, publicKey := after);
      assert CacheKey(r') == r.audience + "\n" + r.subscriber + "\n" + before + "\n" + after;
      assert CacheKey(r) == r.audience + "\n" + r.subscriber + "\n" + (before + "\n" + after);
      assert |r'.audience| > |r.audience|;
    }
  }

  /** Among any requests at all, a request's key determines its three parts exactly when none
      of them contains a newline. */
  lemma KeyDeterminesIff(r: Request)
    ensures (forall r' :: CacheKey(r') == CacheKey(r) ==> SameKeyed(r', r)) <==> NoNewline(r)
  {
    hide CacheKey, SameKeyed;
    if NoNewline(r) {
      forall r' | CacheKey(r') == CacheKey(r) ensures SameKeyed(r', r) {
        NoNewlineDetermines(r, r');
      }
    } else {
      var r' := NewlineCollides(r);
    }
  }

  lemma NoNewlineDetermines(r: Request, r': Request)
    requires NoNewline(r) && CacheKey(r') == CacheKey(r)
    ensures SameKeyed(r', r)
  {
    hide CacheKey, Newlines;
    KeyNewlines(r);
    KeyNewlines(r');
    NewlinesNone(r.audience);
    NewlinesNone(r.subscriber);
    NewlinesNone(r.publicKey);
    NewlinesNone(r'.audience);
    NewlinesNone(r'.subscriber);
    CacheKeyInjective(r, r');
  }

  // ----- one caller at a time -----

  class AuthHeaderCache {
    var headers: map<string, Cached>

    constructor ()
      ensures headers == map[]
    {
      headers := map[];
    }

    /** `authorizationHeader` with nobody else in between; `signed` says whether building
        the header worked and `clock` is the time while it is built. */
    method AuthorizationHeader(r: Request, now: nat, clock: nat, signed: bool) returns (result: Option<Header>)
      modifies this
      ensures (result, headers) == Alone(old(headers), r, now, clock, signed)
    {
      var key := CacheKey(r);
      if key in headers && now < headers[key].refreshAfter {
        return Some(headers[key].header);
      }
      var expiration := now + LIFETIME;
      if !signed {
        return None;
      }
      var header := Build(r, expiration, clock);
      var refreshAfter := expiration - REFRESH_SKEW;
      headers := headers[key := Cached(header, refreshAfter)];
      return Some(header);
    }
  }

  function Alone(headers: map<string, Cached>, r: Request, now: nat, clock: nat, signed: bool)
    : (Option<Header>, map<string, Cached>)
  {
    if CacheKey(r) in headers && now < headers[CacheKey(r)].refreshAfter then
      (Some(headers[CacheKey(r)].header), headers)
    else if !signed then
      (None, headers)
    else
      var header := Build(r, now + LIFETIME, clock);
      (Some(header), headers[CacheKey(r) := Cached(header, now + LIFETIME - REFRESH_SKEW)])
  }

  // ----- any interleaving -----

  datatype Thread =
    | Entered(request: Request)
    | Looking(request: Request, now: nat)
    | Missed(request: Request, now: nat)
    | Signed(request: Request, now: nat, header: Header)
    | Holding(request: Request, now: nat, header: Header)
    | Returned(request: Request, now: nat, header: Header, at: nat)
    | Failed

  datatype State = State(clock: nat, headers: map<string, Cached>, threads: map<nat, Thread>, asked: set<Request>)

  datatype Step =
    | Tick(elapsed: nat)
    | Enter(t: nat, request: Request)
    | ReadClock(t: nat)
    | Lookup(t: nat)
    | Sign(t: nat, ok: bool)
    | Store(t: nat)
    | Return(t: nat)

  predicate Enabled(s: State, step: Step) {
    match step
    case Tick(_) => true
    case Enter(t, _) => t !in s.threads
    case ReadClock(t) => t in s.threads && s.threads[t].Entered?
    case Lookup(t) => t in s.threads && s.threads[t].Looking?
    case Sign(t, _) => t in s.threads && s.threads[t].Missed?
    case Store(t) => t in s.threads && s.threads[t].Signed?
    case Return(t) => t in s.threads && s.threads[t].Holding?
  }

  function Next(s: State, step: Step): State
    requires Enabled(s, step)
  {
    match step
    case Tick(elapsed) => s.(clock := s.clock + elapsed)
    case Enter(t, r) => s.(threads := s.threads[t := Entered(r)], asked := s.asked + {r})
    case ReadClock(t) => s.(threads := s.threads[t := Looking(s.threads[t].request, s.clock)])
    case Lookup(t) =>
      var Looking(r, now) := s.threads[t];
      var key := CacheKey(r);
      if key in s.headers && now < s.headers[key].refreshAfter then
        s.(threads := s.threads[t := Holding(r, now, s.headers[key].header)])
      else
        s.(threads := s.threads[t := Missed(r, now)])
    case Sign(t, ok) =>
      var Missed(r, now) := s.threads[t];
      if ok then s.(threads := s.threads[t := Signed(r, now, Build(r, now + LIFETIME, s.clock))])
      else s.(threads := s.threads[t := Failed])
    case Store(t) =>
      var Signed(r, now, header) := s.threads[t];
      s.(headers := s.headers[CacheKey(r) := Cached(header, now + LIFETIME - REFRESH_SKEW)],
         threads := s.threads[t := Holding(r, now, header)])
    case Return(t) =>
      var Holding(r, now, header) := s.threads[t];
      s.(threads := s.threads[t := Returned(r, now, header, s.clock)])
  }

  const INITIAL := State(0, map[], map[], {})

  /** The state after a sequence of steps, if each was enabled when taken. */
  function Exec(steps: seq<Step>): Option<State>
    decreases |steps|
  {
    if steps == [] then Some(INITIAL)
    else
      match Exec(steps[..|steps| - 1])
      case None => None
      case Some(s) =>
        var step := steps[|steps| - 1];
        if Enabled(s, step) then Some(Next(s, step)) else None
  }

  /** The header may be handed to a caller with this key, somewhere at this time. */
  predicate Fit(h: Header, key: string, s: State) {
    && h.request in s.asked
    && CacheKey(h.request) == key
    && h.expiration <= s.clock + LIFETIME
  }

  predicate ThreadInv(thread: Thread, s: State) {
    match thread
    case Entered(r) => r in s.asked
    case Looking(r, now) => r in s.asked && now <= s.clock
    case Missed(r, now) => r in s.asked && now <= s.clock
    case Signed(r, now, h) =>
      r in s.asked && now <= s.clock && Fit(h, CacheKey(r), s) && h.expiration == now + LIFETIME
    case Holding(r, now, h) =>
      r in s.asked && now <= s.clock && Fit(h, CacheKey(r), s) && now + REFRESH_SKEW < h.expiration
    case Returned(r, now, h, at) =>
      && r in s.asked && now <= at <= s.clock && Fit(h, CacheKey(r), s)
      && now + REFRESH_SKEW < h.expiration <= at + LIFETIME
    case Failed => true
  }

  ghost predicate Inv(s: State) {
    && (forall k :: k in s.headers ==>
          Fit(s.headers[k].header, k, s) && s.headers[k].refreshAfter == s.headers[k].header.expiration - REFRESH_SKEW)
    && (forall t :: t in s.threads ==> ThreadInv(s.threads[t], s))
  }

  lemma ThreadInvLater(thread: Thread, s: State, s': State)
    requires ThreadInv(thread, s)
    requires s.clock <= s'.clock && s.asked <= s'.asked
    ensures ThreadInv(thread, s')
  {
    hide CacheKey;
  }

  lemma StepKeepsInv(s: State, step: Step)
    requires Inv(s) && Enabled(s, step)
    ensures Inv(Next(s, step))
  {
    hide CacheKey;
    var s' := Next(s, step);
    forall t | t in s.threads ensures ThreadInv(s.threads[t], s') {
      ThreadInvLater(s.threads[t], s, s');
    }
    forall t | t in s'.threads ensures ThreadInv(s'.threads[t], s') {
      if t in s.threads && s'.threads[t] != s.threads[t] {
        assert ThreadInv(s.threads[t], s);
      }
    }
  }

  lemma {:induction false} RunKeepsInv(steps: seq<Step>)
    requires Exec(steps).Some?
    ensures Inv(Exec(steps).value)
    decreases |steps|
  {
    if steps != [] {
      RunKeepsInv(steps[..|steps| - 1]);
      StepKeepsInv(Exec(steps[..|steps| - 1]).value, steps[|steps| - 1]);
    }
  }

  /** Whatever the interleaving, a returned header was signed for some request with the
      caller's cache key, outlives the time the caller read by more than the refresh skew,
      and expires within twelve hours of being returned. */
  lemma ReturnedHeader(steps: seq<Step>, t: nat)
    requires Exec(steps).Some?
    requires var s := Exec(steps).value; t in s.threads && s.threads[t].Returned?
    ensures
      var s := Exec(steps).value;
      var Returned(r, now, h, at) := s.threads[t];
      && h.request in s.asked && CacheKey(h.request) == CacheKey(r)
      && now + REFRESH_SKEW < h.expiration <= at + LIFETIME
      && ExpClaim(h) * SECOND <= h.expiration < (ExpClaim(h) + 1) * SECOND
      && now < ExpClaim(h) * SECOND <= at + RFC8292_LIMIT
      && now + 15 * 60 * 1_000_000_000 < h.expiration <= at + 12 * 3600 * 1_000_000_000
      && now < ExpClaim(h) * 1_000_000_000 <= at + 24 * 3600 * 1_000_000_000
  {
    RunKeepsInv(steps);
    assert ThreadInv(Exec(steps).value.threads[t], Exec(steps).value);
  }

  /** No audience or subscriber contains a newline, and a public key has one private key. */
  ghost predicate CleanRequests(asked: set<Request>) {
    && (forall r <- asked :: '\n' !in r.audience && '\n' !in r.subscriber)
    && (forall r <- asked, r' <- asked :: r.publicKey == r'.publicKey ==> r.privateKey == r'.privateKey)
  }

  /** Under those conditions the header was signed for exactly what the caller asked. */
  lemma ReturnedHeaderIsTheCallers(steps: seq<Step>, t: nat)
    requires Exec(steps).Some?
    requires var s := Exec(steps).value;
      t in s.threads && s.threads[t].Returned? && CleanRequests(s.asked)
    ensures var thread := Exec(steps).value.threads[t]; thread.header.request == thread.request
  {
    hide CacheKey;
    ReturnedHeader(steps, t);
    RunKeepsInv(steps);
    var s := Exec(steps).value;
    var thread := s.threads[t];
    assert ThreadInv(thread, s);
    CacheKeyInjective(thread.header.request, thread.request);
  }

  /** A header signed for a caller who read the time `now` expires twelve hours later, and is what
      every caller with the same key gets who reads a time more than fifteen minutes before that,
      until another header is stored under the key; whoever reads a later time signs anew. */
  lemma SignedIsReused(s: State, t: nat, later: State, t': nat)
    requires Inv(s) && Enabled(s, Store(t)) && Enabled(later, Lookup(t'))
    requires CacheKey(s.threads[t].request) == CacheKey(later.threads[t'].request)
    requires
      var key, stored := CacheKey(s.threads[t].request), Next(s, Store(t)).headers;
      key in later.headers && key in stored && later.headers[key] == stored[key]
    ensures
      var Signed(r, now, header) := s.threads[t];
      var Looking(r', now') := later.threads[t'];
      && header.expiration == now + 12 * 3600 * 1_000_000_000
      && Next(later, Lookup(t')).threads[t'] ==
           if now' + 15 * 60 * 1_000_000_000 < header.expiration then Holding(r', now', header) else Missed(r', now')
  {
    hide CacheKey;
    assert ThreadInv(s.threads[t], s);
  }

  /** Nothing but a store touches a cached header, and each store only its own key. */
  lemma OnlyStoresChange(s: State, step: Step, key: string)
    requires Enabled(s, step)
    requires step.Store? ==> CacheKey(s.threads[step.t].request) != key
    ensures key in Next(s, step).headers <==> key in s.headers
    ensures key in s.headers ==> Next(s, step).headers[key] == s.headers[key]
  {
    hide CacheKey;
  }

  /** The same for one caller at a time: after a header has been signed, later callers with its
      key get it back, unsigned ones among them, until fifteen minutes before it expires. */
  lemma AloneReuses(headers: map<string, Cached>, r: Request, now: nat, clock: nat,
                    r': Request, now': nat, clock': nat, signed': bool)
    requires CacheKey(r') == CacheKey(r)
    requires CacheKey(r) in headers ==> headers[CacheKey(r)].refreshAfter <= now
    ensures
      var (first, cache) := Alone(headers, r, now, clock, true);
      var (second, _) := Alone(cache, r', now', clock', signed');
      && first == Some(Header(r, now + 12 * 3600 * 1_000_000_000))
      && second ==
           if now' + 15 * 60 * 1_000_000_000 < now + 12 * 3600 * 1_000_000_000 then first
           else if signed' then Some(Header(r', now' + 12 * 3600 * 1_000_000_000))
           else None
  {
    hide CacheKey;
  }

  /** All requests come from one client. */
  ghost predicate OneClient(asked: set<Request>) {
    forall r <- asked, r' <- asked ::
      r.subscriber == r'.subscriber && r.publicKey == r'.publicKey && r.privateKey == r'.privateKey
  }

  /** In the cache of one client, whatever its subscriber and keys contain, a returned header
      was signed for exactly what the caller asked. */
  lemma ClientGetsItsHeader(steps: seq<Step>, t: nat)
    requires Exec(steps).Some?
    requires var s := Exec(steps).value;
      t in s.threads && s.threads[t].Returned? && OneClient(s.asked)
    ensures var thread := Exec(steps).value.threads[t]; thread.header.request == thread.request
  {
    hide CacheKey;
    ReturnedHeader(steps, t);
    RunKeepsInv(steps);
    var s := Exec(steps).value;
    var thread := s.threads[t];
    assert ThreadInv(thread, s);
    KeyIsAudience(thread.header.request, thread.request);
  }

  /** With no other thread moving in between, the interleaved steps of one thread are the
      one-caller operation. */
  lemma AloneIsTheMachine(s: State, t: nat, r: Request, signed: bool)
    requires t !in s.threads
    ensures
      var s1 := Next(Next(s, Enter(t, r)), ReadClock(t));
      var s2 := Next(s1, Lookup(t));
      var (result, headers) := Alone(s.headers, r, s.clock, s.clock, signed);
      if s2.threads[t].Holding? then
        result == Some(s2.threads[t].header) && s2.headers == headers
      else
        var s3 := Next(s2, Sign(t, signed));
        if s3.threads[t].Failed? then result == None && s3.headers == headers
        else
          var s4 := Next(s3, Store(t));
          result == Some(s4.threads[t].header) && s4.headers == headers
  {
    hide CacheKey;
  }
}
