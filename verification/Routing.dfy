/** From a site publish to a client key: Redis channels, prefixes and their resolution
    (internal/sse/hub.go, internal/provider/site/site.go). */
module Routing {
  import opened Wrappers
  import opened Strings
  import Targets

  /** Redis prefix by target name. */
  type Prefixes = map<string, string>

  datatype Route = Route(target: string, subject: string)

  /** The route follows a configured, non-empty prefix of the channel that no other
      configured prefix of the channel exceeds. */
  predicate IsRoute(prefixes: Prefixes, channel: string, r: Route) {
    && r.target in prefixes
    && prefixes[r.target] != ""
    && channel == prefixes[r.target] + r.subject
    && forall t <- prefixes :: HasPrefix(channel, prefixes[t]) ==> |prefixes[t]| <= |prefixes[r.target]|
  }

  predicate Unroutable(prefixes: Prefixes, channel: string) {
    forall t <- prefixes :: HasPrefix(channel, prefixes[t]) ==> prefixes[t] == ""
  }

  /** `resolveChannel`; the loop visits the targets in whatever order the map yields. */
  method ResolveChannel(prefixes: Prefixes, channel: string) returns (route: Option<Route>)
    ensures route.None? ==> Unroutable(prefixes, channel)
    ensures route.Some? ==> IsRoute(prefixes, channel, route.value)
  {
    var longestPrefix, target := "", "";
    var rest := prefixes.Keys;
    while rest != {}
      invariant rest <= prefixes.Keys
      invariant longestPrefix == "" ||
        (target in prefixes && prefixes[target] == longestPrefix && HasPrefix(channel, longestPrefix))
      invariant forall t <- prefixes.Keys - rest ::
        HasPrefix(channel, prefixes[t]) ==> |prefixes[t]| <= |longestPrefix|
      decreases |rest|
    {
      var name :| name in rest;
      rest := rest - {name};
      var prefix := prefixes[name];
      if HasPrefix(channel, prefix) && |prefix| > |longestPrefix| {
        longestPrefix := prefix;
        target := name;
      }
    }
    assert prefixes.Keys - rest == prefixes.Keys;
    if longestPrefix == "" {
      return None;
    }
    return Some(Route(target, TrimPrefix(channel, longestPrefix)));
  }

  ghost predicate DistinctPrefixes(prefixes: Prefixes) {
    forall t <- prefixes, t' <- prefixes :: prefixes[t] == prefixes[t'] ==> t == t'
  }

  /** The method's answer is determined when no two targets share a prefix. */
  lemma RouteIsUnique(prefixes: Prefixes, channel: string, r: Route, r': Route)
    requires DistinctPrefixes(prefixes)
    requires IsRoute(prefixes, channel, r) && IsRoute(prefixes, channel, r')
    ensures r == r'
  {
    var p, p' := prefixes[r.target], prefixes[r'.target];
    assert HasPrefix(channel, p) && HasPrefix(channel, p');
    assert p == channel[..|p|] == channel[..|p'|] == p';
    assert r.subject == channel[|p|..] == r'.subject;
  }

  /** A non-empty beginning of some canonical UUID text. */
  predicate BeginsUUID(u: string) {
    && 0 < |u| <= 36
    && forall i :: 0 <= i < |u| ==>
      if i == 8 || i == 13 || i == 18 || i == 23 then u[i] == '-' else IsHex(u[i])
  }

  const SAMPLE_UUID := "00000000-0000-0000-0000-000000000000"

  lemma SampleIsCanonical()
    ensures CanonicalUUID(SAMPLE_UUID)
  {
    assert |SAMPLE_UUID| == 36;
    assert SAMPLE_UUID[..18] == "00000000-0000-0000";
    assert SAMPLE_UUID[18..] == "-0000-000000000000";
    forall i | 0 <= i < 36
      ensures if i == 8 || i == 13 || i == 18 || i == 23 then SAMPLE_UUID[i] == '-' else IsHex(SAMPLE_UUID[i])
    {
      if i < 18 {
        assert SAMPLE_UUID[i] == SAMPLE_UUID[..18][i];
      } else {
        assert SAMPLE_UUID[i] == SAMPLE_UUID[18..][i - 18];
      }
    }
  }

  lemma BeginningExtends(u: string) returns (uuid: string)
    requires BeginsUUID(u)
    ensures CanonicalUUID(uuid) && HasPrefix(uuid, u)
  {
    SampleIsCanonical();
    uuid := u + SAMPLE_UUID[|u|..];
    forall i | 0 <= i < 36
      ensures if i == 8 || i == 13 || i == 18 || i == 23 then uuid[i] == '-' else IsHex(uuid[i])
    {
      if |u| <= i {
        assert uuid[i] == SAMPLE_UUID[i];
      }
    }
  }

  /** What a caller can check of the prefixes: none empty, no two equal, and none that is
      another followed by what could begin a recipient. */
  ghost predicate WellSeparated(prefixes: Prefixes) {
    && DistinctPrefixes(prefixes)
    && (forall t <- prefixes :: prefixes[t] != "")
    && (forall t <- prefixes, t' <- prefixes ::
          HasPrefix(prefixes[t'], prefixes[t]) ==> !BeginsUUID(prefixes[t'][|prefixes[t]|..]))
  }

  /** Publishing to a target's prefix plus the recipient resolves to that target and that
      recipient, and to nothing else. */
  ghost predicate RoundTrips(prefixes: Prefixes, t: string, recipient: string)
    requires t in prefixes
  {
    forall r :: IsRoute(prefixes, prefixes[t] + recipient, r) <==> r == Route(t, recipient)
  }

  /** A longer prefix of a publish's channel runs into the recipient. */
  lemma LongerBegins(p: string, q: string, recipient: string)
    requires CanonicalUUID(recipient) && HasPrefix(p + recipient, q) && |q| > |p|
    ensures HasPrefix(q, p) && BeginsUUID(q[|p|..])
  {
    var channel := p + recipient;
    assert q == channel[..|q|];
    assert p == channel[..|p|] == q[..|p|];
    var u := q[|p|..];
    assert u == recipient[..|u|];
  }

  lemma SeparatedRoundTrips(prefixes: Prefixes, t: string, recipient: string)
    requires WellSeparated(prefixes) && t in prefixes && CanonicalUUID(recipient)
    ensures RoundTrips(prefixes, t, recipient)
  {
    var p := prefixes[t];
    var channel := p + recipient;
    forall t' <- prefixes | HasPrefix(channel, prefixes[t']) ensures |prefixes[t']| <= |p| {
      var q := prefixes[t'];
      if |q| > |p| {
        LongerBegins(p, q, recipient);
      }
    }
    assert IsRoute(prefixes, channel, Route(t, recipient));
    forall r | IsRoute(prefixes, channel, r) ensures r == Route(t, recipient) {
      RouteIsUnique(prefixes, channel, r, Route(t, recipient));
    }
  }

  lemma EmptyFails(prefixes: Prefixes, t: string, recipient: string)
    requires t in prefixes && prefixes[t] == ""
    ensures !RoundTrips(prefixes, t, recipient)
  {
    assert !IsRoute(prefixes, prefixes[t] + recipient, Route(t, recipient));
  }

  lemma SharedFails(prefixes: Prefixes, t: string, t': string, recipient: string)
    requires t in prefixes && t' in prefixes && t != t' && prefixes[t] == prefixes[t']
    ensures !RoundTrips(prefixes, t, recipient)
  {
    var channel := prefixes[t] + recipient;
    if IsRoute(prefixes, channel, Route(t, recipient)) {
      assert IsRoute(prefixes, channel, Route(t', recipient));
    }
  }

  lemma NestedFails(prefixes: Prefixes, t: string, t': string) returns (recipient: string)
    requires t in prefixes && t' in prefixes && HasPrefix(prefixes[t'], prefixes[t])
    requires BeginsUUID(prefixes[t'][|prefixes[t]|..])
    ensures CanonicalUUID(recipient) && !RoundTrips(prefixes, t, recipient)
  {
    var p, q := prefixes[t], prefixes[t'];
    recipient := BeginningExtends(q[|p|..]);
    var channel := p + recipient;
    assert |q| > |p|;
    assert channel[..|q|] == q;
    assert HasPrefix(channel, q);
    assert !IsRoute(prefixes, channel, Route(t, recipient));
  }

  lemma UnseparatedFails(prefixes: Prefixes) returns (t: string, recipient: string)
    requires !WellSeparated(prefixes)
    ensures t in prefixes && CanonicalUUID(recipient) && !RoundTrips(prefixes, t, recipient)
  {
    hide BeginsUUID, CanonicalUUID, RoundTrips;
    SampleIsCanonical();
    recipient := SAMPLE_UUID;
    if empty :| empty in prefixes && prefixes[empty] == "" {
      t := empty;
      EmptyFails(prefixes, t, recipient);
    } else if a, b :| a in prefixes && b in prefixes && prefixes[a] == prefixes[b] && a != b {
      t := a;
      SharedFails(prefixes, a, b, recipient);
    } else {
      var a, b :| a in prefixes && b in prefixes && HasPrefix(prefixes[b], prefixes[a])
        && BeginsUUID(prefixes[b][|prefixes[a]|..]);
      t := a;
      recipient := NestedFails(prefixes, a, b);
    }
  }

  /** The routing round trip holds for every target and every canonical recipient exactly
      when the prefixes are well separated. */
  lemma RoundTripIff(prefixes: Prefixes)
    ensures (forall t, recipient :: t in prefixes && CanonicalUUID(recipient) ==> RoundTrips(prefixes, t, recipient))
            <==> WellSeparated(prefixes)
  {
    if WellSeparated(prefixes) {
      forall t, recipient | t in prefixes && CanonicalUUID(recipient) ensures RoundTrips(prefixes, t, recipient) {
        SeparatedRoundTrips(prefixes, t, recipient);
      }
    } else {
      var t, recipient := UnseparatedFails(prefixes);
    }
  }

  /** Prefixes that each end in ':' are well separated as soon as they are distinct. */
  lemma ColonsSeparate(prefixes: Prefixes)
    requires DistinctPrefixes(prefixes)
    requires forall t <- prefixes :: prefixes[t] != "" && prefixes[t][|prefixes[t]| - 1] == ':'
    ensures WellSeparated(prefixes)
  {
    forall t <- prefixes, t' <- prefixes | HasPrefix(prefixes[t'], prefixes[t])
      ensures !BeginsUUID(prefixes[t'][|prefixes[t]|..])
    {
      var u := prefixes[t'][|prefixes[t]|..];
      if u != "" {
        assert u[|u| - 1] == ':';
      }
    }
  }

  /** Two or more targets that leave their prefixes to be derived are always well
      separated, whatever the base prefix and the order in which Go ranges. */
  lemma DerivedPrefixesSeparate(order: seq<string>, cfg: Targets.SiteConfig, base: string)
    requires Targets.IterationOrder(order, cfg)
    requires Targets.EffectiveIn(order, cfg, base).Ok?
    requires |Targets.Names(cfg)| >= 2
    requires forall k <- cfg.targets :: TrimSpace(cfg.targets[k]) == ""
    ensures WellSeparated(Targets.EffectiveIn(order, cfg, base).value.prefixes)
  {
    hide TrimSpace, Targets.EffectiveIn;
    Targets.AcceptedMeaning(order, cfg, base);
    var prefixes := Targets.EffectiveIn(order, cfg, base).value.prefixes;
    forall n <- prefixes ensures prefixes[n] == base + n + ":" {
      assert Targets.Origin(cfg, base, n, prefixes[n]);
    }
    forall n <- prefixes, n' <- prefixes | prefixes[n] == prefixes[n'] ensures n == n' {
      assert n == prefixes[n][|base|..|prefixes[n]| - 1];
      assert n' == prefixes[n'][|base|..|prefixes[n']| - 1];
    }
    ColonsSeparate(prefixes);
  }

  // ----- one publish, its messages, and the key they reach -----

  function ClientKey(target: string, subject: string): string {
    target + "\0" + subject
  }

  /** Keys of different (target, subject) pairs differ, as subjects hold no NUL. */
  lemma ClientKeyInjective(target: string, subject: string, target': string, subject': string)
    requires '\0' !in subject && '\0' !in subject'
    requires ClientKey(target, subject) == ClientKey(target', subject')
    ensures target == target' && subject == subject'
  {
    var k := ClientKey(target, subject);
    assert k == target' + "\0" + subject';
    assert k[|target|] == '\0' && k[|target'|] == '\0';
    assert forall i :: |target| < i < |k| ==> k[i] == subject[i - |target| - 1];
    assert forall i :: |target'| < i < |k| ==> k[i] == subject'[i - |target'| - 1];
    assert |target| == |target'|;
    assert target == k[..|target|] == target';
    assert subject == k[|target| + 1..] == subject';
  }

  /** Redis sends a subscriber one message per subscribed pattern that matches; the hub
      subscribes to each prefix followed by `*`, equal patterns counting once. Prefixes are
      taken free of the pattern characters. */
  function Matching(prefixes: Prefixes, channel: string): set<string> {
    set t <- prefixes | HasPrefix(channel, prefixes[t]) :: prefixes[t]
  }

  ghost predicate PrefixFree(prefixes: Prefixes) {
    forall t <- prefixes, t' <- prefixes :: HasPrefix(prefixes[t'], prefixes[t]) ==> prefixes[t'] == prefixes[t]
  }

  /** A channel under a prefix of prefix-free targets matches one pattern, hence one message. */
  lemma PrefixFreeMatchesOnce(prefixes: Prefixes, channel: string, name: string)
    requires PrefixFree(prefixes) && name in prefixes && HasPrefix(channel, prefixes[name])
    ensures Matching(prefixes, channel) == {prefixes[name]}
  {
    var p := prefixes[name];
    forall t <- prefixes | HasPrefix(channel, prefixes[t]) ensures prefixes[t] == p {
      var q := prefixes[t];
      assert q == channel[..|q|] && p == channel[..|p|];
      assert q == p[..|q|];
      assert HasPrefix(p, q);
    }
  }

  /** Under two different prefixes, one the beginning of the other, a channel matches both. */
  lemma NestedMatchTwice(prefixes: Prefixes, outer: string, inner: string, recipient: string)
    requires outer in prefixes && inner in prefixes
    requires HasPrefix(prefixes[inner], prefixes[outer]) && prefixes[inner] != prefixes[outer]
    ensures |Matching(prefixes, prefixes[inner] + recipient)| >= 2
  {
    var p, q := prefixes[outer], prefixes[inner];
    var channel := q + recipient;
    assert channel[..|q|] == q;
    assert channel[..|p|] == q[..|p|];
    var m := Matching(prefixes, channel);
    assert p in m && q in m;
    assert |m - {p}| == |m| - 1;
    assert q in m - {p};
  }

  /** Every publish of the site provider gives one message exactly when no configured prefix
      is the beginning of a different one. */
  lemma OneMessageIff(prefixes: Prefixes)
    ensures (forall t, recipient :: t in prefixes && CanonicalUUID(recipient) ==>
              |Matching(prefixes, prefixes[t] + recipient)| == 1)
            <==> PrefixFree(prefixes)
  {
    hide CanonicalUUID, Matching;
    if PrefixFree(prefixes) {
      forall t, recipient | t in prefixes && CanonicalUUID(recipient)
        ensures |Matching(prefixes, prefixes[t] + recipient)| == 1
      {
        assert (prefixes[t] + recipient)[..|prefixes[t]|] == prefixes[t];
        PrefixFreeMatchesOnce(prefixes, prefixes[t] + recipient, t);
      }
    } else {
      var outer, inner :| outer in prefixes && inner in prefixes
        && HasPrefix(prefixes[inner], prefixes[outer]) && prefixes[inner] != prefixes[outer];
      SampleIsCanonical();
      NestedMatchTwice(prefixes, outer, inner, SAMPLE_UUID);
    }
  }

  /** The reference configuration nests one prefix in another: its inner target gets each
      message twice. */
  lemma NestedPrefixesMatchTwice(recipient: string)
    ensures
      var prefixes := map["admin" := "notify:", "main" := "notify:main:"];
      |Matching(prefixes, "notify:main:" + recipient)| == 2
  {
    var prefixes := map["admin" := "notify:", "main" := "notify:main:"];
    var channel := "notify:main:" + recipient;
    assert "notify:main:"[..7] == "notify:";
    assert channel[..7] == "notify:" && channel[..12] == "notify:main:";
    assert HasPrefix(channel, prefixes["admin"]) && HasPrefix(channel, prefixes["main"]);
    var m := Matching(prefixes, channel);
    assert "notify:" in m && "notify:main:" in m;
    assert m == {"notify:", "notify:main:"};
    assert |"notify:"| == 7 && |"notify:main:"| == 12;
  }
}
