/** Topic filters, the preference list a user sees, and the channels a delivery uses
    (internal/domain/types.go, internal/store/postgres.go, internal/dispatch/dispatcher.go). */
module Preferences {
  import opened Strings
  import opened Domain

  /** A row of `notification_preferences`; `config` is raw JSON, "" when absent. */
  datatype Preference = Preference(channel: Channel, enabled: bool, config: string, topics: seq<string>)

  datatype ResolvedPreference = ResolvedPreference(channel: Channel, config: string)

  /** One filter after trimming: the topic itself, or a prefix of it followed by `*`. */
  predicate FilterSelects(filter: string, topic: string) {
    var f := TrimSpace(filter);
    f != "" && (f == topic || (HasSuffix(f, "*") && HasPrefix(topic, TrimSuffix(f, "*"))))
  }

  predicate TopicSelected(filters: seq<string>, topic: string) {
    filters == [] || exists f <- filters :: FilterSelects(f, topic)
  }

  method TopicMatches(filters: seq<string>, topic: string) returns (matches: bool)
    ensures matches <==> TopicSelected(filters, topic)
  {
    if |filters| == 0 {
      return true;
    }
    for i := 0 to |filters|
      invariant forall k :: 0 <= k < i ==> !FilterSelects(filters[k], topic)
    {
      var filter := TrimSpace(filters[i]);
      if filter == "" {
        continue;
      }
      if filter == topic {
        assert FilterSelects(filters[i], topic);
        return true;
      }
      if HasSuffix(filter, "*") && HasPrefix(topic, TrimSuffix(filter, "*")) {
        assert FilterSelects(filters[i], topic);
        return true;
      }
    }
    return false;
  }

  /** A filter that ends in `*` selects the topics that begin with what comes before it. */
  lemma StarSelects(p: string, topic: string)
    requires p == "" || !IsSpace(p[0])
    ensures TopicSelected([p + "*"], topic) <==> p <= topic
  {
    hide TrimSpace;
    var f := p + "*";
    assert f[0] == if p == "" then '*' else p[0];
    assert f[|f| - 1] == '*';
    TrimmedIsFixed(f);
    assert f[|f| - 1..] == "*" && f[..|f| - 1] == p;
    assert TrimSuffix(f, "*") == p;
    assert FilterSelects(f, topic) <==> f == topic || HasPrefix(topic, p);
    hide FilterSelects;
    SoleSelects(f, topic);
  }

  lemma SoleSelects(f: string, topic: string)
    ensures TopicSelected([f], topic) <==> FilterSelects(f, topic)
  {
    hide FilterSelects;
    assert TopicSelected([f], topic) <==> FilterSelects([f][0], topic);
  }

  /** Any other filter selects its own topic alone. */
  lemma PlainSelects(f: string, topic: string)
    requires f != "" && Trimmed(f) && f[|f| - 1] != '*'
    ensures TopicSelected([f], topic) <==> topic == f
  {
    hide TrimSpace;
    TrimmedIsFixed(f);
    SoleSelects(f, topic);
  }

  /** Spaces around a filter do not matter, and a blank filter selects nothing. */
  lemma SpacedSelects(f: string, topic: string)
    ensures TopicSelected([f], topic) <==> TrimSpace(f) != "" && TopicSelected([TrimSpace(f)], topic)
  {
    TrimIdempotent(f);
    hide TrimSpace;
    SoleSelects(f, topic);
    SoleSelects(TrimSpace(f), topic);
  }

  /** No filters select every topic, several select what any of them selects. */
  lemma ListSelects(filters: seq<string>, topic: string)
    ensures TopicSelected(filters, topic) <==> filters == [] || exists f <- filters :: TopicSelected([f], topic)
  {
    hide FilterSelects;
    forall f ensures TopicSelected([f], topic) <==> FilterSelects(f, topic) {
      SoleSelects(f, topic);
    }
  }

  predicate HasNonBlank(filters: seq<string>) {
    exists f <- filters :: TrimSpace(f) != ""
  }

  /** A preference whose filters are stored normalised selects the same topics, except
      when every filter is blank: those select nothing, their normal form everything. */
  lemma NormalizeTopicsKeepsMeaning(filters: seq<string>)
    ensures (forall t :: TopicSelected(Unique(filters), t) <==> TopicSelected(filters, t))
            <==> filters == [] || HasNonBlank(filters)
  {
    if filters == [] {
    } else if HasNonBlank(filters) {
      forall t ensures TopicSelected(Unique(filters), t) <==> TopicSelected(filters, t) {
        NormalizedFiltersSelect(filters, t);
      }
    } else {
      if Unique(filters) != [] {
        UniqueMembers(filters, Unique(filters)[0]);
      }
      assert TopicSelected(Unique(filters), "") && !TopicSelected(filters, "");
    }
  }

  lemma NormalizedFiltersSelect(filters: seq<string>, t: string)
    requires HasNonBlank(filters)
    ensures TopicSelected(Unique(filters), t) <==> TopicSelected(filters, t)
  {
    hide TrimSpace;
    var w :| w in filters && TrimSpace(w) != "";
    UniqueMembers(filters, TrimSpace(w));
    if TopicSelected(filters, t) {
      var f :| f in filters && FilterSelects(f, t);
      TrimIdempotent(f);
      UniqueMembers(filters, TrimSpace(f));
      assert FilterSelects(TrimSpace(f), t);
    }
    if TopicSelected(Unique(filters), t) {
      var u :| u in Unique(filters) && FilterSelects(u, t);
      UniqueMembers(filters, u);
      var f :| f in filters && TrimSpace(f) == u;
      TrimIdempotent(f);
      assert FilterSelects(f, t);
    }
  }

  /** The primary key (subject, channel) makes one subject's rows unique by channel. */
  ghost predicate UniqueByChannel(prefs: seq<Preference>) {
    forall i, j :: 0 <= i < j < |prefs| ==> prefs[i].channel != prefs[j].channel
  }

  // ----- the preference list a user sees -----

  const DEFAULTS: seq<Preference> := [
    Preference(SITE, true, "{}", []),
    Preference(WEB_PUSH, false, "{}", [])]

  /** Where a channel is listed, or the length. */
  function IndexOf(prefs: seq<Preference>, c: Channel): (i: nat)
    ensures i <= |prefs|
    ensures i < |prefs| ==> prefs[i].channel == c
    ensures forall k :: 0 <= k < i ==> prefs[k].channel != c
  {
    if prefs == [] || prefs[0].channel == c then 0 else 1 + IndexOf(prefs[1..], c)
  }

  /** Stored preferences laid over the defaults, one after the other. */
  function Merged(prefs: seq<Preference>): seq<Preference>
    decreases |prefs|
  {
    if prefs == [] then DEFAULTS
    else
      Put(Merged(prefs[..|prefs| - 1]), prefs[|prefs| - 1])
  }

  function Put(out: seq<Preference>, pref: Preference): seq<Preference> {
    var i := IndexOf(out, pref.channel);
    if i < |out| then out[i := pref] else out + [pref]
  }

  lemma IndexOfIs(out: seq<Preference>, c: Channel, k: nat)
    requires k <= |out| && (k < |out| ==> out[k].channel == c)
    requires forall j :: 0 <= j < |out| && j != k ==> out[j].channel != c
    ensures IndexOf(out, c) == k
  {
  }

  method MergeDefaults(prefs: seq<Preference>) returns (out: seq<Preference>)
    ensures out == Merged(prefs)
  {
    hide IndexOf;
    out := DEFAULTS;
    var index: map<Channel, nat> := map[SITE := 0, WEB_PUSH := 1];
    for i := 0 to |prefs|
      invariant out == Merged(prefs[..i])
      invariant forall c :: c in index ==> index[c] < |out| && out[index[c]].channel == c
      invariant forall k :: 0 <= k < |out| ==> out[k].channel in index && index[out[k].channel] == k
    {
      var pref := prefs[i];
      assert prefs[..i + 1][..i] == prefs[..i];
      IndexOfIs(out, pref.channel, if pref.channel in index then index[pref.channel] else |out|);
      if pref.channel in index {
        out := out[index[pref.channel] := pref];
        continue;
      }
      index := index[pref.channel := |out|];
      out := out + [pref];
    }
    assert prefs[..|prefs|] == prefs;
  }

  /** The last stored preference for a channel. */
  function LastFor(prefs: seq<Preference>, c: Channel): (i: nat)
    ensures i <= |prefs|
    ensures i < |prefs| ==> prefs[i].channel == c
    ensures i < |prefs| ==> forall k :: i < k < |prefs| ==> prefs[k].channel != c
    ensures i == |prefs| ==> forall k :: 0 <= k < |prefs| ==> prefs[k].channel != c
    decreases |prefs|
  {
    if prefs == [] then 0
    else if prefs[|prefs| - 1].channel == c then |prefs| - 1
    else
      var i := LastFor(prefs[..|prefs| - 1], c);
      if i == |prefs| - 1 then |prefs| else i
  }

  lemma PutMeaning(out: seq<Preference>, pref: Preference)
    requires UniqueByChannel(out)
    ensures UniqueByChannel(Put(out, pref))
    ensures forall p :: p in Put(out, pref) <==> if p.channel == pref.channel then p == pref else p in out
  {
    var i := IndexOf(out, pref.channel);
    var r := Put(out, pref);
    if i < |out| {
      assert r[i] == pref;
      forall p | p in out && p.channel != pref.channel ensures p in r {
        var k :| 0 <= k < |out| && out[k] == p;
        assert r[k] == p;
      }
    } else {
      assert forall p <- out :: p.channel != pref.channel;
    }
  }

  lemma LastForExtended(prefs: seq<Preference>, last: Preference, c: Channel)
    ensures LastFor(prefs + [last], c) ==
      if last.channel == c then |prefs|
      else if LastFor(prefs, c) < |prefs| then LastFor(prefs, c)
      else |prefs| + 1
  {
    assert (prefs + [last])[..|prefs|] == prefs;
  }

  /** What the list shows for a channel: the stored preference where there is one, else the default. */
  ghost predicate Listed(p: Preference, prefs: seq<Preference>) {
    var i := LastFor(prefs, p.channel);
    if i < |prefs| then p == prefs[i] else p in DEFAULTS
  }

  /** The list has one entry per channel; site and web push are always listed. */
  lemma {:induction false} MergedMeaning(prefs: seq<Preference>)
    ensures UniqueByChannel(Merged(prefs))
    ensures forall p :: p in Merged(prefs) <==> Listed(p, prefs)
    decreases |prefs|
  {
    if prefs != [] {
      var init, last := prefs[..|prefs| - 1], prefs[|prefs| - 1];
      MergedMeaning(init);
      PutMeaning(Merged(init), last);
      assert prefs == init + [last];
      forall p ensures p in Merged(prefs) <==> Listed(p, prefs) {
        LastForExtended(init, last, p.channel);
      }
    }
  }

  /** Every stored preference is listed, and site (on) and web push (off) where none is stored
      for them; nothing else is. */
  lemma MergedEntries(prefs: seq<Preference>)
    requires UniqueByChannel(prefs)
    ensures forall p :: p in Merged(prefs) <==>
        || p in prefs
        || (p == Preference("site", true, "{}", []) && forall q <- prefs :: q.channel != "site")
        || (p == Preference("web_push", false, "{}", []) && forall q <- prefs :: q.channel != "web_push")
  {
    hide Merged, LastFor;
    MergedMeaning(prefs);
    forall p ensures Listed(p, prefs) <==>
      (p in prefs
        || (p == Preference("site", true, "{}", []) && forall q <- prefs :: q.channel != "site")
        || (p == Preference("web_push", false, "{}", []) && forall q <- prefs :: q.channel != "web_push"))
    {
      var i := LastFor(prefs, p.channel);
      if p in prefs {
        var k :| 0 <= k < |prefs| && prefs[k] == p;
        assert i == k;
      }
      if i < |prefs| {
        assert prefs[i] in prefs;
      }
    }
  }

  /** The two stand in the stored preferences in this order. */
  ghost predicate InOrder(p: Preference, q: Preference, prefs: seq<Preference>) {
    exists a, b :: 0 <= a < b < |prefs| && prefs[a] == p && prefs[b] == q
  }

  /** Site comes first, web push second, the other stored channels in their order. */
  lemma {:induction false} MergedOrder(prefs: seq<Preference>)
    requires UniqueByChannel(prefs)
    ensures
      var out := Merged(prefs);
      && |out| >= 2 && out[0].channel == "site" && out[1].channel == "web_push"
      && forall i, j :: 2 <= i < j < |out| ==> InOrder(out[i], out[j], prefs)
    decreases |prefs|
  {
    if prefs != [] {
      var init, last := prefs[..|prefs| - 1], prefs[|prefs| - 1];
      assert prefs == init + [last];
      MergedOrder(init);
      NewIsAppended(init, last);
      var before, after := Merged(init), Merged(prefs);
      assert after == Put(before, last);
      hide Merged;
      forall i, j | 2 <= i < j < |after| ensures InOrder(after[i], after[j], prefs) {
        if j < |before| {
          assert InOrder(before[i], before[j], init);
          var a, b :| 0 <= a < b < |init| && init[a] == before[i] && init[b] == before[j];
          assert prefs[a] == after[i] && prefs[b] == after[j];
        } else {
          OthersAreStored(init, i);
          var a :| 0 <= a < |init| && init[a] == before[i];
          assert prefs[a] == after[i] && prefs[|init|] == after[j];
        }
      }
    }
  }

  /** A preference for a channel not stored yet replaces a default or goes to the end. */
  lemma NewIsAppended(prefs: seq<Preference>, last: Preference)
    requires UniqueByChannel(prefs + [last]) && UniqueByChannel(prefs) && |Merged(prefs)| >= 2
    requires Merged(prefs)[0].channel == "site" && Merged(prefs)[1].channel == "web_push"
    ensures var k := IndexOf(Merged(prefs), last.channel); k < 2 || k == |Merged(prefs)|
  {
    hide Merged;
    var out := Merged(prefs);
    forall k | 2 <= k < |out| ensures out[k].channel != last.channel {
      OthersAreStored(prefs, k);
      var a :| 0 <= a < |prefs| && prefs[a] == out[k];
      assert (prefs + [last])[a] == prefs[a] && (prefs + [last])[|prefs|] == last;
    }
  }

  lemma OthersAreStored(prefs: seq<Preference>, i: nat)
    requires UniqueByChannel(prefs) && 2 <= i < |Merged(prefs)|
    requires Merged(prefs)[0].channel == "site" && Merged(prefs)[1].channel == "web_push"
    ensures Merged(prefs)[i] in prefs
  {
    MergedEntries(prefs);
    MergedMeaning(prefs);
    hide Merged, Listed;
    assert Merged(prefs)[i] in Merged(prefs);
  }

  // ----- the channels one delivery uses -----

  /** Channels the notification names, minus those the recipient has switched off. */
  function Requested(channels: seq<Channel>, prefs: seq<Preference>): seq<ResolvedPreference>
    decreases |channels|
  {
    if channels == [] then []
    else
      var rest := Requested(channels[..|channels| - 1], prefs);
      var c := channels[|channels| - 1];
      var i := LastFor(prefs, c);
      if i == |prefs| then rest + [ResolvedPreference(c, "")]
      else if prefs[i].enabled then rest + [ResolvedPreference(c, prefs[i].config)]
      else rest
  }

  /** Channels the recipient has switched on for the topic. */
  function Opted(prefs: seq<Preference>, topic: string): seq<ResolvedPreference>
    decreases |prefs|
  {
    if prefs == [] then []
    else
      var rest := Opted(prefs[..|prefs| - 1], topic);
      var p := prefs[|prefs| - 1];
      if p.enabled && TopicSelected(p.topics, topic) then rest + [ResolvedPreference(p.channel, p.config)]
      else rest
  }

  function Resolved(prefs: seq<Preference>, channels: seq<Channel>, topic: string): seq<ResolvedPreference> {
    if channels != [] then Requested(channels, prefs)
    else if prefs == [] then [ResolvedPreference(SITE, "")]
    else Opted(prefs, topic)
  }

  /** The map that the first loop of `resolveChannels` builds. */
  method ByChannel(prefs: seq<Preference>) returns (byChannel: map<Channel, Preference>)
    ensures forall c :: c in byChannel <==> LastFor(prefs, c) < |prefs|
    ensures forall c :: c in byChannel ==> byChannel[c] == prefs[LastFor(prefs, c)]
  {
    byChannel := map[];
    for i := 0 to |prefs|
      invariant forall c :: c in byChannel <==> LastFor(prefs[..i], c) < i
      invariant forall c :: c in byChannel ==> byChannel[c] == prefs[LastFor(prefs[..i], c)]
    {
      assert prefs[..i + 1] == prefs[..i] + [prefs[i]];
      forall c {
        LastForExtended(prefs[..i], prefs[i], c);
      }
      hide LastFor;
      byChannel := byChannel[prefs[i].channel := prefs[i]];
    }
    assert prefs[..|prefs|] == prefs;
  }

  method ResolveChannels(prefs: seq<Preference>, channels: seq<Channel>, topic: string)
    returns (out: seq<ResolvedPreference>)
    ensures out == Resolved(prefs, channels, topic)
  {
    hide LastFor, TopicSelected;
    var byChannel := ByChannel(prefs);

    out := [];
    if |channels| > 0 {
      for i := 0 to |channels|
        invariant out == Requested(channels[..i], prefs)
      {
        var c := channels[i];
        assert channels[..i + 1][..i] == channels[..i];
        var ok := c in byChannel;
        if ok && !byChannel[c].enabled {
          continue;
        }
        var cfg := "";
        if ok {
          cfg := byChannel[c].config;
        }
        out := out + [ResolvedPreference(c, cfg)];
      }
      assert channels[..|channels|] == channels;
      return;
    }

    if |prefs| == 0 {
      return [ResolvedPreference(SITE, "")];
    }

    for i := 0 to |prefs|
      invariant out == Opted(prefs[..i], topic)
    {
      assert prefs[..i + 1][..i] == prefs[..i];
      var matches := TopicMatches(prefs[i].topics, topic);
      if !prefs[i].enabled || !matches {
        continue;
      }
      out := out + [ResolvedPreference(prefs[i].channel, prefs[i].config)];
    }
    assert prefs[..|prefs|] == prefs;
  }

  ghost predicate DistinctChannels(resolved: seq<ResolvedPreference>) {
    forall i, j :: 0 <= i < j < |resolved| ==> resolved[i].channel != resolved[j].channel
  }

  /** When a resolved preference is among the result, and why. */
  ghost predicate ShouldUse(r: ResolvedPreference, prefs: seq<Preference>, channels: seq<Channel>, topic: string) {
    var i := LastFor(prefs, r.channel);
    if channels != [] then
      && r.channel in channels
      && if i < |prefs| then prefs[i].enabled && r.config == prefs[i].config else r.config == ""
    else if prefs == [] then
      r == ResolvedPreference(SITE, "")
    else
      exists p <- prefs :: p.enabled && TopicSelected(p.topics, topic)
        && r == ResolvedPreference(p.channel, p.config)
  }

  lemma {:induction false} RequestedMeaning(channels: seq<Channel>, prefs: seq<Preference>)
    ensures forall r :: r in Requested(channels, prefs) <==>
      var i := LastFor(prefs, r.channel);
      && r.channel in channels
      && if i < |prefs| then prefs[i].enabled && r.config == prefs[i].config else r.config == ""
    ensures Distinct(channels) ==> DistinctChannels(Requested(channels, prefs))
    decreases |channels|
  {
    if channels != [] {
      RequestedMeaning(channels[..|channels| - 1], prefs);
      assert channels == channels[..|channels| - 1] + [channels[|channels| - 1]];
    }
  }

  lemma {:induction false} OptedMeaning(prefs: seq<Preference>, topic: string)
    ensures forall r :: r in Opted(prefs, topic) <==>
      exists p <- prefs :: p.enabled && TopicSelected(p.topics, topic)
        && r == ResolvedPreference(p.channel, p.config)
    ensures UniqueByChannel(prefs) ==> DistinctChannels(Opted(prefs, topic))
    decreases |prefs|
  {
    hide TopicSelected;
    if prefs != [] {
      var init, last := prefs[..|prefs| - 1], prefs[|prefs| - 1];
      OptedMeaning(init, topic);
      assert prefs == init + [last];
      assert forall p :: p in prefs <==> p in init || p == last;
      if UniqueByChannel(prefs) {
        forall r | r in Opted(init, topic) ensures r.channel != last.channel {
          var p :| p in init && r.channel == p.channel;
        }
      }
    }
  }

  /** Exactly the channels that should be used, each at most once. */
  lemma ResolvedMeaning(prefs: seq<Preference>, channels: seq<Channel>, topic: string)
    requires UniqueByChannel(prefs) && Distinct(channels)
    ensures DistinctChannels(Resolved(prefs, channels, topic))
    ensures forall r :: r in Resolved(prefs, channels, topic) <==> ShouldUse(r, prefs, channels, topic)
  {
    hide TopicSelected;
    if channels != [] {
      RequestedMeaning(channels, prefs);
    } else {
      OptedMeaning(prefs, topic);
    }
  }

  /** A delivery uses the channels the notification names, unless the recipient has switched
      them off, each with the recipient's configuration if there is one; else, if it names
      none, the site when the recipient has stored nothing, and otherwise what the recipient
      has switched on for the topic. */
  lemma ResolvedChannels(prefs: seq<Preference>, channels: seq<Channel>, topic: string, c: Channel, config: string)
    requires UniqueByChannel(prefs) && Distinct(channels)
    ensures ResolvedPreference(c, config) in Resolved(prefs, channels, topic) <==>
      if channels != [] then
        && c in channels
        && (forall p <- prefs :: p.channel == c ==> p.enabled && p.config == config)
        && ((forall p <- prefs :: p.channel != c) ==> config == "")
      else if prefs == [] then
        c == "site" && config == ""
      else
        exists p <- prefs :: p.channel == c && p.config == config && p.enabled && TopicSelected(p.topics, topic)
  {
    hide TopicSelected, Resolved;
    ResolvedMeaning(prefs, channels, topic);
    var i := LastFor(prefs, c);
    hide LastFor;
    if i < |prefs| {
      assert prefs[i] in prefs;
      assert forall p <- prefs :: p.channel == c ==> p == prefs[i];
    } else {
      assert forall p <- prefs :: p.channel != c;
    }
  }

  /** In the order of the notification's channels, or of the stored preferences. */
  lemma ResolvedOrder(prefs: seq<Preference>, channels: seq<Channel>, topic: string, i: nat, j: nat)
    requires i < j < |Resolved(prefs, channels, topic)|
    ensures
      var out := Resolved(prefs, channels, topic);
      if channels != [] then
        exists a, b :: 0 <= a < b < |channels| && channels[a] == out[i].channel && channels[b] == out[j].channel
      else
        exists a, b :: 0 <= a < b < |prefs| && prefs[a].channel == out[i].channel && prefs[b].channel == out[j].channel
  {
    hide TopicSelected;
    if channels != [] {
      RequestedOrder(channels, prefs, i, j);
    } else {
      OptedOrder(prefs, topic, i, j);
    }
  }

  lemma {:induction false} RequestedOrder(channels: seq<Channel>, prefs: seq<Preference>, i: nat, j: nat)
    requires i < j < |Requested(channels, prefs)|
    ensures
      var out := Requested(channels, prefs);
      exists a, b :: 0 <= a < b < |channels| && channels[a] == out[i].channel && channels[b] == out[j].channel
    decreases |channels|
  {
    var init, last := channels[..|channels| - 1], channels[|channels| - 1];
    assert channels == init + [last];
    var before := Requested(init, prefs);
    if j < |before| {
      RequestedOrder(init, prefs, i, j);
      var a, b :| 0 <= a < b < |init| && init[a] == before[i].channel && init[b] == before[j].channel;
      assert channels[a] == init[a] && channels[b] == init[b];
    } else {
      RequestedMeaning(init, prefs);
      assert before[i] in before;
      var a :| 0 <= a < |init| && init[a] == before[i].channel;
      assert channels[a] == init[a] && channels[|init|] == last;
    }
  }

  lemma {:induction false} OptedOrder(prefs: seq<Preference>, topic: string, i: nat, j: nat)
    requires i < j < |Opted(prefs, topic)|
    ensures
      var out := Opted(prefs, topic);
      exists a, b :: 0 <= a < b < |prefs| && prefs[a].channel == out[i].channel && prefs[b].channel == out[j].channel
    decreases |prefs|
  {
    hide TopicSelected;
    var init, last := prefs[..|prefs| - 1], prefs[|prefs| - 1];
    assert prefs == init + [last];
    var before := Opted(init, topic);
    if j < |before| {
      OptedOrder(init, topic, i, j);
      var a, b :| 0 <= a < b < |init| && init[a].channel == before[i].channel && init[b].channel == before[j].channel;
      assert prefs[a] == init[a] && prefs[b] == init[b];
    } else {
      OptedMeaning(init, topic);
      assert before[i] in before;
      var p :| p in init && p.channel == before[i].channel;
      var a :| 0 <= a < |init| && init[a] == p;
      assert prefs[a] == init[a] && prefs[|init|] == last;
    }
  }

  // ----- what is shown against what is delivered -----

  /** Channels a user sees switched on for a topic. */
  ghost function Shown(prefs: seq<Preference>, topic: string): set<Channel> {
    set p <- Merged(prefs) | p.enabled && TopicSelected(p.topics, topic) :: p.channel
  }

  /** Channels a notification without channels of its own goes out on. */
  ghost function Delivered(prefs: seq<Preference>, topic: string): set<Channel> {
    set r <- Resolved(prefs, [], topic) :: r.channel
  }

  ghost predicate HasSite(prefs: seq<Preference>) {
    exists p <- prefs :: p.channel == SITE
  }

  /** The list a user sees agrees with delivery on every topic exactly when the user has
      stored nothing or has stored a site preference: otherwise the site channel is shown
      as on but not used. */
  lemma ShownIsDelivered(prefs: seq<Preference>)
    requires UniqueByChannel(prefs)
    ensures (forall t :: Shown(prefs, t) == Delivered(prefs, t)) <==> prefs == [] || HasSite(prefs)
  {
    hide TopicSelected, Merged, Opted;
    MergedMeaning(prefs);
    forall t {
      ShownMembers(prefs, t);
    }
    if prefs != [] && !HasSite(prefs) {
      SiteOnlyShown(prefs);
      assert Shown(prefs, "") != Delivered(prefs, "");
    }
  }

  lemma SiteOnlyShown(prefs: seq<Preference>)
    requires UniqueByChannel(prefs) && prefs != [] && !HasSite(prefs)
    ensures SITE in Shown(prefs, "") && SITE !in Delivered(prefs, "")
  {
    MergedMeaning(prefs);
    OptedMeaning(prefs, "");
    var site := DEFAULTS[0];
    assert forall k :: 0 <= k < |prefs| ==> prefs[k] in prefs;
    assert site in Merged(prefs);
    assert TopicSelected(site.topics, "");
  }

  lemma ShownMembers(prefs: seq<Preference>, t: string)
    requires UniqueByChannel(prefs)
    ensures prefs == [] || HasSite(prefs) ==> Shown(prefs, t) == Delivered(prefs, t)
  {
    hide Merged, Opted;
    MergedMeaning(prefs);
    OptedMeaning(prefs, t);
    if prefs == [] {
      assert forall p :: p in Merged(prefs) <==> p in DEFAULTS;
      assert Resolved(prefs, [], t)[0].channel == SITE;
      assert DEFAULTS[0] in DEFAULTS;
    } else if HasSite(prefs) {
      forall c ensures c in Shown(prefs, t) <==> c in Delivered(prefs, t) {
        SameMember(prefs, t, c);
      }
    }
  }

  lemma SameMember(prefs: seq<Preference>, t: string, c: Channel)
    requires UniqueByChannel(prefs) && HasSite(prefs)
    ensures c in Shown(prefs, t) <==> c in Delivered(prefs, t)
  {
    hide Merged, Opted, TopicSelected;
    MergedMeaning(prefs);
    OptedMeaning(prefs, t);
    assert DEFAULTS[0].channel == SITE && !DEFAULTS[1].enabled;
    var s :| s in prefs && s.channel == SITE;
    assert LastFor(prefs, SITE) < |prefs|;
    var i := LastFor(prefs, c);
    assert forall k :: 0 <= k < |prefs| && prefs[k].channel == c ==> k == i;
    if i < |prefs| {
      OnlyEntry(prefs, t, i);
    } else {
      assert forall p <- prefs :: p.channel != c;
    }
  }

  lemma OnlyEntry(prefs: seq<Preference>, t: string, i: nat)
    requires UniqueByChannel(prefs) && i < |prefs|
    ensures prefs[i].channel in Shown(prefs, t) <==> prefs[i].enabled && TopicSelected(prefs[i].topics, t)
    ensures prefs[i].channel in Delivered(prefs, t) <==> prefs[i].enabled && TopicSelected(prefs[i].topics, t)
  {
    hide Merged, Opted, TopicSelected;
    MergedMeaning(prefs);
    OptedMeaning(prefs, t);
    var p := prefs[i];
    assert p in prefs && LastFor(prefs, p.channel) == i;
    assert p in Merged(prefs);
    assert forall q <- prefs :: q.channel == p.channel ==> q == p;
    if p.enabled && TopicSelected(p.topics, t) {
      assert ResolvedPreference(p.channel, p.config) in Opted(prefs, t);
    }
  }
}
