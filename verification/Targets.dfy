/** Named site targets and their Redis prefixes (internal/config/config.go), and the choice
    of one for a notification (internal/provider/site/site.go). */
module Targets {
  import opened Strings
  import opened GoErrors
  import opened Domain

  /** As configured: raw target names with raw prefixes, and a raw default name. */
  datatype SiteConfig = SiteConfig(defaultTarget: string, targets: map<string, string>)

  /** Effective prefixes by target name, and the default name. */
  datatype Resolution = Resolution(prefixes: map<string, string>, defaultTarget: string)

  const BLANK_NAME := Plain("providers.site.targets keys must not be empty")
  const NO_DEFAULT := Plain("providers.site.default_target is required when multiple site targets are configured")
  const UNKNOWN_DEFAULT := Plain("providers.site.default_target is not defined under providers.site.targets")

  /** One order in which Go may range over the configured targets. */
  ghost predicate IterationOrder(order: seq<string>, cfg: SiteConfig) {
    Distinct(order) && forall k :: k in order <==> k in cfg.targets
  }

  /** The trimmed targets after ranging: the last of several raw names that trim alike wins. */
  function Collected(order: seq<string>, cfg: SiteConfig): map<string, string>
    requires forall k <- order :: k in cfg.targets
    decreases |order|
  {
    if order == [] then map[]
    else
      var k := order[|order| - 1];
      Collected(order[..|order| - 1], cfg)[TrimSpace(k) := TrimSpace(cfg.targets[k])]
  }

  /** An empty prefix becomes the base for a sole target, base + name + ":" otherwise. */
  function EffectivePrefix(name: string, prefix: string, count: nat, base: string): string {
    if prefix != "" then prefix
    else if count == 1 then base
    else base + name + ":"
  }

  ghost function Finish(raw: map<string, string>, defaultTarget: string, base: string): Result<Resolution> {
    if raw == map[] then
      var d := if defaultTarget == "" then "default" else defaultTarget;
      Ok(Resolution(map[d := base], d))
    else if defaultTarget == "" && |raw| != 1 then Err(NO_DEFAULT)
    else
      var d := if defaultTarget == "" then (var n :| n in raw; n) else defaultTarget;
      if d !in raw then Err(UNKNOWN_DEFAULT)
      else Ok(Resolution(map n <- raw :: EffectivePrefix(n, raw[n], |raw|, base), d))
  }

  /** The outcome when Go ranges in this order. */
  ghost function EffectiveIn(order: seq<string>, cfg: SiteConfig, base: string): Result<Resolution>
    requires IterationOrder(order, cfg)
  {
    if exists k <- order :: TrimSpace(k) == "" then Err(BLANK_NAME)
    else Finish(Collected(order, cfg), TrimSpace(cfg.defaultTarget), base)
  }

  lemma SoleKey<V>(m: map<string, V>, a: string, b: string)
    requires |m| == 1 && a in m && b in m
    ensures a == b
  {
    var rest := m.Keys - {a};
    assert |rest| == 0;
    assert b !in rest;
  }

  method EffectiveTargets(cfg: SiteConfig, base: string, order: seq<string>) returns (r: Result<Resolution>)
    requires IterationOrder(order, cfg)
    ensures r == EffectiveIn(order, cfg, base)
  {
    hide TrimSpace, EffectivePrefix;
    var targets: map<string, string> := map[];
    for i := 0 to |order|
      invariant forall k <- order[..i] :: TrimSpace(k) != ""
      invariant targets == Collected(order[..i], cfg)
    {
      var name := TrimSpace(order[i]);
      if name == "" {
        return Err(BLANK_NAME);
      }
      assert order[..i + 1] == order[..i] + [order[i]];
      targets := targets[name := TrimSpace(cfg.targets[order[i]])];
    }
    assert order[..|order|] == order;
    ghost var raw := targets;

    var defaultTarget := TrimSpace(cfg.defaultTarget);
    if |targets| == 0 {
      if defaultTarget == "" {
        defaultTarget := "default";
      }
      targets := targets[defaultTarget := base];
      return Ok(Resolution(targets, defaultTarget));
    }

    if defaultTarget == "" {
      if |targets| != 1 {
        return Err(NO_DEFAULT);
      }
      var name :| name in targets;
      defaultTarget := name;
      forall n | n in targets ensures n == name { SoleKey(targets, n, name); }
    }
    if defaultTarget !in targets {
      return Err(UNKNOWN_DEFAULT);
    }

    targets := FillPrefixes(targets, base);
    return Ok(Resolution(targets, defaultTarget));
  }

  /** The last loop of `EffectiveTargets`: its order does not matter, so any is taken. */
  method FillPrefixes(raw: map<string, string>, base: string) returns (targets: map<string, string>)
    ensures targets == map n <- raw :: EffectivePrefix(n, raw[n], |raw|, base)
  {
    targets := raw;
    var rest := raw.Keys;
    while rest != {}
      invariant targets.Keys == raw.Keys && |targets| == |raw|
      invariant rest <= raw.Keys
      invariant forall n <- raw ::
        targets[n] == if n in rest then raw[n] else EffectivePrefix(n, raw[n], |raw|, base)
      decreases |rest|
    {
      var name :| name in rest;
      rest := rest - {name};
      if targets[name] == "" {
        if |targets| == 1 {
          targets := targets[name := base];
        } else {
          targets := targets[name := base + name + ":"];
        }
        assert targets.Keys == raw.Keys;
        assert |targets| == |targets.Keys|;
      }
    }
  }

  // ----- when the outcome does not depend on the order -----

  ghost function Names(cfg: SiteConfig): set<string> {
    set k <- cfg.targets :: TrimSpace(k)
  }

  /** The configuration is refused whatever the order. */
  ghost predicate Refused(cfg: SiteConfig) {
    var d := TrimSpace(cfg.defaultTarget);
    || "" in Names(cfg)
    || (Names(cfg) != {} && if d == "" then |Names(cfg)| != 1 else d !in Names(cfg))
  }

  /** Two raw names that trim to one name lead to one prefix. */
  ghost predicate NoClash(cfg: SiteConfig, base: string) {
    forall k <- cfg.targets, k' <- cfg.targets :: TrimSpace(k) == TrimSpace(k') ==>
      Prefix(k, cfg, base) == Prefix(k', cfg, base)
  }

  /** The effective prefix that a raw entry would have if it won. */
  ghost function Prefix(k: string, cfg: SiteConfig, base: string): string
    requires k in cfg.targets
  {
    EffectivePrefix(TrimSpace(k), TrimSpace(cfg.targets[k]), |Names(cfg)|, base)
  }

  /** The raw prefix comes from a listed name that trims to this one. */
  ghost predicate ListedAs(order: seq<string>, cfg: SiteConfig, n: string, raw: string) {
    exists k <- order :: k in cfg.targets && TrimSpace(k) == n && raw == TrimSpace(cfg.targets[k])
  }

  lemma {:induction false} CollectedMeaning(order: seq<string>, cfg: SiteConfig)
    requires forall k <- order :: k in cfg.targets
    ensures forall n :: n in Collected(order, cfg) <==> exists k <- order :: TrimSpace(k) == n
    ensures forall n <- Collected(order, cfg) :: ListedAs(order, cfg, n, Collected(order, cfg)[n])
    decreases |order|
  {
    hide TrimSpace;
    if order != [] {
      var init, last := order[..|order| - 1], order[|order| - 1];
      assert order == init + [last];
      CollectedMeaning(init, cfg);
      var before, after := Collected(init, cfg), Collected(order, cfg);
      forall n <- after ensures ListedAs(order, cfg, n, after[n]) {
        if n == TrimSpace(last) {
          assert last in order;
        } else {
          assert n in before && after[n] == before[n] && ListedAs(init, cfg, n, before[n]);
        }
      }
    }
  }

  lemma CollectedKeys(order: seq<string>, cfg: SiteConfig)
    requires IterationOrder(order, cfg)
    ensures Collected(order, cfg).Keys == Names(cfg)
    ensures |Collected(order, cfg)| == |Names(cfg)|
    ensures (exists k <- order :: TrimSpace(k) == "") <==> "" in Names(cfg)
  {
    hide TrimSpace, Collected;
    CollectedMeaning(order, cfg);
    assert |Collected(order, cfg)| == |Collected(order, cfg).Keys|;
  }

  /** The effective prefix of some raw name that trims to this one. */
  ghost predicate Origin(cfg: SiteConfig, base: string, n: string, prefix: string) {
    exists k <- cfg.targets :: TrimSpace(k) == n && prefix == Prefix(k, cfg, base)
  }

  /** What an accepted configuration resolves to, without mention of the order. */
  lemma AcceptedMeaning(order: seq<string>, cfg: SiteConfig, base: string)
    requires IterationOrder(order, cfg)
    ensures EffectiveIn(order, cfg, base).Err? <==> Refused(cfg)
    ensures EffectiveIn(order, cfg, base).Ok? && Names(cfg) != {} ==>
      var r := EffectiveIn(order, cfg, base).value;
      && r.prefixes.Keys == Names(cfg)
      && r.defaultTarget in Names(cfg)
      && (TrimSpace(cfg.defaultTarget) != "" ==> r.defaultTarget == TrimSpace(cfg.defaultTarget))
      && forall n <- r.prefixes :: Origin(cfg, base, n, r.prefixes[n])
  {
    hide TrimSpace, Collected, EffectivePrefix, Origin;
    CollectedKeys(order, cfg);
    var raw := Collected(order, cfg);
    assert raw == map[] <==> Names(cfg) == {};
    if EffectiveIn(order, cfg, base).Ok? && Names(cfg) != {} {
      var r := EffectiveIn(order, cfg, base).value;
      forall n <- r.prefixes ensures Origin(cfg, base, n, r.prefixes[n]) {
        OriginOfCollected(order, cfg, base, n);
      }
    }
  }

  /** The prefix of a target whose raw names do not clash: as configured, trimmed; else the base
      for a sole target, and the base followed by the name and a colon for one of several. */
  lemma PrefixOfTarget(order: seq<string>, cfg: SiteConfig, base: string, k: string)
    requires IterationOrder(order, cfg) && NoClash(cfg, base) && k in cfg.targets
    requires EffectiveIn(order, cfg, base).Ok?
    ensures
      var prefixes, name, raw := EffectiveIn(order, cfg, base).value.prefixes, TrimSpace(k), TrimSpace(cfg.targets[k]);
      && name in prefixes
      && prefixes[name] ==
           if raw != "" then raw
           else if (forall k' <- cfg.targets :: TrimSpace(k') == name) then base
           else base + name + ":"
  {
    hide TrimSpace, EffectiveIn, IterationOrder, NoClash, Refused, Origin, Prefix, Names;
    AcceptedMeaning(order, cfg, base);
    NameListed(cfg, k);
    OwnOrigin(cfg, base, k);
    PrefixSpelled(cfg, base, k);
    var prefixes := EffectiveIn(order, cfg, base).value.prefixes;
    OneOrigin(cfg, base, TrimSpace(k), prefixes[TrimSpace(k)], Prefix(k, cfg, base));
  }

  lemma NameListed(cfg: SiteConfig, k: string)
    requires k in cfg.targets
    ensures TrimSpace(k) in Names(cfg)
  {
    hide TrimSpace;
  }

  lemma OwnOrigin(cfg: SiteConfig, base: string, k: string)
    requires k in cfg.targets
    ensures Origin(cfg, base, TrimSpace(k), Prefix(k, cfg, base))
  {
    hide TrimSpace, Prefix;
  }

  lemma PrefixSpelled(cfg: SiteConfig, base: string, k: string)
    requires k in cfg.targets
    ensures Prefix(k, cfg, base) ==
      if TrimSpace(cfg.targets[k]) != "" then TrimSpace(cfg.targets[k])
      else if (forall k' <- cfg.targets :: TrimSpace(k') == TrimSpace(k)) then base
      else base + TrimSpace(k) + ":"
  {
    hide TrimSpace;
    SoleNameIff(cfg, k);
    hide Names;
  }

  lemma SoleNameIff(cfg: SiteConfig, k: string)
    requires k in cfg.targets
    ensures |Names(cfg)| == 1 <==> forall k' <- cfg.targets :: TrimSpace(k') == TrimSpace(k)
  {
    hide TrimSpace;
    var name := TrimSpace(k);
    assert name in Names(cfg);
    if forall k' <- cfg.targets :: TrimSpace(k') == name {
      assert Names(cfg) == {name};
    } else {
      var k' :| k' in cfg.targets && TrimSpace(k') != name;
      SubsetSize({name, TrimSpace(k')}, Names(cfg));
    }
  }

  lemma SubsetSize(small: set<string>, large: set<string>)
    requires small <= large
    ensures |small| <= |large|
  {
    assert |large - small| == |large| - |small|;
  }

  /** Without configured targets there is one, with the base as its prefix and the default's
      name, or `default` if that is blank. */
  lemma NoTargets(order: seq<string>, cfg: SiteConfig, base: string)
    requires IterationOrder(order, cfg) && cfg.targets == map[]
    ensures
      var d := if TrimSpace(cfg.defaultTarget) == "" then "default" else TrimSpace(cfg.defaultTarget);
      EffectiveIn(order, cfg, base) == Ok(Resolution(map[d := base], d))
  {
    hide TrimSpace;
    assert forall k :: k !in order;
    NothingIn(order);
  }

  lemma NothingIn(order: seq<string>)
    ensures (forall k :: k !in order) ==> order == []
  {
    if order != [] {
      assert order[0] in order;
    }
  }

  /** A configuration is refused for a blank name, for a default that is missing among several
      targets, and for one that names none of them. */
  lemma RefusedIff(order: seq<string>, cfg: SiteConfig, base: string)
    requires IterationOrder(order, cfg)
    ensures EffectiveIn(order, cfg, base).Err? <==>
      || (exists k <- cfg.targets :: TrimSpace(k) == "")
      || (TrimSpace(cfg.defaultTarget) == ""
          && exists k <- cfg.targets, k' <- cfg.targets :: TrimSpace(k) != TrimSpace(k'))
      || (TrimSpace(cfg.defaultTarget) != "" && cfg.targets != map[]
          && forall k <- cfg.targets :: TrimSpace(k) != TrimSpace(cfg.defaultTarget))
  {
    hide TrimSpace, EffectiveIn, IterationOrder, Origin;
    AcceptedMeaning(order, cfg, base);
    NamesEmptyIff(cfg);
    if cfg.targets != map[] {
      var k :| k in cfg.targets;
      SoleNameIff(cfg, k);
    }
  }

  lemma NamesEmptyIff(cfg: SiteConfig)
    ensures Names(cfg) == {} <==> cfg.targets == map[]
  {
    hide TrimSpace;
    if cfg.targets != map[] {
      var k :| k in cfg.targets;
      assert TrimSpace(k) in Names(cfg);
    }
  }

  lemma OriginOfCollected(order: seq<string>, cfg: SiteConfig, base: string, n: string)
    requires IterationOrder(order, cfg) && n in Collected(order, cfg)
    ensures
      var raw := Collected(order, cfg);
      Origin(cfg, base, n, EffectivePrefix(n, raw[n], |raw|, base))
  {
    hide TrimSpace, Collected, EffectivePrefix;
    CollectedMeaning(order, cfg);
    CollectedKeys(order, cfg);
    assert ListedAs(order, cfg, n, Collected(order, cfg)[n]);
  }

  lemma OneOrigin(cfg: SiteConfig, base: string, n: string, p: string, p': string)
    requires NoClash(cfg, base) && Origin(cfg, base, n, p) && Origin(cfg, base, n, p')
    ensures p == p'
  {
    hide TrimSpace, Prefix;
  }

  lemma OrdersAgree(order: seq<string>, order': seq<string>, cfg: SiteConfig, base: string)
    requires IterationOrder(order, cfg) && IterationOrder(order', cfg)
    requires Refused(cfg) || NoClash(cfg, base)
    ensures EffectiveIn(order, cfg, base) == EffectiveIn(order', cfg, base)
  {
    AcceptedMeaning(order, cfg, base);
    AcceptedMeaning(order', cfg, base);
    CollectedKeys(order, cfg);
    CollectedKeys(order', cfg);
    if Refused(cfg) {
      RefusedAlike(order, order', cfg, base);
    } else if Names(cfg) == {} {
      assert Collected(order, cfg) == map[] && Collected(order', cfg) == map[];
    } else {
      SamePrefixes(order, order', cfg, base);
      var r, r' := EffectiveIn(order, cfg, base).value, EffectiveIn(order', cfg, base).value;
      if TrimSpace(cfg.defaultTarget) == "" {
        assert |r.prefixes| == |r.prefixes.Keys|;
        SoleKey(r.prefixes, r.defaultTarget, r'.defaultTarget);
      }
    }
  }

  lemma RefusedAlike(order: seq<string>, order': seq<string>, cfg: SiteConfig, base: string)
    requires IterationOrder(order, cfg) && IterationOrder(order', cfg) && Refused(cfg)
    ensures EffectiveIn(order, cfg, base) == EffectiveIn(order', cfg, base)
  {
    hide TrimSpace, Collected, EffectivePrefix;
    AcceptedMeaning(order, cfg, base);
    AcceptedMeaning(order', cfg, base);
    CollectedKeys(order, cfg);
    CollectedKeys(order', cfg);
  }

  lemma SamePrefixes(order: seq<string>, order': seq<string>, cfg: SiteConfig, base: string)
    requires IterationOrder(order, cfg) && IterationOrder(order', cfg)
    requires !Refused(cfg) && NoClash(cfg, base) && Names(cfg) != {}
    ensures EffectiveIn(order, cfg, base).Ok? && EffectiveIn(order', cfg, base).Ok?
    ensures EffectiveIn(order, cfg, base).value.prefixes == EffectiveIn(order', cfg, base).value.prefixes
  {
    hide TrimSpace, EffectiveIn, Origin, NoClash;
    AcceptedMeaning(order, cfg, base);
    AcceptedMeaning(order', cfg, base);
    var r, r' := EffectiveIn(order, cfg, base).value, EffectiveIn(order', cfg, base).value;
    forall n <- Names(cfg) ensures r.prefixes[n] == r'.prefixes[n] {
      OneOrigin(cfg, base, n, r.prefixes[n], r'.prefixes[n]);
    }
  }

  lemma {:induction false} SomeOrder(keys: set<string>) returns (order: seq<string>)
    ensures Distinct(order) && forall k :: k in order <==> k in keys
    decreases |keys|
  {
    order := [];
    if keys != {} {
      var k :| k in keys;
      var rest := SomeOrder(keys - {k});
      order := rest + [k];
    }
  }

  /** Any raw name can come last, and then its entry wins. */
  lemma LastWins(cfg: SiteConfig, base: string, k: string) returns (order: seq<string>)
    requires k in cfg.targets && !Refused(cfg)
    ensures IterationOrder(order, cfg)
    ensures EffectiveIn(order, cfg, base).Ok?
    ensures TrimSpace(k) in EffectiveIn(order, cfg, base).value.prefixes
    ensures EffectiveIn(order, cfg, base).value.prefixes[TrimSpace(k)] == Prefix(k, cfg, base)
  {
    hide TrimSpace, EffectivePrefix;
    var rest := SomeOrder(cfg.targets.Keys - {k});
    order := rest + [k];
    assert order[..|order| - 1] == rest;
    assert TrimSpace(k) in Names(cfg);
    AcceptedMeaning(order, cfg, base);
    CollectedKeys(order, cfg);
  }

  /** The targets are the same for every iteration order exactly when the configuration is
      refused or no two raw names that trim alike differ in their effective prefix. */
  lemma OneResultIff(cfg: SiteConfig, base: string)
    ensures
      (forall o, o' :: IterationOrder(o, cfg) && IterationOrder(o', cfg) ==>
        EffectiveIn(o, cfg, base) == EffectiveIn(o', cfg, base))
      <==> Refused(cfg) || NoClash(cfg, base)
  {
    hide TrimSpace, EffectivePrefix, EffectiveIn;
    if Refused(cfg) || NoClash(cfg, base) {
      forall o, o' | IterationOrder(o, cfg) && IterationOrder(o', cfg)
        ensures EffectiveIn(o, cfg, base) == EffectiveIn(o', cfg, base)
      {
        OrdersAgree(o, o', cfg, base);
      }
    } else {
      var k, k' :| k in cfg.targets && k' in cfg.targets && TrimSpace(k) == TrimSpace(k')
        && Prefix(k, cfg, base) != Prefix(k', cfg, base);
      var o := LastWins(cfg, base, k);
      var o' := LastWins(cfg, base, k');
      assert EffectiveIn(o, cfg, base) != EffectiveIn(o', cfg, base);
    }
  }

  /** Raw names that trim apart, as every sensible configuration has, never clash. */
  lemma DistinctNamesNeverClash(cfg: SiteConfig, base: string)
    requires forall k <- cfg.targets, k' <- cfg.targets :: TrimSpace(k) == TrimSpace(k') ==> k == k'
    ensures NoClash(cfg, base)
  {
  }

  // ----- what every accepted configuration gives -----

  lemma EffectivePrefixTrimmed(name: string, prefix: string, count: nat, base: string)
    requires Trimmed(base) && Trimmed(name) && name != "" && Trimmed(prefix)
    ensures Trimmed(EffectivePrefix(name, prefix, count, base))
  {
    var p := base + name + ":";
    assert p[|p| - 1] == ':';
    assert p[0] == if base == "" then name[0] else base[0];
  }

  /** The default is one of the targets, names are trimmed and non-empty, and a non-empty
      base leaves no prefix empty. */
  lemma ResolutionIsUsable(order: seq<string>, cfg: SiteConfig, base: string)
    requires IterationOrder(order, cfg) && EffectiveIn(order, cfg, base).Ok?
    ensures
      var r := EffectiveIn(order, cfg, base).value;
      && r.defaultTarget in r.prefixes
      && (forall n <- r.prefixes :: n != "" && Trimmed(n))
      && (base != "" ==> forall n <- r.prefixes :: r.prefixes[n] != "")
      && (Trimmed(base) ==> forall n <- r.prefixes :: Trimmed(r.prefixes[n]))
  {
    hide TrimSpace, Collected;
    AcceptedMeaning(order, cfg, base);
    CollectedKeys(order, cfg);
    TrimSpaceSplits(cfg.defaultTarget);
    var r := EffectiveIn(order, cfg, base).value;
    if Names(cfg) == {} {
      assert Collected(order, cfg) == map[];
      assert Trimmed("default");
    } else {
      forall n <- r.prefixes
        ensures n != "" && Trimmed(n) && (base != "" ==> r.prefixes[n] != "")
        ensures Trimmed(base) ==> Trimmed(r.prefixes[n])
      {
        assert Origin(cfg, base, n, r.prefixes[n]);
        var k :| k in cfg.targets && TrimSpace(k) == n && r.prefixes[n] == Prefix(k, cfg, base);
        TrimSpaceSplits(k);
        TrimSpaceSplits(cfg.targets[k]);
        if Trimmed(base) {
          EffectivePrefixTrimmed(n, TrimSpace(cfg.targets[k]), |Names(cfg)|, base);
        }
      }
    }
  }

  /** Resolving a resolution again changes nothing, when the base prefix is trimmed. */
  lemma ResolutionIsFixpoint(order: seq<string>, order': seq<string>, cfg: SiteConfig, base: string)
    requires Trimmed(base)
    requires IterationOrder(order, cfg) && EffectiveIn(order, cfg, base).Ok?
    requires
      var r := EffectiveIn(order, cfg, base).value;
      IterationOrder(order', SiteConfig(r.defaultTarget, r.prefixes))
    ensures
      var r := EffectiveIn(order, cfg, base).value;
      EffectiveIn(order', SiteConfig(r.defaultTarget, r.prefixes), base) == Ok(r)
  {
    hide TrimSpace, Collected, EffectiveIn;
    var r := EffectiveIn(order, cfg, base).value;
    var again := SiteConfig(r.defaultTarget, r.prefixes);
    ResolutionIsUsable(order, cfg, base);
    forall n <- r.prefixes ensures TrimSpace(n) == n { TrimmedIsFixed(n); }
    assert Names(again) == r.prefixes.Keys;
    TrimmedIsFixed(r.defaultTarget);
    AcceptedMeaning(order', again, base);
    var r' := EffectiveIn(order', again, base).value;
    assert |r.prefixes| == |r.prefixes.Keys|;
    forall n <- r.prefixes ensures r'.prefixes[n] == r.prefixes[n] {
      TrimmedIsFixed(r.prefixes[n]);
      if r.prefixes[n] == "" {
        EmptyPrefixIsSole(order, cfg, base, n);
      }
    }
    assert r'.prefixes == r.prefixes;
  }

  /** An effective prefix can only be empty for a sole target under an empty base. */
  lemma EmptyPrefixIsSole(order: seq<string>, cfg: SiteConfig, base: string, n: string)
    requires IterationOrder(order, cfg) && EffectiveIn(order, cfg, base).Ok?
    requires var r := EffectiveIn(order, cfg, base).value; n in r.prefixes && r.prefixes[n] == ""
    ensures |EffectiveIn(order, cfg, base).value.prefixes| == 1 && base == ""
  {
    hide TrimSpace, Collected;
    AcceptedMeaning(order, cfg, base);
    CollectedKeys(order, cfg);
    var r := EffectiveIn(order, cfg, base).value;
    if Names(cfg) == {} {
      assert Collected(order, cfg) == map[];
    } else {
      assert |r.prefixes| == |r.prefixes.Keys|;
    }
  }

  // ----- the target of one notification -----

  /** The preferred target in a preference's JSON config, as the decoder sees it. */
  type Decoder = string -> Result<string>

  function PreferredTarget(prefConfig: string, decode: Decoder): Result<string> {
    if prefConfig == "" then Ok("")
    else
      match decode(prefConfig)
      case Err(e) => Err(Wrap("decode site preference", e))
      case Ok(target) => Ok(TrimSpace(target))
  }

  function RequestedTarget(metadata: map<string, string>): string {
    if "site_target" in metadata then TrimSpace(metadata["site_target"]) else ""
  }

  /** The preference can be read, and the target that the metadata asks for, or else the
      preference, or else the default, is configured. */
  predicate Resolvable(r: Resolution, metadata: map<string, string>, prefConfig: string, decode: Decoder) {
    var preferred := PreferredTarget(prefConfig, decode);
    && preferred.Ok?
    && (if RequestedTarget(metadata) != "" then RequestedTarget(metadata)
        else if preferred.value != "" then preferred.value
        else r.defaultTarget) in r.prefixes
  }

  /** `resolveTarget`: metadata outranks the preference, which outranks the default; an
      unknown name is an error and falls back to nothing. */
  method ResolveTarget(r: Resolution, metadata: map<string, string>, prefConfig: string, decode: Decoder)
    returns (result: Result<string>)
    ensures result.Ok? ==> result.value in r.prefixes
    ensures result.Ok? <==> Resolvable(r, metadata, prefConfig, decode)
    ensures result.Ok? && RequestedTarget(metadata) != "" ==> result.value == RequestedTarget(metadata)
    ensures result.Ok? && RequestedTarget(metadata) == "" ==>
      var preferred := PreferredTarget(prefConfig, decode).value;
      result.value == if preferred != "" then preferred else r.defaultTarget
    ensures result.Err? ==> !result.error.Nil?
  {
    hide TrimSpace;
    var target := r.defaultTarget;
    if |prefConfig| > 0 {
      var decoded := decode(prefConfig);
      if decoded.Err? {
        return Err(Wrap("decode site preference", decoded.error));
      }
      var value := TrimSpace(decoded.value);
      if value != "" {
        target := value;
      }
    }
    if "site_target" in metadata {
      var value := TrimSpace(metadata["site_target"]);
      if value != "" {
        target := value;
      }
    }
    if target !in r.prefixes {
      return Err(Plain("site target " + target + " is not configured"));
    }
    return Ok(target);
  }
}
