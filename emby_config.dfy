/**
 * The Emby section of the configuration (internal/config/emby.go): validation and defaulting of
 * the fields in Emby.Init, the parsing of the `from => to` path mapping in Strm.Init, and the
 * single substitution Strm.MapPath applies to a path.
 */
module Config {
  import opened Wrappers
  import Strs

  const StrategyOrigin: string := "origin"
  const StrategyReject: string := "reject"
  /** The accepted proxy error strategies. */
  const ValidStrategies: set<string> := {StrategyOrigin, StrategyReject}
  /** The images quality that a configured 0 stands for. */
  const DefaultImagesQuality: int := 70
  /** The separator of a path mapping entry. */
  const Arrow: string := "=>"

  datatype StrmError = BadMapping(entry: string)

  datatype ConfigError =
    | MissingHost
    | MissingMountPath
    | MissingApiKey
    | BadStrategy
    | BadImagesQuality(quality: int)
    | BadStrm(cause: StrmError)

  // ---------------------------------------------------------------------------------------------
  // The path mapping entries

  /** The pieces of an entry around its arrows. */
  function Pieces(entry: string): (r: seq<string>)
    ensures |r| >= 1
  {
    Strs.Split(entry, Arrow)
  }

  /** An entry Strm.Init accepts: exactly one arrow. */
  predicate WellFormed(entry: string) {
    |Pieces(entry)| == 2
  }

  /** The trimmed source of a well-formed entry. */
  function From(entry: string): string
    requires WellFormed(entry)
  {
    Strs.TrimSpace(Pieces(entry)[0])
  }

  /** The trimmed target of a well-formed entry. */
  function To(entry: string): string
    requires WellFormed(entry)
  {
    Strs.TrimSpace(Pieces(entry)[1])
  }

  predicate AllWellFormed(entries: seq<string>) {
    forall k :: 0 <= k < |entries| ==> WellFormed(entries[k])
  }

  /** The position of the first entry Strm.Init rejects, or the length when it rejects none. */
  function FirstBad(entries: seq<string>): (i: nat)
    ensures i <= |entries| && forall k :: 0 <= k < i ==> WellFormed(entries[k])
    ensures i < |entries| ==> !WellFormed(entries[i])
  {
    if entries == [] then 0
    else if !WellFormed(entries[0]) then 0
    else
      var i := 1 + FirstBad(entries[1..]);
      assert forall k :: 1 <= k < i ==> entries[k] == entries[1..][k - 1];
      i
  }

  /** A position before which every entry is accepted and at which one is rejected (or the input ends) is the first rejected one. */
  lemma {:induction false} FirstBadIs(entries: seq<string>, i: nat)
    requires i <= |entries| && AllWellFormed(entries[..i])
    requires i < |entries| ==> !WellFormed(entries[i])
    ensures FirstBad(entries) == i
    decreases i
  {
    if i > 0 {
      var rest := entries[1..];
      assert entries[0] == entries[..i][0];
      var restPre := rest[..i - 1];
      forall k | 0 <= k < |restPre| ensures WellFormed(restPre[k]) {
        assert restPre[k] == entries[..i][k + 1];
      }
      assert i - 1 < |rest| ==> rest[i - 1] == entries[i];
      FirstBadIs(rest, i - 1);
    }
  }

  /** What Strm.Init reports for the entries: the first one it rejects, if any. */
  function EntriesError(entries: seq<string>): (r: Option<StrmError>)
    ensures r.None? <==> AllWellFormed(entries)
  {
    var i := FirstBad(entries);
    if i < |entries| then Some(BadMapping(entries[i])) else None
  }

  /** The (source, target) pairs of well-formed entries, in order. */
  function Pairs(entries: seq<string>): (r: seq<(string, string)>)
    requires AllWellFormed(entries)
    ensures |r| == |entries| && forall k :: 0 <= k < |entries| ==> r[k] == (From(entries[k]), To(entries[k]))
  {
    seq(|entries|, k requires 0 <= k < |entries| => (From(entries[k]), To(entries[k])))
  }

  /** The map that pairs build in order, a later source replacing an earlier one. */
  function MapOf(pairs: seq<(string, string)>): map<string, string>
    decreases |pairs|
  {
    if pairs == [] then map[]
    else MapOf(pairs[..|pairs| - 1])[pairs[|pairs| - 1].0 := pairs[|pairs| - 1].1]
  }

  /** The mapping that well-formed entries build. */
  function Mappings(entries: seq<string>): map<string, string>
    requires AllWellFormed(entries)
  {
    MapOf(Pairs(entries))
  }

  /** The sources of the map are the sources of the pairs. */
  lemma {:induction false} MapOfKeys(pairs: seq<(string, string)>, key: string)
    ensures key in MapOf(pairs) <==> exists k :: 0 <= k < |pairs| && pairs[k].0 == key
    decreases |pairs|
  {
    if pairs != [] {
      var n := |pairs| - 1;
      var init := pairs[..n];
      MapOfKeys(init, key);
      if exists k :: 0 <= k < |init| && init[k].0 == key {
        var k :| 0 <= k < |init| && init[k].0 == key;
        assert pairs[k] == init[k];
      }
      if exists k :: 0 <= k < |pairs| && pairs[k].0 == key {
        var k :| 0 <= k < |pairs| && pairs[k].0 == key;
        if k < n {
          assert init[k] == pairs[k];
        }
      }
    }
  }

  /** A source is mapped to the target of its last pair. */
  lemma {:induction false} MapOfLastWins(pairs: seq<(string, string)>, k: nat)
    requires k < |pairs|
    requires forall j :: k < j < |pairs| ==> pairs[j].0 != pairs[k].0
    ensures pairs[k].0 in MapOf(pairs) && MapOf(pairs)[pairs[k].0] == pairs[k].1
    decreases |pairs|
  {
    var n := |pairs| - 1;
    if k < n {
      var init := pairs[..n];
      assert init[k] == pairs[k];
      forall j | k < j < |init| ensures init[j].0 != init[k].0 {
        assert init[j] == pairs[j];
      }
      MapOfLastWins(init, k);
    }
  }

  /** The sources of the mapping are the sources of the entries. */
  lemma MappingsKeys(entries: seq<string>, key: string)
    requires AllWellFormed(entries)
    ensures key in Mappings(entries) <==> exists k :: 0 <= k < |entries| && From(entries[k]) == key
  {
    var pairs := Pairs(entries);
    MapOfKeys(pairs, key);
    if exists k :: 0 <= k < |pairs| && pairs[k].0 == key {
      var k :| 0 <= k < |pairs| && pairs[k].0 == key;
      assert From(entries[k]) == key;
    }
  }

  /** A source is mapped to the target of its last entry. */
  lemma MappingsLastWins(entries: seq<string>, k: nat)
    requires AllWellFormed(entries) && k < |entries|
    requires forall j :: k < j < |entries| ==> From(entries[j]) != From(entries[k])
    ensures From(entries[k]) in Mappings(entries) && Mappings(entries)[From(entries[k])] == To(entries[k])
  {
    var pairs := Pairs(entries);
    forall j | k < j < |pairs| ensures pairs[j].0 != pairs[k].0 {
      assert pairs[j].0 == From(entries[j]);
    }
    MapOfLastWins(pairs, k);
  }

  /** One more accepted entry extends an accepted prefix. */
  lemma PrefixWellFormed(entries: seq<string>, i: nat)
    requires i < |entries| && AllWellFormed(entries[..i]) && WellFormed(entries[i])
    ensures AllWellFormed(entries[..i + 1])
  {
    var next := entries[..i + 1];
    forall k | 0 <= k < |next| ensures WellFormed(next[k]) {
      if k < i {
        assert next[k] == entries[..i][k];
      }
    }
  }

  /** The pairs of one more well-formed entry are the pairs before it and its own. */
  lemma PairsSnoc(entries: seq<string>, i: nat)
    requires i < |entries| && AllWellFormed(entries[..i + 1])
    ensures AllWellFormed(entries[..i])
    ensures Pairs(entries[..i + 1])[..i] == Pairs(entries[..i])
    ensures Pairs(entries[..i + 1])[i] == (From(entries[i]), To(entries[i]))
  {
    var pre, next := entries[..i], entries[..i + 1];
    assert forall k :: 0 <= k < i ==> pre[k] == next[k];
    assert next[i] == entries[i];
  }

  /** One more well-formed entry puts its pair into the mapping. */
  lemma MappingsSnoc(entries: seq<string>, i: nat)
    requires i < |entries| && AllWellFormed(entries[..i + 1])
    ensures AllWellFormed(entries[..i])
    ensures Mappings(entries[..i + 1]) == Mappings(entries[..i])[From(entries[i]) := To(entries[i])]
  {
    PairsSnoc(entries, i);
    MapOfSnoc(Pairs(entries[..i + 1]));
  }

  lemma MapOfSnoc(ps: seq<(string, string)>)
    requires ps != []
    ensures MapOf(ps) == MapOf(ps[..|ps| - 1])[ps[|ps| - 1].0 := ps[|ps| - 1].1]
  {
  }

  /** The first occurrence of the arrow in `a => b` is the one written there, when `a` holds none. */
  lemma ArrowAfter(a: string, b: string)
    requires !Strs.Contains(a, Arrow)
    ensures Strs.Index(a + Arrow + b, Arrow) == Some(|a|)
  {
    ArrowBorderless();
    Strs.IndexAfterFree(a, Arrow, b, 0);
  }

  /** No occurrence of the arrow can overlap another. */
  lemma ArrowBorderless()
    ensures Strs.Borderless(Arrow)
  {
    assert Arrow[1..][0] != Arrow[..1][0];
  }

  /** An entry written as `a => b`, with no arrow in `a` or `b`, maps the trimmed `a` to the trimmed `b`. */
  lemma EntryRoundTrip(a: string, b: string)
    requires !Strs.Contains(a, Arrow) && !Strs.Contains(b, Arrow)
    ensures WellFormed(a + Arrow + b) && From(a + Arrow + b) == Strs.TrimSpace(a) && To(a + Arrow + b) == Strs.TrimSpace(b)
  {
    var s := a + Arrow + b;
    ArrowAfter(a, b);
    assert s[..|a|] == a && s[|a| + 2..] == b;
    assert Strs.Index(b, Arrow).None?;
    assert Strs.Split(b, Arrow) == [b];
    assert Strs.Split(s, Arrow) == [s[..|a|]] + Strs.Split(s[|a| + |Arrow|..], Arrow);
  }

  /** Pieces without an arrow, joined by arrows, split at emby.go:93 back into the same pieces. */
  lemma ArrowSplitJoin(pieces: seq<string>)
    requires |pieces| >= 1
    requires forall k :: 0 <= k < |pieces| ==> !Strs.Contains(pieces[k], Arrow)
    ensures Pieces(Strs.Join(pieces, Arrow)) == pieces
  {
    ArrowBorderless();
    Strs.SplitJoin(pieces, Arrow);
  }

  /** An entry with a second arrow is rejected. */
  lemma TwoArrowsRejected(a: string, b: string, c: string)
    requires !Strs.Contains(a, Arrow) && !Strs.Contains(b, Arrow)
    ensures !WellFormed(a + Arrow + b + Arrow + c)
  {
    var s := a + Arrow + b + Arrow + c;
    assert s == a + Arrow + (b + Arrow + c);
    ArrowAfter(a, b + Arrow + c);
    ArrowAfter(b, c);
    assert s[..|a|] == a && s[|a| + 2..] == b + Arrow + c;
    assert Pieces(b + Arrow + c) == [b] + Pieces(c) by {
      assert (b + Arrow + c)[..|b|] == b && (b + Arrow + c)[|b| + 2..] == c;
    }
    assert Pieces(s) == [a] + Pieces(b + Arrow + c);
  }

  /** An entry without an arrow is rejected. */
  lemma NoArrowRejected(entry: string)
    requires !Strs.Contains(entry, Arrow)
    ensures !WellFormed(entry)
  {
    assert Strs.Index(entry, Arrow).None?;
  }

  // ---------------------------------------------------------------------------------------------
  // MapPath

  /**
   * The path after MapPath, when the sources are visited in `order`: the first visited source
   * that occurs in the path has its first occurrence replaced by its target.
   */
  function MapVia(pathMap: map<string, string>, order: seq<string>, path: string): string
    decreases |order|
  {
    if order == [] then path
    else if order[0] in pathMap && Strs.Contains(path, order[0]) then Strs.ReplaceFirst(path, order[0], pathMap[order[0]])
    else MapVia(pathMap, order[1..], path)
  }

  /** A path that holds no source is left as it is. */
  lemma {:induction false} MapViaUnmatched(pathMap: map<string, string>, order: seq<string>, path: string)
    requires forall key :: key in pathMap ==> !Strs.Contains(path, key)
    ensures MapVia(pathMap, order, path) == path
    decreases |order|
  {
    if order != [] {
      MapViaUnmatched(pathMap, order[1..], path);
    }
  }

  /**
   * A path that holds some visited source gets exactly one substitution: the first occurrence of
   * one such source replaced by its target.
   */
  lemma {:induction false} MapViaOnce(pathMap: map<string, string>, order: seq<string>, path: string, key: string)
    requires key in pathMap && key in order && Strs.Contains(path, key)
    ensures exists used :: (used in pathMap && used in order && Strs.Contains(path, used)
      && MapVia(pathMap, order, path) == Strs.ReplaceFirst(path, used, pathMap[used]))
    decreases |order|
  {
    if order[0] in pathMap && Strs.Contains(path, order[0]) {
      assert order[0] in order;
    } else {
      assert key in order[1..];
      MapViaOnce(pathMap, order[1..], path, key);
      var used :| used in pathMap && used in order[1..] && Strs.Contains(path, used)
        && MapVia(pathMap, order[1..], path) == Strs.ReplaceFirst(path, used, pathMap[used]);
      assert used in order;
    }
  }

  /** When only one source occurs in the path, the order of the visit does not matter. */
  lemma OnlyMatchDecides(pathMap: map<string, string>, order: seq<string>, path: string, key: string)
    requires key in pathMap && key in order && Strs.Contains(path, key)
    requires forall other :: other in pathMap && other != key ==> !Strs.Contains(path, other)
    ensures MapVia(pathMap, order, path) == Strs.ReplaceFirst(path, key, pathMap[key])
  {
    MapViaOnce(pathMap, order, path, key);
  }

  // ---------------------------------------------------------------------------------------------
  // The Strm configuration

  /** The strm section: the configured mapping entries and the mapping Init builds from them. */
  class Strm {
    /** The entries as configured (`path-map`). */
    var pathMapEntries: seq<string>
    /** The mapping built by Init. */
    var pathMap: map<string, string>

    constructor (entries: seq<string>)
      ensures pathMapEntries == entries && pathMap == map[]
    {
      pathMapEntries := entries;
      pathMap := map[];
    }

    /**
     * Init: rebuild the mapping from the entries in order. The first entry without exactly one
     * arrow stops it with an error, leaving the mapping of the entries before it.
     */
    method Init() returns (err: Option<StrmError>)
      modifies this
      ensures pathMapEntries == old(pathMapEntries)
      ensures err == EntriesError(pathMapEntries)
      ensures pathMap == Mappings(pathMapEntries[..FirstBad(pathMapEntries)])
    {
      pathMap := map[];
      var entries := pathMapEntries;
      var i := 0;
      while i < |entries|
        invariant 0 <= i <= |entries| && pathMapEntries == entries
        invariant AllWellFormed(entries[..i]) && pathMap == Mappings(entries[..i])
      {
        var entry := entries[i];
        var splits := Strs.Split(entry, Arrow);
        if |splits| != 2 {
          FirstBadIs(entries, i);
          return Some(BadMapping(entry));
        }
        var from, to := Strs.TrimSpace(splits[0]), Strs.TrimSpace(splits[1]);
        assert WellFormed(entry) && from == From(entry) && to == To(entry);
        PrefixWellFormed(entries, i);
        MappingsSnoc(entries, i);
        pathMap := pathMap[from := to];
        i := i + 1;
      }
      assert entries[..i] == entries;
      FirstBadIs(entries, i);
      return None;
    }

    /**
     * MapPath: visit the sources in `order` (the map's iteration order, which Go leaves unspecified)
     * and replace the first occurrence of the first source that occurs in the path.
     */
    method MapPath(path: string, order: seq<string>) returns (r: string)
      requires forall key :: key in pathMap <==> key in order
      ensures r == MapVia(pathMap, order, path)
    {
      var i := 0;
      while i < |order|
        invariant 0 <= i <= |order|
        invariant MapVia(pathMap, order, path) == MapVia(pathMap, order[i..], path)
      {
        var from := order[i];
        assert order[i..][1..] == order[i + 1..];
        assert order[i..][0] == from && from in pathMap;
        if Strs.Contains(path, from) {
          return Strs.ReplaceFirst(path, from, pathMap[from]);
        }
        i := i + 1;
      }
      return path;
    }
  }

  // ---------------------------------------------------------------------------------------------
  // The Emby configuration

  /** The strategy Init keeps: the configured one, or origin when it counts as empty, trimmed. */
  function NormStrategy(anyEmpty: string -> bool, strategy: string): string {
    Strs.TrimSpace(if anyEmpty(strategy) then StrategyOrigin else strategy)
  }

  /** The quality Init keeps: the configured one, 70 in place of 0. */
  function NormQuality(quality: int): int {
    if quality == 0 then DefaultImagesQuality else quality
  }

  predicate ValidQuality(quality: int) {
    0 <= quality <= 100
  }

  /**
   * The checks of Emby.Init in order: the host, the mount path and the key must not count as
   * empty, then the kept strategy and quality must be valid, then the strm entries must parse.
   * `anyEmpty` stands for strs.AnyEmpty.
   */
  function InitError(anyEmpty: string -> bool, host: string, mountPath: string, apiKey: string,
                     strategy: string, quality: int, entries: seq<string>): Option<ConfigError>
  {
    if anyEmpty(host) then Some(MissingHost)
    else if anyEmpty(mountPath) then Some(MissingMountPath)
    else if anyEmpty(apiKey) then Some(MissingApiKey)
    else if NormStrategy(anyEmpty, strategy) !in ValidStrategies then Some(BadStrategy)
    else if !ValidQuality(NormQuality(quality)) then Some(BadImagesQuality(NormQuality(quality)))
    else if EntriesError(entries).Some? then Some(BadStrm(EntriesError(entries).value))
    else None
  }

  /** A strategy that counts as empty becomes origin. */
  lemma EmptyStrategyIsOrigin(anyEmpty: string -> bool, strategy: string)
    requires anyEmpty(strategy)
    ensures NormStrategy(anyEmpty, strategy) == StrategyOrigin
  {
    assert Strs.IsTrimmed(StrategyOrigin);
    Strs.TrimSpaceOfTrimmed(StrategyOrigin);
  }

  /** A configured strategy is accepted exactly when, trimmed, it is origin or reject. */
  lemma StrategyAccepted(anyEmpty: string -> bool, strategy: string)
    requires !anyEmpty(strategy)
    ensures NormStrategy(anyEmpty, strategy) in ValidStrategies
      <==> Strs.TrimSpace(strategy) == StrategyOrigin || Strs.TrimSpace(strategy) == StrategyReject
  {
  }

  /** The kept quality is valid exactly when the configured one is in [0, 100], and a valid kept quality is never 0. */
  lemma QualityRange(quality: int)
    ensures ValidQuality(NormQuality(quality)) <==> 0 <= quality <= 100
    ensures ValidQuality(NormQuality(quality)) ==> 1 <= NormQuality(quality) <= 100
  {
  }

  /**
   * Init succeeds exactly when the three required fields are present, the strategy is one of
   * the two, the quality lies in [0, 100] and every strm entry has exactly one arrow; the kept
   * values are then a valid strategy and a quality in [1, 100].
   */
  lemma InitAccepted(anyEmpty: string -> bool, host: string, mountPath: string, apiKey: string,
                     strategy: string, quality: int, entries: seq<string>)
    ensures InitError(anyEmpty, host, mountPath, apiKey, strategy, quality, entries).None?
      <==> && !anyEmpty(host) && !anyEmpty(mountPath) && !anyEmpty(apiKey)
           && NormStrategy(anyEmpty, strategy) in ValidStrategies
           && 0 <= quality <= 100
           && AllWellFormed(entries)
    ensures InitError(anyEmpty, host, mountPath, apiKey, strategy, quality, entries).None?
      ==> 1 <= NormQuality(quality) <= 100
  {
    QualityRange(quality);
  }

  /** The Emby section of the configuration. */
  class Emby {
    var host: string
    var mountPath: string
    var apiKey: string
    var episodesUnplayPrior: bool
    var resortRandomItems: bool
    var proxyErrorStrategy: string
    var imagesQuality: int
    var strm: Strm?

    constructor (host: string, mountPath: string, apiKey: string, proxyErrorStrategy: string, imagesQuality: int, strm: Strm?)
      ensures this.host == host && this.mountPath == mountPath && this.apiKey == apiKey
      ensures this.proxyErrorStrategy == proxyErrorStrategy && this.imagesQuality == imagesQuality && this.strm == strm
      ensures !episodesUnplayPrior && !resortRandomItems
    {
      this.host := host;
      this.mountPath := mountPath;
      this.apiKey := apiKey;
      this.episodesUnplayPrior := false;
      this.resortRandomItems := false;
      this.proxyErrorStrategy := proxyErrorStrategy;
      this.imagesQuality := imagesQuality;
      this.strm := strm;
    }

    /**
     * Init: check and normalise the section in place. The error is InitError of the configured
     * values; each normalisation is written before the next check, so a failed Init keeps the
     * normalisations it got through.
     */
    method Init(anyEmpty: string -> bool) returns (err: Option<ConfigError>)
      modifies this, strm
      ensures err == InitError(anyEmpty, old(host), old(mountPath), old(apiKey), old(proxyErrorStrategy), old(imagesQuality),
                               if old(strm) == null then [] else old(strm.pathMapEntries))
      ensures host == old(host) && mountPath == old(mountPath) && apiKey == old(apiKey)
      ensures episodesUnplayPrior == old(episodesUnplayPrior) && resortRandomItems == old(resortRandomItems)
      ensures err.Some? && err.value in {MissingHost, MissingMountPath, MissingApiKey} ==>
        proxyErrorStrategy == old(proxyErrorStrategy) && imagesQuality == old(imagesQuality)
      ensures !(err.Some? && err.value in {MissingHost, MissingMountPath, MissingApiKey}) ==>
        proxyErrorStrategy == NormStrategy(anyEmpty, old(proxyErrorStrategy))
      ensures !(err.Some? && err.value in {MissingHost, MissingMountPath, MissingApiKey, BadStrategy}) ==>
        imagesQuality == NormQuality(old(imagesQuality))
      ensures err.Some? && !err.value.BadStrm? ==> strm == old(strm) && (strm != null ==> unchanged(strm))
      ensures err.None? || err.value.BadStrm? ==>
        && strm != null && (old(strm) != null ==> strm == old(strm)) && (old(strm) == null ==> fresh(strm))
        && strm.pathMapEntries == (if old(strm) == null then [] else old(strm.pathMapEntries))
        && strm.pathMap == Mappings(strm.pathMapEntries[..FirstBad(strm.pathMapEntries)])
    {
      if anyEmpty(host) {
        return Some(MissingHost);
      }
      if anyEmpty(mountPath) {
        return Some(MissingMountPath);
      }
      if anyEmpty(apiKey) {
        return Some(MissingApiKey);
      }
      if anyEmpty(proxyErrorStrategy) {
        proxyErrorStrategy := StrategyOrigin;
      }

      proxyErrorStrategy := Strs.TrimSpace(proxyErrorStrategy);
      if proxyErrorStrategy !in ValidStrategies {
        return Some(BadStrategy);
      }

      if imagesQuality == 0 {
        imagesQuality := DefaultImagesQuality;
      }
      if imagesQuality < 0 || imagesQuality > 100 {
        return Some(BadImagesQuality(imagesQuality));
      }

      var e := InitStrm();
      if e.Some? {
        return Some(BadStrm(e.value));
      }
      return None;
    }

    /** The strm step of Init: a missing section becomes an empty one, which is then initialised. */
    method InitStrm() returns (e: Option<StrmError>)
      modifies this, strm
      ensures e == EntriesError(if old(strm) == null then [] else old(strm.pathMapEntries))
      ensures strm != null && (old(strm) != null ==> strm == old(strm)) && (old(strm) == null ==> fresh(strm))
      ensures strm.pathMapEntries == (if old(strm) == null then [] else old(strm.pathMapEntries))
      ensures strm.pathMap == Mappings(strm.pathMapEntries[..FirstBad(strm.pathMapEntries)])
      ensures host == old(host) && mountPath == old(mountPath) && apiKey == old(apiKey)
      ensures episodesUnplayPrior == old(episodesUnplayPrior) && resortRandomItems == old(resortRandomItems)
      ensures proxyErrorStrategy == old(proxyErrorStrategy) && imagesQuality == old(imagesQuality)
    {
      if strm == null {
        strm := new Strm([]);
      }
      e := strm.Init();
    }
  }
}
