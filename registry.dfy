/**
 * The service registry of utils.py. Environment keys of the form
 * `QUANTIXY__<part>__...__<part>__<field>` are parsed into a process-wide
 * cache, but only while that cache is empty; on every call the services
 * file is then laid over a shallow copy of the cache, the file's fields
 * winning. Because the copy is shallow, a domain present in both sources is
 * one field map shared by the cache and the result, and the file's fields
 * are written into the cache as well.
 */
module Registry {
  import opened Wrappers
  import opened Text
  import opened PyDict

  const EnvPrefix: string := "QUANTIXY__"
  const KeySep: string := "__"

  /** One domain's fields (container, port, protocol, ...); every value is kept as a string. */
  type Fields = map<string, string>

  // ---------------------------------------------------------------------
  // Environment keys (utils.py:23-29)
  // ---------------------------------------------------------------------

  /**
   * The domain and field an environment key names: the parts after the
   * prefix split on `__`, all but the last joined with `.`, and the last
   * lower-cased. None for a key without the prefix.
   */
  function ParseEnvKey(key: string): (r: Option<(string, string)>)
    ensures r.Some? <==> StartsWith(key, EnvPrefix)
    ensures r.Some? ==> IsLower(r.value.1)
  {
    if !StartsWith(key, EnvPrefix) then None
    else
      var parts := Split(key[|EnvPrefix|..], KeySep);
      Some((Join(parts[..|parts| - 1], "."), Lower(parts[|parts| - 1])))
  }

  /**
   * A key built from domain parts and a field parses back to the parts
   * joined with `.` and the field lower-cased.
   */
  lemma ParseNamedKey(domainParts: seq<string>, field: string)
    requires forall i :: 0 <= i < |domainParts| ==> SeparablePart(domainParts[i])
    requires !Contains(field, KeySep)
    ensures ParseEnvKey(EnvPrefix + Join(domainParts + [field], KeySep))
         == Some((Join(domainParts, "."), Lower(field)))
  {
    var parts := domainParts + [field];
    var key := EnvPrefix + Join(parts, KeySep);
    assert key[..|EnvPrefix|] == EnvPrefix;
    assert key[|EnvPrefix|..] == Join(parts, KeySep);
    assert parts[|parts| - 1] == field;
    SplitJoin(parts);
    assert parts[..|parts| - 1] == domainParts;
  }

  /** A string without an underscore holds no `__`. */
  lemma NoUnderscore(p: string)
    requires forall i :: 0 <= i < |p| ==> p[i] != '_'
    ensures SeparablePart(p) && !Contains(p, KeySep)
  {
    forall i: nat | i <= |p| ensures !OccursAt(p, KeySep, i) {
      if i + 2 <= |p| {
        assert p[i..i + 2][0] == p[i];
      }
    }
  }

  /** A dot inside a single part is kept: the domain is that part. */
  lemma ParseDottedPart()
    ensures ParseEnvKey(EnvPrefix + ("domain.exemple" + KeySep + "port")) == Some(("domain.exemple", "port"))
  {
    NoUnderscore("domain.exemple");
    NoUnderscore("port");
    ParseNamedKey(["domain.exemple"], "port");
    assert ["domain.exemple"] + ["port"] == ["domain.exemple", "port"];
    assert ["domain.exemple", "port"][1..] == ["port"];
    assert Join(["domain.exemple", "port"], KeySep) == "domain.exemple" + KeySep + "port";
    assert Lower("port") == "port";
  }

  /** A `__` between parts becomes a dot in the domain, and the field is lower-cased. */
  lemma ParseSeparatedParts()
    ensures ParseEnvKey(EnvPrefix + ("a" + KeySep + ("example" + KeySep + "Port"))) == Some(("a.example", "port"))
  {
    NoUnderscore("a");
    NoUnderscore("example");
    NoUnderscore("Port");
    ParseNamedKey(["a", "example"], "Port");
    assert ["a", "example"] + ["Port"] == ["a", "example", "Port"];
    assert ["a", "example", "Port"][1..] == ["example", "Port"];
    assert ["example", "Port"][1..] == ["Port"];
    assert Join(["example", "Port"], KeySep) == "example" + KeySep + "Port";
    assert Join(["a", "example", "Port"], KeySep) == "a" + KeySep + ("example" + KeySep + "Port");
    assert ["a", "example"][1..] == ["example"];
    assert Join(["a", "example"], ".") == "a" + "." + "example" == "a.example";
    assert Lower("Port") == "port";
  }

  /** Laying `{}` over fields, or fields over `{}`, changes nothing. */
  lemma UnionEmpty(m: Fields)
    ensures m + map[] == m && map[] + m == m
  {
  }

  /** The fields the dict holds for `k`, or `{}`. */
  function FieldsOf(d: Dict<Fields>, k: string): (r: Fields) {
    if k in d.entries then d.entries[k] else map[]
  }

  /** The cache after the scan has handled one environment pair (utils.py:24-29). */
  function ScanPair(cache: Dict<Fields>, key: string, value: string): (r: Dict<Fields>)
    ensures ValidDict(cache) ==> ValidDict(r)
  {
    match ParseEnvKey(key)
    case None => cache
    case Some((domain, field)) =>
      var r := Put(cache, domain, FieldsOf(cache, domain)[field := value]);
      assert ValidDict(cache) ==> ValidDict(r) by {
        if ValidDict(cache) {
          PutValid(cache, domain, FieldsOf(cache, domain)[field := value]);
        }
      }
      r
  }

  /** The cache the scan builds from `env`, in order, starting from an empty cache. */
  function EnvData(env: seq<(string, string)>): (r: Dict<Fields>)
    ensures ValidDict(r)
    decreases |env|
  {
    if env == [] then Empty()
    else
      var n := |env| - 1;
      ScanPair(EnvData(env[..n]), env[n].0, env[n].1)
  }

  /** Every domain the env scan creates gets at least one field. */
  lemma {:induction false} EnvDomainsHaveFields(env: seq<(string, string)>, d: string)
    ensures d in EnvData(env).entries ==> EnvData(env).entries[d] != map[]
    decreases |env|
  {
    if env != [] {
      var n := |env| - 1;
      EnvDomainsHaveFields(env[..n], d);
      var parsed := ParseEnvKey(env[n].0);
      if parsed.Some? && parsed.value.0 == d {
        assert parsed.value.1 in EnvData(env).entries[d];
      }
    }
  }

  /** The pair at index `i` names `field` of `domain`. */
  predicate Names(env: seq<(string, string)>, i: int, domain: string, field: string) {
    0 <= i < |env| && ParseEnvKey(env[i].0) == Some((domain, field))
  }

  /** The pair at index `i` is the last one naming `field` of `domain`. */
  predicate LastNames(env: seq<(string, string)>, i: int, domain: string, field: string) {
    Names(env, i, domain, field) && forall j :: i < j < |env| ==> !Names(env, j, domain, field)
  }

  /** The value the dict holds for `field` of `domain`, if any. */
  function Lookup(d: Dict<Fields>, domain: string, field: string): (r: Option<string>) {
    if domain in d.entries && field in d.entries[domain] then Some(d.entries[domain][field]) else None
  }

  /** One pair sets the field it names and leaves every other field as it was. */
  lemma ScanPairLookup(cache: Dict<Fields>, key: string, value: string, domain: string, field: string)
    ensures Lookup(ScanPair(cache, key, value), domain, field)
         == if ParseEnvKey(key) == Some((domain, field)) then Some(value) else Lookup(cache, domain, field)
  {
  }

  /** The env cache holds a field exactly when some environment key names it. */
  lemma {:induction false} EnvDataHas(env: seq<(string, string)>, domain: string, field: string)
    ensures (exists i :: Names(env, i, domain, field)) <==> Lookup(EnvData(env), domain, field).Some?
    decreases |env|
  {
    if env != [] {
      var n := |env| - 1;
      var prev := env[..n];
      EnvDataHas(prev, domain, field);
      assert EnvData(env) == ScanPair(EnvData(prev), env[n].0, env[n].1);
      ScanPairLookup(EnvData(prev), env[n].0, env[n].1, domain, field);
      if !Names(env, n, domain, field) {
        forall i | Names(env, i, domain, field) ensures Names(prev, i, domain, field) {
          assert prev[i] == env[i];
        }
        forall i | Names(prev, i, domain, field) ensures Names(env, i, domain, field) {
          assert prev[i] == env[i];
        }
      }
    }
  }

  /** When several environment keys name the same field, the last one wins. */
  lemma {:induction false} EnvDataLastWins(env: seq<(string, string)>, i: nat, domain: string, field: string)
    requires LastNames(env, i, domain, field)
    ensures Lookup(EnvData(env), domain, field) == Some(env[i].1)
    decreases |env|
  {
    var n := |env| - 1;
    var prev := env[..n];
    assert EnvData(env) == ScanPair(EnvData(prev), env[n].0, env[n].1);
    ScanPairLookup(EnvData(prev), env[n].0, env[n].1, domain, field);
    if i < n {
      assert !Names(env, n, domain, field);
      assert prev[i] == env[i];
      forall j | i < j < n ensures !Names(prev, j, domain, field) {
        assert !Names(env, j, domain, field);
        assert prev[j] == env[j];
      }
      EnvDataLastWins(prev, i, domain, field);
    }
  }

  /** A pair whose key lacks the prefix contributes nothing to the env cache. */
  lemma {:induction false} EnvIgnoresUnprefixed(a: seq<(string, string)>, key: string, value: string, b: seq<(string, string)>)
    requires !StartsWith(key, EnvPrefix)
    ensures EnvData(a + [(key, value)] + b) == EnvData(a + b)
    decreases |b|
  {
    if b == [] {
      assert a + [(key, value)] + b == a + [(key, value)];
      assert (a + [(key, value)])[..|a|] == a;
      assert a + b == a;
    } else {
      var m := |b| - 1;
      var left := a + [(key, value)] + b;
      var right := a + b;
      EnvIgnoresUnprefixed(a, key, value, b[..m]);
      assert left[..|left| - 1] == a + [(key, value)] + b[..m];
      assert right[..|right| - 1] == a + b[..m];
      assert left[|left| - 1] == b[m] == right[|right| - 1];
    }
  }

  // ---------------------------------------------------------------------
  // The services file (utils.py:33-45)
  // ---------------------------------------------------------------------

  /** The YAML value found under one domain of the services file. */
  datatype Entry = Mapping(fields: Fields) | NotMapping

  /** What `yaml.safe_load` returned: a mapping from domains, or anything else (None for an empty file, a list, a scalar). */
  datatype Document = TopMapping(services: Dict<Entry>) | NotTopMapping

  /** The services file as the loader meets it. */
  datatype ConfigFile =
    | Missing         // os.path.exists is false
    | VanishedOnOpen  // FileNotFoundError at open: caught
    | Malformed       // yaml.YAMLError: caught
    | Unreadable      // any other error at open: not caught, it leaves the function
    | Present(doc: Document)

  ghost predicate ValidFile(file: ConfigFile) {
    file.Present? && file.doc.TopMapping? ==> ValidDict(file.doc.services)
  }

  /** What one call returns: the merged data, or an exception that escaped. */
  datatype LoadResult = Loaded(data: Dict<Fields>) | Raised

  /** Every domain the cache holds is in the data with the very same fields: the two share it. */
  ghost predicate Shares(cache: Dict<Fields>, data: Dict<Fields>) {
    forall k :: k in cache.entries ==> k in data.entries && data.entries[k] == cache.entries[k]
  }


  /**
   * The cache once the loop has run. The copy at utils.py:31 is shallow, so
   * every domain the cache holds is the very dict the result holds for it,
   * and whatever the loop wrote into that dict the cache sees too.
   */
  function Refresh(cache: Dict<Fields>, data: Dict<Fields>): (r: Dict<Fields>)
    requires ValidDict(cache)
    ensures ValidDict(r) && r.keys == cache.keys
  {
    Dict(cache.keys, map k | k in cache.entries :: FieldsOf(data, k))
  }

  /**
   * The data after the loop at utils.py:38-41 has handled the first `n`
   * domains of the file, and whether `update` raised on the way. A domain
   * missing from the data starts as `{}`; the file's fields are written over
   * the ones already there.
   */
  function MergeFile(data: Dict<Fields>, services: Dict<Entry>, n: nat): (r: (Dict<Fields>, bool))
    requires ValidDict(services) && n <= |services.keys|
    decreases n
  {
    if n == 0 then (data, false)
    else
      var prev := MergeFile(data, services, n - 1);
      var k := services.keys[n - 1];
      assert k in services.entries;
      if prev.1 then prev
      else match services.entries[k]
        case NotMapping => (prev.0, true)
        case Mapping(fields) => (Put(prev.0, k, FieldsOf(prev.0, k) + fields), false)
  }

  /** The loop keeps the data a valid dict. */
  lemma {:induction false} MergeFileValid(data: Dict<Fields>, services: Dict<Entry>, n: nat)
    requires ValidDict(data) && ValidDict(services) && n <= |services.keys|
    ensures ValidDict(MergeFile(data, services, n).0)
    decreases n
  {
    if n > 0 {
      MergeFileValid(data, services, n - 1);
      var prev := MergeFile(data, services, n - 1).0;
      var k := services.keys[n - 1];
      assert k in services.entries;
      if services.entries[k].Mapping? {
        PutValid(prev, k, FieldsOf(prev, k) + services.entries[k].fields);
      }
    }
  }

  /** The loop adds domains to the data but never drops one. */
  lemma {:induction false} MergeFileKeepsDomains(data: Dict<Fields>, services: Dict<Entry>, n: nat)
    requires ValidDict(services) && n <= |services.keys|
    ensures forall k :: k in data.entries ==> k in MergeFile(data, services, n).0.entries
    decreases n
  {
    if n > 0 {
      MergeFileKeepsDomains(data, services, n - 1);
    }
  }

  /** One of the first `n` domains of the file holds something other than a mapping. */
  ghost predicate NonMappingWithin(services: Dict<Entry>, n: nat) {
    exists i :: 0 <= i < n && i < |services.keys| && services.keys[i] in services.entries
      && services.entries[services.keys[i]].NotMapping?
  }

  /** `update` has raised exactly when one of the domains visited so far is not a mapping. */
  lemma {:induction false} MergeFileRaises(data: Dict<Fields>, services: Dict<Entry>, n: nat)
    requires ValidDict(services) && n <= |services.keys|
    ensures MergeFile(data, services, n).1 <==> NonMappingWithin(services, n)
    decreases n
  {
    if n > 0 {
      MergeFileRaises(data, services, n - 1);
      var k := services.keys[n - 1];
      assert k in services.entries;
      if NonMappingWithin(services, n) && !NonMappingWithin(services, n - 1) {
        var i :| 0 <= i < n && i < |services.keys| && services.keys[i] in services.entries
          && services.entries[services.keys[i]].NotMapping?;
        assert i == n - 1;
      }
    }
  }

  /** Once `update` has raised, the later domains change nothing. */
  lemma {:induction false} MergeFileStaysRaised(data: Dict<Fields>, services: Dict<Entry>, i: nat, n: nat)
    requires ValidDict(services) && i <= n <= |services.keys|
    requires MergeFile(data, services, i).1
    ensures MergeFile(data, services, n) == MergeFile(data, services, i)
    decreases n - i
  {
    if i < n {
      MergeFileStaysRaised(data, services, i, n - 1);
      var k := services.keys[n - 1];
      assert k in services.entries;
      assert MergeFile(data, services, n) == MergeFile(data, services, n - 1);
    }
  }

  /** Writing a domain into the data writes it into the cache exactly when the cache holds that domain. */
  lemma RefreshPut(cache: Dict<Fields>, data: Dict<Fields>, k: string, v: Fields)
    requires ValidDict(cache)
    ensures Refresh(cache, Put(data, k, v))
         == if k in cache.entries then Put(Refresh(cache, data), k, v) else Refresh(cache, data)
  {
    if k in cache.entries {
      assert Refresh(cache, Put(data, k, v)).entries == Refresh(cache, data).entries[k := v];
    } else {
      assert Refresh(cache, Put(data, k, v)).entries == Refresh(cache, data).entries;
    }
  }

  /** The cache after the guarded scan: the env data if the cache was empty, otherwise the cache as it was. */
  function EnvBase(cache: Dict<Fields>, env: seq<(string, string)>): (r: Dict<Fields>)
    requires ValidDict(cache)
    ensures ValidDict(r)
  {
    if cache.entries == map[] then EnvData(env) else cache
  }

  /** Every domain of the file holds a mapping. */
  ghost predicate AllMappings(services: Dict<Entry>) {
    forall k :: k in services.entries ==> services.entries[k].Mapping?
  }

  /**
   * The file part of one call (utils.py:31-45), from the cache `base` the
   * guarded scan left: the cache afterwards and what the call returns.
   */
  function LoadFrom(base: Dict<Fields>, file: ConfigFile): (r: (Dict<Fields>, LoadResult))
    requires ValidDict(base) && ValidFile(file)
    ensures ValidDict(r.0) && (r.1.Loaded? ==> ValidDict(r.1.data))
    ensures r.0.keys == base.keys
    ensures r.1.Raised? <==>
      file.Unreadable? || (file.Present? && (file.doc.NotTopMapping? || !AllMappings(file.doc.services)))
    ensures r.1.Loaded? ==> Shares(r.0, r.1.data)
    ensures file.Missing? || file.VanishedOnOpen? || file.Malformed? ==> r == (base, Loaded(base))
  {
    match file
    case Missing => (base, Loaded(base))
    case VanishedOnOpen => (base, Loaded(base))
    case Malformed => (base, Loaded(base))
    case Unreadable => (base, Raised)
    case Present(NotTopMapping) => (base, Raised)
    case Present(TopMapping(services)) =>
      var merged := MergeFile(base, services, |services.keys|);
      MergeFileRaises(base, services, |services.keys|);
      MergeFileKeepsDomains(base, services, |services.keys|);
      MergeFileValid(base, services, |services.keys|);
      assert NonMappingWithin(services, |services.keys|) <==> !AllMappings(services) by {
        if !AllMappings(services) {
          var k :| k in services.entries && services.entries[k].NotMapping?;
          var i :| 0 <= i < |services.keys| && services.keys[i] == k;
        }
      }
      (Refresh(base, merged.0), if merged.1 then Raised else Loaded(merged.0))
  }

  /** One call of `load_services_config` (utils.py:18-52): the env cache afterwards and what the call returns. */
  function LoadOutcome(cache: Dict<Fields>, env: seq<(string, string)>, file: ConfigFile): (r: (Dict<Fields>, LoadResult))
    requires ValidDict(cache) && ValidFile(file)
  {
    LoadFrom(EnvBase(cache, env), file)
  }

  // ---------------------------------------------------------------------
  // The merge, stated on its own
  // ---------------------------------------------------------------------

  /** The file's fields for domain `d`, or `{}` when the file does not name it. */
  function FileFields(services: Dict<Entry>, d: string): Fields {
    if d in services.entries && services.entries[d].Mapping? then services.entries[d].fields else map[]
  }

  /** Domain `d` is one of the first `n` domains of the file. */
  predicate Seen(services: Dict<Entry>, n: nat, d: string)
    requires n <= |services.keys|
  {
    d in services.keys[..n]
  }

  lemma SeenNext(services: Dict<Entry>, n: nat, d: string)
    requires ValidDict(services) && 0 < n <= |services.keys|
    ensures Seen(services, n, d) <==> Seen(services, n - 1, d) || d == services.keys[n - 1]
    ensures d == services.keys[n - 1] ==> !Seen(services, n - 1, d)
  {
    assert services.keys[..n] == services.keys[..n - 1] + [services.keys[n - 1]];
  }

  /**
   * What the loop has made of one domain once it has handled the first `n`
   * domains of the file, all of them mappings: the domain is there when the
   * base or one of those domains names it, with the file's fields over the
   * base's.
   */
  lemma {:induction false} MergeFileAt(base: Dict<Fields>, services: Dict<Entry>, n: nat, d: string)
    requires ValidDict(base) && ValidDict(services) && AllMappings(services) && n <= |services.keys|
    ensures !MergeFile(base, services, n).1
    ensures d in MergeFile(base, services, n).0.entries <==> d in base.entries || Seen(services, n, d)
    ensures FieldsOf(MergeFile(base, services, n).0, d)
         == FieldsOf(base, d) + (if Seen(services, n, d) then FileFields(services, d) else map[])
    decreases n
  {
    if n == 0 {
      assert FieldsOf(base, d) + map[] == FieldsOf(base, d);
      assert !Seen(services, n, d);
    } else {
      MergeFileAt(base, services, n - 1, d);
      MergeFileAtStep(base, services, n, d, MergeFile(base, services, n - 1).0);
    }
  }

  /** Domain `d` of `data` as the first `n` domains of the file leave it. */
  ghost predicate MergedAs(base: Dict<Fields>, services: Dict<Entry>, n: nat, d: string, data: Dict<Fields>)
    requires n <= |services.keys|
  {
    && (d in data.entries <==> d in base.entries || Seen(services, n, d))
    && FieldsOf(data, d) == FieldsOf(base, d) + (if Seen(services, n, d) then FileFields(services, d) else map[])
  }

  /** One more mapping domain keeps `MergedAs`. */
  lemma MergeFileAtStep(base: Dict<Fields>, services: Dict<Entry>, n: nat, d: string, prev: Dict<Fields>)
    requires ValidDict(base) && ValidDict(services) && AllMappings(services) && 0 < n <= |services.keys|
    requires MergeFile(base, services, n - 1) == (prev, false)
    requires MergedAs(base, services, n - 1, d, prev)
    ensures !MergeFile(base, services, n).1
    ensures MergedAs(base, services, n, d, MergeFile(base, services, n).0)
  {
    SeenNext(services, n, d);
    var k := services.keys[n - 1];
    assert k in services.entries;
    var fields := services.entries[k].fields;
    MergeFileNext(base, services, n - 1, prev, fields);
    var next := MergeFile(base, services, n).0;
    assert next.entries == prev.entries[k := FieldsOf(prev, k) + fields];
    if d == k {
      assert FieldsOf(prev, d) == FieldsOf(base, d) by {
        assert FieldsOf(base, d) + map[] == FieldsOf(base, d);
      }
      assert FileFields(services, d) == fields;
      assert FieldsOf(next, d) == FieldsOf(prev, d) + fields;
    } else {
      assert FieldsOf(next, d) == FieldsOf(prev, d);
    }
  }

  /**
   * With every file entry a mapping, the call returns every domain of either
   * source, with the file's fields over the env's, and the cache keeps its
   * own domains, each with the file's fields written into it.
   */
  lemma MergeAt(cache: Dict<Fields>, env: seq<(string, string)>, services: Dict<Entry>, d: string)
    requires ValidDict(cache) && ValidDict(services) && AllMappings(services)
    ensures var base := EnvBase(cache, env);
      var r := LoadOutcome(cache, env, Present(TopMapping(services)));
      && r.1.Loaded?
      && (d in r.1.data.entries <==> d in base.entries || d in services.entries)
      && (d in r.1.data.entries ==> r.1.data.entries[d] == FieldsOf(base, d) + FileFields(services, d))
      && (d in r.0.entries <==> d in base.entries)
      && (d in r.0.entries ==> r.0.entries[d] == base.entries[d] + FileFields(services, d))
  {
    var base := EnvBase(cache, env);
    MergeFileAt(base, services, |services.keys|, d);
    assert services.keys[..|services.keys|] == services.keys;
    assert Seen(services, |services.keys|, d) <==> d in services.entries;
  }

  /** For a domain in the file, each of the file's fields is in the result with the file's value. */
  lemma FileFieldWins(cache: Dict<Fields>, env: seq<(string, string)>, services: Dict<Entry>, domain: string, field: string)
    requires ValidDict(cache) && ValidDict(services) && AllMappings(services)
    requires domain in services.entries && field in services.entries[domain].fields
    ensures var r := LoadOutcome(cache, env, Present(TopMapping(services))).1;
      r.Loaded? && domain in r.data.entries && field in r.data.entries[domain]
      && r.data.entries[domain][field] == services.entries[domain].fields[field]
  {
    MergeAt(cache, env, services, domain);
  }

  /** A field only the env data gives a domain survives the merge unchanged. */
  lemma EnvFieldSurvives(cache: Dict<Fields>, env: seq<(string, string)>, services: Dict<Entry>, domain: string, field: string)
    requires ValidDict(cache) && ValidDict(services) && AllMappings(services)
    requires var base := EnvBase(cache, env).entries; domain in base && field in base[domain]
    requires domain !in services.entries || field !in services.entries[domain].fields
    ensures var r := LoadOutcome(cache, env, Present(TopMapping(services))).1;
      r.Loaded? && domain in r.data.entries && field in r.data.entries[domain]
      && r.data.entries[domain][field] == EnvBase(cache, env).entries[domain][field]
  {
    MergeAt(cache, env, services, domain);
  }

  /** A domain only one source has comes through exactly as that source has it; no other domain appears. */
  lemma SingleSourceDomain(cache: Dict<Fields>, env: seq<(string, string)>, services: Dict<Entry>, domain: string)
    requires ValidDict(cache) && ValidDict(services) && AllMappings(services)
    ensures var base := EnvBase(cache, env).entries;
      var r := LoadOutcome(cache, env, Present(TopMapping(services))).1;
      && r.Loaded?
      && (domain in base && domain !in services.entries ==> domain in r.data.entries && r.data.entries[domain] == base[domain])
      && (domain !in base && domain in services.entries ==>
            domain in r.data.entries && r.data.entries[domain] == services.entries[domain].fields)
      && (domain in r.data.entries <==> domain in base || domain in services.entries)
  {
    MergeAt(cache, env, services, domain);
    var base := EnvBase(cache, env);
    UnionEmpty(FieldsOf(base, domain));
    UnionEmpty(FileFields(services, domain));
  }

  /**
   * The cache gains no domain from the file, but a domain it shares with the
   * file takes in the file's fields.
   */
  lemma CacheAbsorbsFileFields(cache: Dict<Fields>, env: seq<(string, string)>, services: Dict<Entry>, domain: string)
    requires ValidDict(cache) && ValidDict(services) && AllMappings(services)
    ensures var base := EnvBase(cache, env).entries;
      var after := LoadOutcome(cache, env, Present(TopMapping(services))).0.entries;
      && (domain in after <==> domain in base)
      && (domain in base && domain in services.entries ==> after[domain] == base[domain] + services.entries[domain].fields)
  {
    MergeAt(cache, env, services, domain);
  }

  /**
   * The env scan runs only while the cache is empty: once a call has cached
   * anything, later calls ignore the environment.
   */
  lemma ScanHappensOnce(env: seq<(string, string)>, file: ConfigFile, laterEnv: seq<(string, string)>, laterFile: ConfigFile)
    requires ValidFile(file) && ValidFile(laterFile)
    requires exists i :: 0 <= i < |env| && StartsWith(env[i].0, EnvPrefix)
    ensures var cache := LoadOutcome(Empty(), env, file).0;
      && cache.entries != map[]
      && LoadOutcome(cache, laterEnv, laterFile) == LoadOutcome(cache, env, laterFile)
  {
    var i :| 0 <= i < |env| && StartsWith(env[i].0, EnvPrefix);
    var parsed := ParseEnvKey(env[i].0).value;
    EnvDataHas(env, parsed.0, parsed.1);
    assert Names(env, i, parsed.0, parsed.1);
    var cache := LoadOutcome(Empty(), env, file).0;
    assert parsed.0 in EnvData(env).entries;
    assert parsed.0 in cache.keys;
  }

  /**
   * Because the cache absorbs the file's fields, a field once read from the
   * file for a cached domain is still returned after the file drops it.
   */
  lemma StaleFieldPersists(cache: Dict<Fields>, env: seq<(string, string)>, first: Dict<Entry>, second: Dict<Entry>, domain: string, field: string)
    requires ValidDict(cache) && ValidDict(first) && ValidDict(second) && AllMappings(first) && AllMappings(second)
    requires domain in EnvBase(cache, env).entries
    requires domain in first.entries && field in first.entries[domain].fields
    requires domain !in second.entries || field !in second.entries[domain].fields
    ensures var afterFirst := LoadOutcome(cache, env, Present(TopMapping(first))).0;
      var r := LoadOutcome(afterFirst, env, Present(TopMapping(second))).1;
      r.Loaded? && domain in r.data.entries && field in r.data.entries[domain]
      && r.data.entries[domain][field] == first.entries[domain].fields[field]
  {
    var afterFirst := LoadOutcome(cache, env, Present(TopMapping(first))).0;
    CacheAbsorbsFileFields(cache, env, first, domain);
    assert domain in afterFirst.entries;
    assert EnvBase(afterFirst, env) == afterFirst;
    EnvFieldSurvives(afterFirst, env, second, domain, field);
  }

  /** The env data for one more pair is the scan of that pair over the env data before it. */
  lemma EnvDataNext(env: seq<(string, string)>, i: nat)
    requires i < |env|
    ensures EnvData(env[..i + 1]) == ScanPair(EnvData(env[..i]), env[i].0, env[i].1)
  {
    assert env[..i + 1][..i] == env[..i];
  }

  /** One more mapping domain: the loop writes the file's fields over the ones the data has. */
  lemma MergeFileNext(base: Dict<Fields>, services: Dict<Entry>, i: nat, data: Dict<Fields>, fields: Fields)
    requires ValidDict(base) && ValidDict(services) && i < |services.keys|
    requires MergeFile(base, services, i) == (data, false)
    requires services.keys[i] in services.entries && services.entries[services.keys[i]] == Mapping(fields)
    ensures MergeFile(base, services, i + 1)
         == (Put(data, services.keys[i], FieldsOf(data, services.keys[i]) + fields), false)
  {
  }

  /** One more domain that is not a mapping: `update` raises. */
  lemma MergeFileRaisesAt(base: Dict<Fields>, services: Dict<Entry>, i: nat, data: Dict<Fields>)
    requires ValidDict(base) && ValidDict(services) && i < |services.keys|
    requires MergeFile(base, services, i) == (data, false)
    requires services.keys[i] in services.entries && services.entries[services.keys[i]] == NotMapping
    ensures MergeFile(base, services, |services.keys|) == (data, true)
  {
    MergeFileStaysRaised(base, services, i + 1, |services.keys|);
  }

  /** The process-wide cache SERVICES_DATA_FROM_ENV_VAR (utils.py:16) and the loader over it. */
  class ServiceRegistry {
    var cache: Dict<Fields>

    ghost predicate Valid()
      reads this
    {
      ValidDict(cache)
    }

    constructor ()
      ensures Valid() && cache == Empty()
    {
      cache := Empty();
    }

    /** The guarded scan of the environment (utils.py:22-29). */
    method ScanEnvironment(env: seq<(string, string)>)
      requires Valid()
      modifies this
      ensures Valid() && cache == EnvBase(old(cache), env)
    {
      if cache.entries == map[] {
        EmptyIsEmpty(cache);
        var i := 0;
        while i < |env|
          invariant 0 <= i <= |env|
          invariant cache == EnvData(env[..i])
        {
          var (key, value) := env[i];
          if StartsWith(key, EnvPrefix) {
            var parts := Split(key[|EnvPrefix|..], KeySep);
            var domain := Join(parts[..|parts| - 1], ".");
            // a new domain starts as `{}`, then gets the field
            cache := Put(cache, domain, FieldsOf(cache, domain)[Lower(parts[|parts| - 1]) := value]);
          }
          EnvDataNext(env, i);
          i := i + 1;
        }
        assert env[..i] == env;
      }
    }

    /**
     * The loop of utils.py:38-41 over the shallow copy `data` of the cache:
     * what it builds and whether `update` raised. The cache sees every write
     * to a domain it holds.
     */
    method MergeServices(services: Dict<Entry>) returns (data: Dict<Fields>, raised: bool)
      requires Valid() && ValidDict(services)
      modifies this
      ensures Valid()
      ensures (data, raised) == MergeFile(old(cache), services, |services.keys|)
      ensures cache == Refresh(old(cache), data)
    {
      ghost var base := cache;
      data := cache;
      assert Refresh(base, data).entries == base.entries;
      var i := 0;
      while i < |services.keys|
        invariant 0 <= i <= |services.keys|
        invariant MergeFile(base, services, i) == (data, false)
        invariant cache == Refresh(base, data)
      {
        var domain := services.keys[i];
        assert domain in services.entries;
        match services.entries[domain] {
          case NotMapping =>
            // `update` raises; the exception leaves the function
            MergeFileRaisesAt(base, services, i, data);
            return data, true;
          case Mapping(fields) =>
            MergeFileNext(base, services, i, data, fields);
            MergeFileKeepsDomains(base, services, i);
            assert domain in cache.entries <==> domain in base.entries;
            // a missing domain starts as `{}`, then `update` writes the file's fields over it
            var merged := FieldsOf(data, domain) + fields;
            RefreshPut(base, data, domain, merged);
            if domain in cache.entries {
              cache := Put(cache, domain, merged);  // the cached dict is the one being updated
            }
            data := Put(data, domain, merged);
        }
        i := i + 1;
      }
      raised := false;
    }

    /** `load_services_config` (utils.py:18-52). */
    method Load(env: seq<(string, string)>, file: ConfigFile) returns (r: LoadResult)
      requires Valid() && ValidFile(file)
      modifies this
      ensures Valid()
      ensures (cache, r) == LoadOutcome(old(cache), env, file)
    {
      ScanEnvironment(env);
      var data := cache;  // the shallow copy of utils.py:31
      match file {
        case Present(TopMapping(services)) =>
          var raised;
          data, raised := MergeServices(services);
          r := if raised then Raised else Loaded(data);
        case Present(NotTopMapping) =>
          r := Raised;  // `.items()` on a non-mapping raises
        case Unreadable =>
          r := Raised;
        case Missing =>
          r := Loaded(data);
        case VanishedOnOpen =>
          r := Loaded(data);
        case Malformed =>
          r := Loaded(data);
      }
    }
  }
}
