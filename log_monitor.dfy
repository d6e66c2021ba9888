/**
 * The log monitor of log_monitor.py: it loads the services once, projects
 * them to a container and a port per domain, and then follows the NGINX
 * access log from its size at start. Each access line names a host in its
 * last quoted field; for a configured host the monitor starts the
 * container (and touches its last-access marker when that succeeded), and a
 * line reporting a 502 makes it start the container a second time.
 */
module LogMonitor {
  import opened Wrappers
  import opened Text
  import opened PyDict
  import opened Registry
  import opened World

  const DefaultPort: string := "80"
  const RetryMarker: string := " 502 "
  const Quote: char := '"'

  /** The part of a domain's service the log monitor keeps. */
  datatype Backend = Backend(container: string, port: string)

  type Config = map<string, Backend>

  // ---------------------------------------------------------------------
  // The configuration (log_monitor.py:16-42)
  // ---------------------------------------------------------------------

  /** `service.get(key, default)` */
  function Get(fields: Fields, key: string, default: string): (r: string) {
    if key in fields then fields[key] else default
  }

  /** `service.get('container')` is truthy: present and not the empty string. */
  predicate HasContainer(fields: Fields) {
    "container" in fields && fields["container"] != ""
  }

  /**
   * `config` is the projection of `data`: exactly the domains with a
   * container, each with that container and its port, `80` when unset.
   */
  ghost predicate Projects(data: Dict<Fields>, config: Config) {
    && (forall d :: d in config <==> d in data.entries && HasContainer(data.entries[d]))
    && (forall d :: d in config ==>
         (d in data.entries &&
          config[d] == Backend(data.entries[d]["container"], Get(data.entries[d], "port", DefaultPort))))
  }

  /** The loop of log_monitor.py:26-37. */
  method Project(data: Dict<Fields>) returns (config: Config)
    requires ValidDict(data)
    ensures Projects(data, config)
  {
    config := map[];
    var i := 0;
    while i < |data.keys|
      invariant 0 <= i <= |data.keys|
      invariant forall d :: d in config <==> d in data.keys[..i] && d in data.entries && HasContainer(data.entries[d])
      invariant forall d :: d in config ==>
        (d in data.entries &&
         config[d] == Backend(data.entries[d]["container"], Get(data.entries[d], "port", DefaultPort)))
    {
      var domain := data.keys[i];
      assert domain in data.entries;
      var service := data.entries[domain];
      assert data.keys[..i + 1] == data.keys[..i] + [domain];
      if HasContainer(service) {
        config := config[domain := Backend(service["container"], Get(service, "port", DefaultPort))];
      }
      i := i + 1;
    }
    assert data.keys[..i] == data.keys;
  }

  /** Every container of a projected configuration is a non-empty name. */
  ghost predicate NamesContainers(config: Config) {
    forall d :: d in config ==> config[d].container != ""
  }

  lemma ProjectionNamesContainers(data: Dict<Fields>, config: Config)
    requires Projects(data, config)
    ensures NamesContainers(config)
  {
    forall d | d in config ensures config[d].container != "" {
      assert HasContainer(data.entries[d]);
    }
  }

  /** No domain of `data` names a container. */
  ghost predicate NoContainers(data: Dict<Fields>) {
    forall d :: d in data.entries ==> !HasContainer(data.entries[d])
  }

  /**
   * `load_services_config` of log_monitor.py (16-42): the registry's answer
   * projected, or `{}` when the registry raised.
   */
  method LoadServicesConfig(registry: ServiceRegistry, env: seq<(string, string)>, file: ConfigFile)
    returns (config: Config)
    requires registry.Valid() && ValidFile(file)
    modifies registry
    ensures registry.Valid()
    ensures var out := LoadOutcome(old(registry.cache), env, file);
      && registry.cache == out.0
      && (out.1.Raised? ==> config == map[])
      && (out.1.Loaded? ==> Projects(out.1.data, config))
  {
    var r := registry.Load(env, file);
    match r {
      case Raised =>
        config := map[];  // caught at log_monitor.py:40-42
      case Loaded(data) =>
        if data.entries == map[] {
          config := map[];
        } else {
          config := Project(data);
        }
    }
  }

  /** The projection is empty exactly when no domain names a container. */
  lemma ProjectsEmpty(data: Dict<Fields>, config: Config)
    requires Projects(data, config)
    ensures config == map[] <==> NoContainers(data)
  {
    if config != map[] {
      var d :| d in config;
      assert HasContainer(data.entries[d]);
    }
  }

  // ---------------------------------------------------------------------
  // The host of a log line (log_monitor.py:114-120)
  // ---------------------------------------------------------------------

  predicate NoQuote(s: string) {
    forall i :: 0 <= i < |s| ==> s[i] != Quote
  }

  /** What `$` anchors to: the end of the line, or the point before a final newline. */
  function Chomp(line: string): (r: string)
    ensures r == line || (line == r + "\n")
  {
    if line != [] && line[|line| - 1] == '\n' then line[..|line| - 1] else line
  }

  /** The last index before `end` that holds a quote. */
  function LastQuote(s: string, end: nat): (r: Option<nat>)
    requires end <= |s|
    ensures r.Some? ==> r.value < end && s[r.value] == Quote
    ensures forall i :: (if r.Some? then r.value + 1 else 0) <= i < end ==> s[i] != Quote
    decreases end
  {
    if end == 0 then None
    else if s[end - 1] == Quote then Some(end - 1)
    else LastQuote(s, end - 1)
  }

  /** `re.search(r'"([^"]+)"$', line)` and its group 1. */
  function ExtractHost(line: string): (r: Option<string>)
    // the group `[^"]+`: a non-empty run without quotes
    ensures r.Some? ==> r.value != [] && NoQuote(r.value)
  {
    var body := Chomp(line);
    if body == [] || body[|body| - 1] != Quote then None
    else match LastQuote(body, |body| - 1)
      case None => None
      case Some(j) =>
        if j + 1 < |body| - 1 then
          var h := body[j + 1..|body| - 1];
          assert forall i :: 0 <= i < |h| ==> h[i] == body[j + 1 + i];
          Some(h)
        else None
  }

  /**
   * The line ends (before a final newline, if any) in a quote, `h`, and a
   * quote, with `h` a non-empty run of characters other than quotes.
   */
  ghost predicate QuotedAtEnd(line: string, h: string) {
    var body := Chomp(line);
    && h != [] && NoQuote(h)
    && |h| + 2 <= |body|
    && body[|body| - |h| - 2..] == [Quote] + h + [Quote]
  }

  /** The pattern finds `h` exactly when the line ends in `"h"`. */
  lemma ExtractHostMatches(line: string, h: string)
    ensures ExtractHost(line) == Some(h) <==> QuotedAtEnd(line, h)
  {
    if ExtractHost(line) == Some(h) {
      ExtractHostSound(line);
    }
    if QuotedAtEnd(line, h) {
      ExtractHostComplete(line, h);
    }
  }

  lemma ExtractHostSound(line: string)
    requires ExtractHost(line).Some?
    ensures QuotedAtEnd(line, ExtractHost(line).value)
  {
    var h := ExtractHost(line).value;
    var body := Chomp(line);
    var n := |body|;
    var j := LastQuote(body, n - 1).value;
    assert h == body[j + 1..n - 1];
    assert n - |h| - 2 == j;
    assert body[j..] == [Quote] + h + [Quote];
  }

  lemma ExtractHostComplete(line: string, h: string)
    requires QuotedAtEnd(line, h)
    ensures ExtractHost(line) == Some(h)
  {
    var body := Chomp(line);
    var n := |body|;
    var j := n - |h| - 2;
    var tail := body[j..];
    assert tail == [Quote] + h + [Quote];
    assert body[n - 1] == Quote && body[j] == Quote by {
      assert body[n - 1] == tail[|h| + 1];
      assert body[j] == tail[0];
    }
    forall i | j < i < n - 1 ensures body[i] != Quote {
      assert body[i] == tail[i - j] == h[i - j - 1];
    }
    LastQuoteAt(body, n - 1, j);
    assert body[j + 1..n - 1] == h;
  }

  lemma LastQuoteAt(s: string, end: nat, j: nat)
    requires j < end <= |s| && s[j] == Quote
    requires forall i :: j < i < end ==> s[i] != Quote
    ensures LastQuote(s, end) == Some(j)
    decreases end
  {
    if s[end - 1] != Quote {
      LastQuoteAt(s, end - 1, j);
    }
  }

  // ---------------------------------------------------------------------
  // Starting a container (log_monitor.py:44-95)
  // ---------------------------------------------------------------------

  /**
   * `start_container(domain, config)` on the machine `s`: the machine
   * afterwards and the result. The write of `current_domain.txt` is not
   * part of this model.
   */
  function StartOutcome(s: State, config: Config, domain: string): (r: (State, bool))
    ensures r.0 == s.(trace := r.0.trace, running := r.0.running)
    ensures r.0.running == if r.1 && domain in config then s.running + {config[domain].container} else s.running
    ensures r.1 <==>
      && domain in config && config[domain].container != "" && s.cliPresent
      && config[domain].container in s.existing
      && (config[domain].container in s.running || config[domain].container !in s.startFails)
    // an unknown domain, or one without a container: the runtime is not asked
    ensures domain !in config || config[domain].container == "" ==> r == (s, false)
    ensures domain in config && config[domain].container != "" ==>
      var c := config[domain].container;
      if !s.cliPresent || c !in s.existing then r.0.trace == s.trace + [ListAll(c)]
      else if c in s.running then r.0.trace == s.trace + [ListAll(c), ListRunning(c)]
      else r.0.trace == s.trace + [ListAll(c), ListRunning(c), StartCmd(c)]
  {
    if domain !in config then (s, false)
    else
      var name := config[domain].container;
      if name == "" then (s, false)
      else
        var probe := ListEffect(s, true, name);
        if probe.1 != Some(true) then (probe.0, false)  // no such container, or the command raised
        else
          var up := ListEffect(probe.0, false, name);
          if up.1 == Some(true) then (up.0, true)
          else if up.1.None? then (up.0, false)
          else
            var started := StartEffect(up.0, name);
            (started.0, started.1 == Some(true))
  }

  method StartContainer(host: Host, config: Config, domain: string) returns (ok: bool)
    modifies host
    ensures (host.state, ok) == StartOutcome(old(host.state), config, domain)
  {
    if domain !in config {
      return false;
    }
    var name := config[domain].container;
    if name == "" {
      return false;
    }
    var found := host.List(true, name);
    if found != Some(true) {
      return false;
    }
    var up := host.List(false, name);
    if up == Some(true) {
      return true;
    } else if up.None? {
      return false;  // caught at log_monitor.py:93-95
    }
    var started := host.Start(name);
    ok := started == Some(true);
  }

  /** `touch_last_access_file(domain, config)` (log_monitor.py:97-112). */
  function TouchOutcome(s: State, config: Config, domain: string, now: int): (r: State)
    ensures domain in config && config[domain].container != "" ==>
      r == TouchEffect(s, config[domain].container, now)
    ensures domain !in config || config[domain].container == "" ==> r == s
  {
    if domain !in config then s
    else if config[domain].container == "" then s
    else TouchEffect(s, config[domain].container, now)
  }

  method TouchLastAccessFile(host: Host, config: Config, domain: string, now: int)
    modifies host
    ensures host.state == TouchOutcome(old(host.state), config, domain, now)
  {
    if domain in config && config[domain].container != "" {
      host.Touch(config[domain].container, now);
    }
  }

  // ---------------------------------------------------------------------
  // One access line (log_monitor.py:162-193)
  // ---------------------------------------------------------------------

  /** The host a raw line names, once it is stripped. */
  function LineHost(raw: string): (r: Option<string>)
    ensures AllSpace(raw) ==> r == None
    ensures r.Some? ==> r.value != [] && NoQuote(r.value)
  {
    var line := Strip(raw);
    if line == [] then None else ExtractHost(line)
  }

  /** The line names a configured host: only such a line makes the monitor act. */
  predicate Actionable(config: Config, raw: string) {
    LineHost(raw).Some? && LineHost(raw).value in config
  }

  /** How many times the line makes the monitor call `start_container`. */
  function Attempts(config: Config, raw: string): (r: nat) {
    if !Actionable(config, raw) then 0
    else if Contains(Strip(raw), RetryMarker) then 2
    else 1
  }

  /** The machine after the monitor has handled one line read from the log. */
  function LineOutcome(s: State, config: Config, raw: string, now: int): (r: State)
    // the log monitor never stops a container, and only the running set, markers and trace change
    ensures s.running <= r.running
    ensures r == s.(running := r.running, markers := r.markers, trace := r.trace)
    ensures !Actionable(config, raw) ==> r == s
    ensures Actionable(config, raw) ==>
      var first := StartOutcome(s, config, LineHost(raw).value);
      r.markers == if first.1 then s.markers[config[LineHost(raw).value].container := now] else s.markers
  {
    var line := Strip(raw);
    if line == [] then s
    else match ExtractHost(line)
      case None => s
      case Some(host) =>
        if host !in config then s
        else
          var first := StartOutcome(s, config, host);
          var touched := if first.1 then TouchOutcome(first.0, config, host, now) else first.0;
          if Contains(line, RetryMarker) then StartOutcome(touched, config, host).0 else touched
  }

  /**
   * Each `start_container` call for a configured container runs exactly one
   * `docker ps -a`; a line makes 0, 1 or 2 of them.
   */
  lemma LineProbes(s: State, config: Config, raw: string, now: int)
    requires NamesContainers(config)
    ensures ListAllCount(LineOutcome(s, config, raw, now).trace) == ListAllCount(s.trace) + Attempts(config, raw)
  {
    if Actionable(config, raw) {
      var host := LineHost(raw).value;
      var first := StartOutcome(s, config, host);
      StartProbesOnce(s, config, host);
      var touched := if first.1 then TouchOutcome(first.0, config, host, now) else first.0;
      assert touched.trace == first.0.trace;
      StartProbesOnce(touched, config, host);
    }
  }

  lemma StartProbesOnce(s: State, config: Config, domain: string)
    requires domain in config && config[domain].container != ""
    ensures ListAllCount(StartOutcome(s, config, domain).0.trace) == ListAllCount(s.trace) + 1
  {
    var c := config[domain].container;
    var r := StartOutcome(s, config, domain).0;
    var added := r.trace[|s.trace|..];
    assert r.trace == s.trace + added;
    ListAllCountAppend(s.trace, added);
    ProbeCounts(c);
  }

  /** The `docker ps -a` commands in what one `start_container` call can run. */
  lemma ProbeCounts(c: string)
    ensures ListAllCount([ListAll(c)]) == 1
    ensures ListAllCount([ListAll(c), ListRunning(c)]) == 1
    ensures ListAllCount([ListAll(c), ListRunning(c), StartCmd(c)]) == 1
  {
    assert [ListAll(c)][..0] == [];
    assert [ListAll(c), ListRunning(c)][..1] == [ListAll(c)];
    assert [ListAll(c), ListRunning(c), StartCmd(c)][..2] == [ListAll(c), ListRunning(c)];
  }

  method HandleLine(host: Host, config: Config, raw: string, now: int)
    modifies host
    ensures host.state == LineOutcome(old(host.state), config, raw, now)
  {
    var line := Strip(raw);
    if line == [] {
      return;
    }
    var found := ExtractHost(line);
    if found.None? {
      return;
    }
    var domain := found.value;
    if domain in config {
      var ok := StartContainer(host, config, domain);
      if ok {
        TouchLastAccessFile(host, config, domain, now);
      }
      if Contains(line, RetryMarker) {
        ok := StartContainer(host, config, domain);
      }
    }
  }

  // ---------------------------------------------------------------------
  // One poll of the log (log_monitor.py:152-201)
  // ---------------------------------------------------------------------

  /** The machine after the lines are handled in order. */
  function LinesOutcome(s: State, config: Config, lines: seq<string>, now: int): (r: State)
    ensures s.running <= r.running
    ensures r == s.(running := r.running, markers := r.markers, trace := r.trace)
    decreases |lines|
  {
    if lines == [] then s
    else LineOutcome(LinesOutcome(s, config, lines[..|lines| - 1], now), config, lines[|lines| - 1], now)
  }

  /** The number of `start_container` calls the lines make. */
  function TotalAttempts(config: Config, lines: seq<string>): (r: nat)
    decreases |lines|
  {
    if lines == [] then 0
    else TotalAttempts(config, lines[..|lines| - 1]) + Attempts(config, lines[|lines| - 1])
  }

  /** Handling lines in order runs one `docker ps -a` per `start_container` call. */
  lemma {:induction false} LinesProbes(s: State, config: Config, lines: seq<string>, now: int)
    requires NamesContainers(config)
    ensures ListAllCount(LinesOutcome(s, config, lines, now).trace) == ListAllCount(s.trace) + TotalAttempts(config, lines)
    decreases |lines|
  {
    if lines != [] {
      LinesProbes(s, config, lines[..|lines| - 1], now);
      LineProbes(LinesOutcome(s, config, lines[..|lines| - 1], now), config, lines[|lines| - 1], now);
    }
  }

  /** Lines that name no configured host leave the machine as it was. */
  lemma {:induction false} InertLines(s: State, config: Config, lines: seq<string>, now: int)
    requires forall i :: 0 <= i < |lines| ==> !Actionable(config, lines[i])
    ensures LinesOutcome(s, config, lines, now) == s
    decreases |lines|
  {
    if lines != [] {
      InertLines(s, config, lines[..|lines| - 1], now);
    }
  }

  method ProcessLines(host: Host, config: Config, lines: seq<string>, now: int)
    modifies host
    ensures host.state == LinesOutcome(old(host.state), config, lines, now)
  {
    ghost var start := host.state;
    var i := 0;
    while i < |lines|
      invariant 0 <= i <= |lines|
      invariant host.state == LinesOutcome(start, config, lines[..i], now)
    {
      HandleLine(host, config, lines[i], now);
      LinesOutcomeNext(start, config, lines, i, now);
      i := i + 1;
    }
    assert lines[..i] == lines;
  }

  /** Handling one more line of the list is handling the prefix, then that line. */
  lemma LinesOutcomeNext(s: State, config: Config, lines: seq<string>, i: nat, now: int)
    requires i < |lines|
    ensures LinesOutcome(s, config, lines[..i + 1], now) == LineOutcome(LinesOutcome(s, config, lines[..i], now), config, lines[i], now)
  {
    assert lines[..i + 1][..i] == lines[..i];
  }

  /** The text a poll reads: what lies past the cursor, when the file has grown. */
  function Chunk(cursor: nat, log: string): (r: string)
    ensures |log| > cursor ==> r == log[cursor..]
    ensures |log| <= cursor ==> r == ""
  {
    if |log| > cursor then log[cursor..] else ""
  }

  /** The cursor after a poll: the size seen when the file has grown, else unchanged. */
  function NextCursor(cursor: nat, log: string): (r: nat)
    ensures r >= cursor
    ensures r == if |log| > cursor then |log| else cursor
  {
    if |log| > cursor then |log| else cursor
  }

  /**
   * One poll: `snapshot` is the log as the poll finds it, or None when
   * `stat` raises (the error is caught and the cursor is kept).
   */
  function PollOutcome(s: State, config: Config, cursor: nat, snapshot: Option<string>, now: int): (r: (State, nat))
    ensures snapshot.None? ==> r == (s, cursor)
    ensures snapshot.Some? ==> r == (LinesOutcome(s, config, Readlines(Chunk(cursor, snapshot.value)), now),
                                     NextCursor(cursor, snapshot.value))
  {
    match snapshot
    case None => (s, cursor)
    case Some(log) =>
      if |log| > cursor then (LinesOutcome(s, config, Readlines(log[cursor..]), now), |log|)
      else (s, cursor)
  }

  /** The text a run of polls reads, poll after poll, from the cursor `cursor`. */
  function RunText(cursor: nat, logs: seq<string>): (r: string)
    decreases |logs|
  {
    if logs == [] then ""
    else Chunk(cursor, logs[0]) + RunText(NextCursor(cursor, logs[0]), logs[1..])
  }

  /** Each poll sees the log as it was before, with text appended. */
  ghost predicate AppendOnly(start: string, logs: seq<string>) {
    && (logs != [] ==> start <= logs[0])
    && (forall i, j :: 0 <= i <= j < |logs| ==> logs[i] <= logs[j])
  }

  /**
   * On a log that only grows, the polls together read every byte written
   * after start once, in order, and nothing written before.
   */
  lemma {:induction false} RunReadsEachByteOnce(start: string, logs: seq<string>)
    requires logs != [] && AppendOnly(start, logs)
    ensures RunText(|start|, logs) == logs[|logs| - 1][|start|..]
    decreases |logs|
  {
    var last := logs[|logs| - 1];
    var first := logs[0];
    assert first <= last;
    if |logs| == 1 {
      assert RunText(NextCursor(|start|, first), logs[1..]) == "";
      if |first| == |start| {
        assert first[|start|..] == "";
      }
    } else {
      var rest := logs[1..];
      assert AppendOnly(first, rest) by {
        forall i, j | 0 <= i <= j < |rest| ensures rest[i] <= rest[j] {
          assert rest[i] == logs[i + 1] && rest[j] == logs[j + 1];
        }
        assert logs[0] <= logs[1];
      }
      RunReadsEachByteOnce(first, rest);
      assert rest[|rest| - 1] == last;
      if |first| > |start| {
        assert last[|start|..] == first[|start|..] + last[|first|..];
      } else {
        assert first == start;
      }
    }
  }

  /**
   * The cursor is not reset when the log shrinks: once the log is cut
   * below the cursor and written again, the first `cursor` bytes of the new
   * text are never read.
   */
  lemma ShrunkLogSkipsHead(cursor: nat, short: string, long: string)
    requires |short| <= cursor < |long|
    ensures NextCursor(cursor, short) == cursor && Chunk(cursor, short) == ""
    ensures RunText(cursor, [short, long]) == long[cursor..]
  {
    assert [short, long][1..] == [long];
    assert RunText(|long|, [long][1..]) == "";
  }

  /**
   * A record the poll catches half written is handled as two lines, neither
   * of which names a host: the request is never acted on, although the
   * whole record names a configured host.
   */
  lemma SplitRecordIsLost(s: State, config: Config, start: string, now: int)
    requires "h" in config
    ensures Actionable(config, "\"h\"\n")
    ensures var first := start + "\"h";
      var p1 := PollOutcome(s, config, |start|, Some(first), now);
      var p2 := PollOutcome(p1.0, config, p1.1, Some(first + "\"\n"), now);
      p2 == (s, |first| + 2)
  {
    var first := start + "\"h";
    var whole := first + "\"\n";
    assert first[|start|..] == "\"h";
    assert whole[|first|..] == "\"\n";
    HalfRecord();
    TailRecord();
    WholeRecord();
    assert LinesOutcome(s, config, ["\"h"], now) == s by {
      assert ["\"h"][..0] == [];
    }
    assert LinesOutcome(s, config, ["\"\n"], now) == s by {
      assert ["\"\n"][..0] == [];
    }
  }

  /** The first half of the record `"h"` and its newline. */
  lemma HalfRecord()
    ensures Readlines("\"h") == ["\"h"] && LineHost("\"h") == None
  {
    var t := "\"h";
    ReadlinesSingle(t);
    StripPlain(t);
    HalfRecordHost(t);
  }

  lemma HalfRecordHost(t: string)
    requires t == "\"h"
    ensures ExtractHost(t) == None
  {
  }

  /** The second half of the record `"h"` and its newline. */
  lemma TailRecord()
    ensures Readlines("\"\n") == ["\"\n"] && LineHost("\"\n") == None
  {
    var t := "\"\n";
    ReadlinesSingle(t);
    TailRecordStrip(t);
    TailRecordHost(t[..1]);
  }

  lemma TailRecordStrip(t: string)
    requires t == "\"\n"
    ensures t[..1] == "\"" && Strip(t) == t[..1]
  {
    assert t == t[..1] + "\n";
    StripPlain(t[..1]);
  }

  lemma TailRecordHost(t: string)
    requires t == "\""
    ensures ExtractHost(t) == None
  {
  }

  /** The whole record `"h"` and its newline names the host `h`. */
  lemma WholeRecord()
    ensures LineHost("\"h\"\n") == Some("h")
  {
    var t := "\"h\"\n";
    WholeRecordStrip(t);
    WholeRecordHost(t[..3]);
  }

  lemma WholeRecordStrip(t: string)
    requires t == "\"h\"\n"
    ensures t[..3] == "\"h\"" && Strip(t) == t[..3]
  {
    assert t == t[..3] + "\n";
    StripPlain(t[..3]);
  }

  lemma WholeRecordHost(t: string)
    requires t == "\"h\""
    ensures ExtractHost(t) == Some("h")
  {
    assert QuotedAtEnd(t, "h") by {
      assert Chomp(t) == t;
      assert t[0..] == t;
    }
    ExtractHostComplete(t, "h");
  }

  /** The log monitor once running: the configuration it loaded, the machine and the cursor. */
  class Monitor {
    const config: Config
    const host: Host
    var cursor: nat

    /** The cursor starts at the size of the log, so what it held before is skipped (log_monitor.py:150). */
    constructor (config: Config, host: Host, log: string)
      ensures this.config == config && this.host == host && cursor == |log|
    {
      this.config := config;
      this.host := host;
      cursor := |log|;
    }

    /** One pass of the loop of log_monitor.py:152-201. */
    method Step(snapshot: Option<string>, now: int)
      modifies this, host
      ensures (host.state, cursor) == PollOutcome(old(host.state), config, old(cursor), snapshot, now)
    {
      match snapshot {
        case None =>
        case Some(log) =>
          if |log| > cursor {
            var lines := Readlines(log[cursor..]);
            ProcessLines(host, config, lines, now);
            cursor := |log|;
          }
      }
    }
  }

  /**
   * `monitor_logs` up to its loop (log_monitor.py:122-150): the monitor,
   * or null when the configuration is empty and it returns.
   */
  method Launch(registry: ServiceRegistry, env: seq<(string, string)>, file: ConfigFile, host: Host, log: string)
    returns (m: Monitor?)
    requires registry.Valid() && ValidFile(file)
    modifies registry
    ensures registry.Valid()
    ensures var out := LoadOutcome(old(registry.cache), env, file);
      && registry.cache == out.0
      && (m == null <==> out.1.Raised? || NoContainers(out.1.data))
      && (m != null ==> fresh(m) && m.host == host && m.cursor == |log|
                        && Projects(out.1.data, m.config) && NamesContainers(m.config))
  {
    var config := LoadServicesConfig(registry, env, file);
    ghost var out := LoadOutcome(old(registry.cache), env, file);
    if out.1.Loaded? {
      ProjectsEmpty(out.1.data, config);
      ProjectionNamesContainers(out.1.data, config);
    }
    if config == map[] {
      m := null;
    } else {
      m := new Monitor(config, host, log);
    }
  }
}
