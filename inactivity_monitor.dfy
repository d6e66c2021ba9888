/**
 * The inactivity monitor of inactivity_monitor.py: every cycle it takes the
 * time once, lists the containers the services name, and goes through them
 * in order. A container that is not running is left alone; a running one
 * without a last-access marker gets one; a running one whose marker is at
 * least the timeout old is stopped.
 */
module InactivityMonitor {
  import opened Wrappers
  import opened PyDict
  import opened Registry
  import opened World

  // ---------------------------------------------------------------------
  // The containers the services name (inactivity_monitor.py:48-66)
  // ---------------------------------------------------------------------

  /** The truthy `container` value of the service under `k`, if any. */
  function ContainerOf(data: Dict<Fields>, k: string): (r: Option<string>)
    ensures r.Some? <==> k in data.entries && "container" in data.entries[k] && data.entries[k]["container"] != ""
    ensures r.Some? ==> r.value == data.entries[k]["container"]
  {
    if k in data.entries && "container" in data.entries[k] && data.entries[k]["container"] != ""
    then Some(data.entries[k]["container"])
    else None
  }

  /** The containers the first `n` services name, in the order of the services. */
  function ContainerList(data: Dict<Fields>, n: nat): (r: seq<string>)
    requires n <= |data.keys|
    ensures |r| <= n
    ensures forall i :: 0 <= i < |r| ==> r[i] != ""
    decreases n
  {
    if n == 0 then []
    else
      var prev := ContainerList(data, n - 1);
      match ContainerOf(data, data.keys[n - 1])
      case None => prev
      case Some(c) => prev + [c]
  }

  /** The list comprehensions of inactivity_monitor.py:58-63. */
  function Containers(data: Dict<Fields>): (r: seq<string>)
    ensures forall i :: 0 <= i < |r| ==> r[i] != ""
  {
    ContainerList(data, |data.keys|)
  }

  /** A longer run of services only adds containers at the end. */
  lemma {:induction false} ContainerListPrefix(data: Dict<Fields>, i: nat, n: nat)
    requires i <= n <= |data.keys|
    ensures ContainerList(data, i) <= ContainerList(data, n)
    decreases n
  {
    if i < n {
      ContainerListPrefix(data, i, n - 1);
    }
  }

  /**
   * Every service that names a container has its own place in the list,
   * after the places of the services before it: order follows the
   * services and duplicates are kept.
   */
  lemma ContainerListAt(data: Dict<Fields>, i: nat, n: nat)
    requires i < n <= |data.keys| && ContainerOf(data, data.keys[i]).Some?
    ensures |ContainerList(data, i)| < |ContainerList(data, n)|
    ensures ContainerList(data, n)[|ContainerList(data, i)|] == ContainerOf(data, data.keys[i]).value
  {
    ContainerListPrefix(data, i + 1, n);
  }

  /** A name is listed exactly when some service names it as its container. */
  lemma {:induction false} ContainerListMembers(data: Dict<Fields>, n: nat, c: string)
    requires n <= |data.keys|
    ensures c in ContainerList(data, n) <==> exists i :: 0 <= i < n && ContainerOf(data, data.keys[i]) == Some(c)
    decreases n
  {
    if n > 0 {
      ContainerListMembers(data, n - 1, c);
      if ContainerOf(data, data.keys[n - 1]) == Some(c) {
        assert c in ContainerList(data, n);
      }
    }
  }

  /**
   * `get_containers()`: the containers the loaded services name, or `[]`
   * when the registry raised (the exception is caught at
   * inactivity_monitor.py:64-66).
   */
  method GetContainers(registry: ServiceRegistry, env: seq<(string, string)>, file: ConfigFile)
    returns (cs: seq<string>)
    requires registry.Valid() && ValidFile(file)
    modifies registry
    ensures registry.Valid()
    ensures var out := LoadOutcome(old(registry.cache), env, file);
      && registry.cache == out.0
      && cs == if out.1.Raised? then [] else Containers(out.1.data)
  {
    var r := registry.Load(env, file);
    match r {
      case Raised =>
        cs := [];
      case Loaded(data) =>
        if data.entries == map[] {
          EmptyIsEmpty(data);
          cs := [];
        } else {
          cs := Containers(data);
        }
    }
  }

  // ---------------------------------------------------------------------
  // One container (inactivity_monitor.py:68-101, 113-132)
  // ---------------------------------------------------------------------

  /**
   * `check_container_running(name)`: whether it runs, or None when the
   * command cannot be run; that exception is not the CalledProcessError
   * the function catches, so it leaves the sweep.
   */
  method CheckContainerRunning(host: Host, name: string) returns (r: Option<bool>)
    modifies host
    ensures host.state == old(host.state).(trace := old(host.state).trace + [ListRunning(name)])
    ensures r.Some? <==> old(host.state).cliPresent
    ensures r.Some? ==> (r.value <==> name in old(host.state).running)
  {
    r := host.List(false, name);
  }

  /** `get_last_activity(name)`: the marker's time, or None when there is no marker. */
  function LastActivity(s: State, name: string): (r: Option<int>)
    ensures r.Some? <==> name in s.markers
    ensures r.Some? ==> r.value == s.markers[name]
  {
    if name in s.markers then Some(s.markers[name]) else None
  }

  /**
   * `stop_container(name)`: a failed stop is caught; the command failing to
   * run is not, and the result says whether it escaped.
   */
  method StopContainer(host: Host, name: string) returns (raised: bool)
    modifies host
    ensures host.state == StopEffect(old(host.state), name).0
    ensures raised <==> !old(host.state).cliPresent
  {
    var r := host.Stop(name);
    raised := r.None?;
  }

  /** The container has been idle for at least `timeout` minutes at `now`. */
  predicate Idle(last: int, now: int, timeout: int) {
    now - last >= 60 * timeout
  }

  /**
   * The test on whole seconds is the test of inactivity_monitor.py:124-131,
   * `elapsed / 60 >= TIMEOUT_MINUTES`, in exact arithmetic.
   */
  lemma IdleInMinutes(last: int, now: int, timeout: int)
    ensures Idle(last, now, timeout) <==> (now - last) as real / 60.0 >= timeout as real
  {
    var elapsed := (now - last) as real;
    assert elapsed / 60.0 * 60.0 == elapsed;
    assert elapsed / 60.0 >= timeout as real <==> elapsed >= 60.0 * timeout as real;
  }

  /**
   * One pass of the loop body of inactivity_monitor.py:113-132 for
   * container `c`: the machine afterwards and whether an exception escaped.
   */
  function Visit(s: State, c: string, now: int, timeout: int): (r: (State, bool))
    ensures r.1 <==> !s.cliPresent
    ensures r.0 == s.(running := r.0.running, markers := r.0.markers, trace := r.0.trace)
    ensures r.0.running <= s.running
    // not running (or the check raised): neither touched nor stopped
    ensures c !in s.running || !s.cliPresent ==> r.0 == s.(trace := s.trace + [ListRunning(c)])
    // running without a marker: a marker is made and the container is not stopped
    ensures s.cliPresent && c in s.running && c !in s.markers ==>
      r.0 == s.(markers := s.markers[c := now], trace := s.trace + [ListRunning(c)])
    // running with a marker: stopped exactly when idle
    ensures s.cliPresent && c in s.running && c in s.markers ==>
      && r.0.markers == s.markers
      && r.0.trace == s.trace + [ListRunning(c)] + (if Idle(s.markers[c], now, timeout) then [StopCmd(c)] else [])
      && (r.0.running == if Idle(s.markers[c], now, timeout) then StopEffect(s, c).0.running else s.running)
  {
    var check := ListEffect(s, false, c);
    match check.1
    case None => (check.0, true)
    case Some(up) =>
      if !up then (check.0, false)
      else match LastActivity(check.0, c)
        case None => (TouchEffect(check.0, c, now), false)
        case Some(last) =>
          if Idle(last, now, timeout) then
            var stop := StopEffect(check.0, c);
            (stop.0, stop.1.None?)
          else (check.0, false)
  }

  /** The loop body of inactivity_monitor.py:113-132 for one container. */
  method VisitContainer(host: Host, c: string, now: int, timeout: int) returns (raised: bool)
    modifies host
    ensures (host.state, raised) == Visit(old(host.state), c, now, timeout)
  {
    var up := CheckContainerRunning(host, c);
    if up.None? {
      return true;
    }
    raised := false;
    if up.value {
      var last := LastActivity(host.state, c);
      if last.None? {
        host.Touch(c, now);  // no activity record yet: make one and go on
      } else if Idle(last.value, now, timeout) {
        raised := StopContainer(host, c);
      }
    }
  }

  // ---------------------------------------------------------------------
  // One cycle (inactivity_monitor.py:109-135)
  // ---------------------------------------------------------------------

  /**
   * The machine after the loop has gone through `cs` in order, all against
   * the one instant `now`, and whether an exception ended it.
   */
  function Sweep(s: State, cs: seq<string>, now: int, timeout: int): (r: (State, bool))
    decreases |cs|
  {
    if cs == [] then (s, false)
    else
      var prev := Sweep(s, cs[..|cs| - 1], now, timeout);
      if prev.1 then prev else Visit(prev.0, cs[|cs| - 1], now, timeout)
  }

  /**
   * The sweep only ends early when the `docker` command cannot be run: a
   * failed stop is caught and the sweep goes on.
   */
  lemma {:induction false} SweepRaises(s: State, cs: seq<string>, now: int, timeout: int)
    ensures Sweep(s, cs, now, timeout).1 <==> !s.cliPresent && cs != []
    ensures Sweep(s, cs, now, timeout).0 ==
      s.(running := Sweep(s, cs, now, timeout).0.running,
         markers := Sweep(s, cs, now, timeout).0.markers,
         trace := Sweep(s, cs, now, timeout).0.trace)
    decreases |cs|
  {
    if cs != [] {
      SweepRaises(s, cs[..|cs| - 1], now, timeout);
    }
  }

  /** The sweep starts nothing, and the trace only grows. */
  lemma {:induction false} SweepNeverStarts(s: State, cs: seq<string>, now: int, timeout: int)
    ensures Sweep(s, cs, now, timeout).0.running <= s.running
    ensures s.trace <= Sweep(s, cs, now, timeout).0.trace
    decreases |cs|
  {
    if cs != [] {
      SweepNeverStarts(s, cs[..|cs| - 1], now, timeout);
    }
  }

  /**
   * The sweep never deletes a marker nor changes one that was there; the
   * markers it adds carry `now` and belong to containers in `cs`.
   */
  lemma {:induction false} SweepKeepsMarkers(s: State, cs: seq<string>, now: int, timeout: int, k: string)
    ensures var r := Sweep(s, cs, now, timeout).0;
      && (k in s.markers ==> k in r.markers && r.markers[k] == s.markers[k])
      && (k in r.markers && k !in s.markers ==> r.markers[k] == now && k in cs)
    decreases |cs|
  {
    if cs != [] {
      SweepKeepsMarkers(s, cs[..|cs| - 1], now, timeout, k);
    }
  }

  /** The commands the sweep ran, after those already in the trace. */
  function NewCommands(s: State, cs: seq<string>, now: int, timeout: int): (r: seq<Command>) {
    var t := Sweep(s, cs, now, timeout).0.trace;
    if s.trace <= t then t[|s.trace|..] else []
  }

  /** A container that is not running when the sweep begins is never stopped and gets no marker. */
  lemma {:induction false} SweepSkipsStopped(s: State, cs: seq<string>, now: int, timeout: int, c: string)
    requires c !in s.running
    ensures StopCmd(c) !in NewCommands(s, cs, now, timeout)
    ensures c in Sweep(s, cs, now, timeout).0.markers <==> c in s.markers
    decreases |cs|
  {
    SweepNeverStarts(s, cs, now, timeout);
    if cs != [] {
      var init := cs[..|cs| - 1];
      SweepSkipsStopped(s, init, now, timeout, c);
      SweepNeverStarts(s, init, now, timeout);
      var prev := Sweep(s, init, now, timeout).0;
      var r := Sweep(s, cs, now, timeout).0;
      assert r.trace[|s.trace|..] == prev.trace[|s.trace|..] + r.trace[|prev.trace|..];
    }
  }

  /**
   * A running container that has no marker gets one carrying `now`, and, the
   * timeout being positive, is not stopped in that cycle.
   */
  lemma {:induction false} SweepSeedsMarker(s: State, cs: seq<string>, now: int, timeout: int, c: string)
    requires s.cliPresent && c in s.running && c !in s.markers && timeout > 0
    ensures var r := Sweep(s, cs, now, timeout).0;
      && StopCmd(c) !in NewCommands(s, cs, now, timeout)
      && c in r.running
      && (c in cs ==> c in r.markers && r.markers[c] == now)
      && (c !in cs ==> c !in r.markers)
    decreases |cs|
  {
    SweepNeverStarts(s, cs, now, timeout);
    if cs != [] {
      var init := cs[..|cs| - 1];
      var x := cs[|cs| - 1];
      SweepSeedsMarker(s, init, now, timeout, c);
      SweepNeverStarts(s, init, now, timeout);
      SweepRaises(s, init, now, timeout);
      var prev := Sweep(s, init, now, timeout).0;
      var r := Sweep(s, cs, now, timeout).0;
      assert r == Visit(prev, x, now, timeout).0;
      VisitSeedsMarker(prev, x, now, timeout, c);
      assert r.trace[|s.trace|..] == prev.trace[|s.trace|..] + r.trace[|prev.trace|..];
      assert c in cs <==> c in init || c == x;
    }
  }

  /** What one visit does to a running container `c` whose marker, if any, carries `now`. */
  lemma VisitSeedsMarker(prev: State, x: string, now: int, timeout: int, c: string)
    requires prev.cliPresent && c in prev.running && timeout > 0
    requires c in prev.markers ==> prev.markers[c] == now
    ensures var r := Visit(prev, x, now, timeout).0;
      && prev.trace <= r.trace
      && StopCmd(c) !in r.trace[|prev.trace|..]
      && c in r.running
      && (x == c ==> c in r.markers && r.markers[c] == now)
      && (x != c ==> (c in r.markers <==> c in prev.markers) && (c in prev.markers ==> r.markers[c] == now))
  {
    var r := Visit(prev, x, now, timeout).0;
    if x in prev.running && x in prev.markers && Idle(prev.markers[x], now, timeout) {
      assert r.trace[|prev.trace|..] == [ListRunning(x), StopCmd(x)];
    } else {
      assert r.trace[|prev.trace|..] == [ListRunning(x)];
    }
  }

  /**
   * A running container with a marker is stopped in the cycle exactly when
   * it has been idle for at least the timeout; the boundary counts as idle.
   */
  lemma {:induction false} SweepStopsIdle(s: State, cs: seq<string>, now: int, timeout: int, c: string)
    requires s.cliPresent && c in s.running && c in s.markers
    ensures StopCmd(c) in NewCommands(s, cs, now, timeout) <==> c in cs && Idle(s.markers[c], now, timeout)
    ensures !Idle(s.markers[c], now, timeout) ==> c in Sweep(s, cs, now, timeout).0.running
    ensures c !in Sweep(s, cs, now, timeout).0.running ==> c in cs && Idle(s.markers[c], now, timeout)
    decreases |cs|
  {
    SweepNeverStarts(s, cs, now, timeout);
    if cs != [] {
      var init := cs[..|cs| - 1];
      var x := cs[|cs| - 1];
      SweepStopsIdle(s, init, now, timeout, c);
      SweepNeverStarts(s, init, now, timeout);
      SweepRaises(s, init, now, timeout);
      SweepKeepsMarkers(s, init, now, timeout, c);
      var prev := Sweep(s, init, now, timeout).0;
      var r := Sweep(s, cs, now, timeout).0;
      assert r == Visit(prev, x, now, timeout).0;
      VisitStopsIdle(prev, x, now, timeout, c);
      assert r.trace[|s.trace|..] == prev.trace[|s.trace|..] + r.trace[|prev.trace|..];
      assert c in cs <==> c in init || c == x;
    }
  }

  /** What one visit does to a container `c` with a marker, whether or not it is the one visited. */
  lemma VisitStopsIdle(prev: State, x: string, now: int, timeout: int, c: string)
    requires prev.cliPresent && c in prev.markers
    ensures var r := Visit(prev, x, now, timeout).0;
      && prev.trace <= r.trace
      && (StopCmd(c) in r.trace[|prev.trace|..] <==> x == c && c in prev.running && Idle(prev.markers[c], now, timeout))
      && (c in r.running ==> c in prev.running)
      && (c in prev.running && !(x == c && Idle(prev.markers[c], now, timeout)) ==> c in r.running)
  {
    var r := Visit(prev, x, now, timeout).0;
    if x in prev.running && x in prev.markers && Idle(prev.markers[x], now, timeout) {
      assert r.trace[|prev.trace|..] == [ListRunning(x), StopCmd(x)];
    } else {
      assert r.trace[|prev.trace|..] == [ListRunning(x)];
    }
  }

  /** Once an exception has ended the sweep, the rest of the containers change nothing. */
  lemma {:induction false} SweepStaysRaised(s: State, cs: seq<string>, i: nat, now: int, timeout: int)
    requires i <= |cs| && Sweep(s, cs[..i], now, timeout).1
    ensures Sweep(s, cs, now, timeout) == Sweep(s, cs[..i], now, timeout)
    decreases |cs| - i
  {
    if i < |cs| {
      assert cs[..i + 1][..i] == cs[..i];
      SweepStaysRaised(s, cs, i + 1, now, timeout);
    } else {
      assert cs[..i] == cs;
    }
  }

  /**
   * One cycle of `main` (inactivity_monitor.py:109-135): the cache of this
   * process's registry after `get_containers`, and the sweep; whether an
   * exception left the loop.
   */
  method SweepCycle(registry: ServiceRegistry, host: Host, env: seq<(string, string)>, file: ConfigFile,
                    now: int, timeout: int)
    returns (raised: bool)
    requires registry.Valid() && ValidFile(file)
    modifies registry, host
    ensures registry.Valid()
    ensures var out := LoadOutcome(old(registry.cache), env, file);
      var cs := if out.1.Raised? then [] else Containers(out.1.data);
      && registry.cache == out.0
      && (host.state, raised) == Sweep(old(host.state), cs, now, timeout)
  {
    var cs := GetContainers(registry, env, file);
    raised := RunSweep(host, cs, now, timeout);
  }

  /** The loop of inactivity_monitor.py:113-132 over the listed containers. */
  method RunSweep(host: Host, cs: seq<string>, now: int, timeout: int) returns (raised: bool)
    modifies host
    ensures (host.state, raised) == Sweep(old(host.state), cs, now, timeout)
  {
    ghost var start := host.state;
    var i := 0;
    while i < |cs|
      invariant 0 <= i <= |cs|
      invariant Sweep(start, cs[..i], now, timeout) == (host.state, false)
    {
      assert cs[..i + 1][..i] == cs[..i];
      var escaped := VisitContainer(host, cs[i], now, timeout);
      if escaped {
        SweepStaysRaised(start, cs, i + 1, now, timeout);
        return true;
      }
      i := i + 1;
    }
    assert cs[..i] == cs;
    raised := false;
  }
}
