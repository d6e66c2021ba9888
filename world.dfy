/**
 * What the two monitors see of the machine they run on: the Docker runtime
 * behind the `docker` command line, and the directory of last-access marker
 * files. Docker is a set of existing containers and a set of running ones;
 * which `docker start` and `docker stop` calls fail is fixed in advance, and
 * so is whether the `docker` binary can be found at all. Every command the
 * monitors issue is appended to a trace. A marker file is its container's
 * name mapped to its modification time, in whole seconds.
 */
module World {
  import opened Wrappers

  /** One `docker` command line a monitor ran. */
  datatype Command =
    | ListAll(name: string)      // docker ps -a -q -f name=^<name>$
    | ListRunning(name: string)  // docker ps -q -f name=^<name>$
    | StartCmd(name: string)     // docker start <name>
    | StopCmd(name: string)      // docker stop <name>

  datatype State = State(
    existing: set<string>,
    running: set<string>,
    startFails: set<string>,  // containers whose `docker start` exits non-zero
    stopFails: set<string>,   // containers whose `docker stop` exits non-zero
    cliPresent: bool,         // false: every `subprocess.run` of `docker` raises
    markers: map<string, int>,
    trace: seq<Command>)

  /**
   * `docker ps [-a] -q -f name=^<name>$`: whether its output is non-empty,
   * or None when the command cannot be run and `subprocess.run` raises.
   */
  function ListEffect(s: State, all: bool, name: string): (r: (State, Option<bool>))
    ensures r.0 == s.(trace := s.trace + [if all then ListAll(name) else ListRunning(name)])
    ensures r.1.Some? <==> s.cliPresent
    ensures r.1.Some? ==> (r.1.value <==> name in (if all then s.existing else s.running))
  {
    var t := s.(trace := s.trace + [if all then ListAll(name) else ListRunning(name)]);
    if !s.cliPresent then (t, None)
    else if all then (t, Some(name in s.existing))
    else (t, Some(name in s.running))
  }

  /**
   * `docker start <name>`: whether it exited with status 0, or None when it
   * cannot be run. Starting a running container succeeds and changes nothing.
   */
  function StartEffect(s: State, name: string): (r: (State, Option<bool>))
    ensures r.1.Some? <==> s.cliPresent
    ensures r.1 == Some(true) <==> s.cliPresent && name in s.existing && name !in s.startFails
    ensures r.0.running == if r.1 == Some(true) then s.running + {name} else s.running
    ensures r.0 == s.(trace := s.trace + [StartCmd(name)], running := r.0.running)
  {
    var t := s.(trace := s.trace + [StartCmd(name)]);
    if !s.cliPresent then (t, None)
    else if name in s.existing && name !in s.startFails then (t.(running := s.running + {name}), Some(true))
    else (t, Some(false))
  }

  /** `docker stop <name>`: whether it exited with status 0, or None when it cannot be run. */
  function StopEffect(s: State, name: string): (r: (State, Option<bool>))
    ensures r.1.Some? <==> s.cliPresent
    ensures r.1 == Some(true) <==> s.cliPresent && name in s.existing && name !in s.stopFails
    ensures r.0.running == if r.1 == Some(true) then s.running - {name} else s.running
    ensures r.0 == s.(trace := s.trace + [StopCmd(name)], running := r.0.running)
  {
    var t := s.(trace := s.trace + [StopCmd(name)]);
    if !s.cliPresent then (t, None)
    else if name in s.existing && name !in s.stopFails then (t.(running := s.running - {name}), Some(true))
    else (t, Some(false))
  }

  /** `Path.touch` on the marker of `name`: it now carries the time `now`. */
  function TouchEffect(s: State, name: string, now: int): (r: State)
    ensures r.markers == s.markers[name := now]
    ensures r.(markers := s.markers) == s
  {
    s.(markers := s.markers[name := now])
  }

  /** The number of `docker ps -a` commands in a trace. */
  function ListAllCount(trace: seq<Command>): (n: nat) {
    if trace == [] then 0
    else ListAllCount(trace[..|trace| - 1]) + (if trace[|trace| - 1].ListAll? then 1 else 0)
  }

  lemma ListAllCountAppend(a: seq<Command>, b: seq<Command>)
    ensures ListAllCount(a + b) == ListAllCount(a) + ListAllCount(b)
    decreases |b|
  {
    if b != [] {
      assert (a + b)[..|a + b| - 1] == a + b[..|b| - 1];
      ListAllCountAppend(a, b[..|b| - 1]);
    } else {
      assert a + b == a;
    }
  }

  /**
   * The machine as one object both monitors hold: each method runs one
   * command or touches one marker.
   */
  class Host {
    var state: State

    constructor (s: State)
      ensures state == s
    {
      state := s;
    }

    method List(all: bool, name: string) returns (r: Option<bool>)
      modifies this
      ensures (state, r) == ListEffect(old(state), all, name)
    {
      var res := ListEffect(state, all, name);
      state := res.0;
      r := res.1;
    }

    method Start(name: string) returns (r: Option<bool>)
      modifies this
      ensures (state, r) == StartEffect(old(state), name)
    {
      var res := StartEffect(state, name);
      state := res.0;
      r := res.1;
    }

    method Stop(name: string) returns (r: Option<bool>)
      modifies this
      ensures (state, r) == StopEffect(old(state), name)
    {
      var res := StopEffect(state, name);
      state := res.0;
      r := res.1;
    }

    method Touch(name: string, now: int)
      modifies this
      ensures state == TouchEffect(old(state), name, now)
    {
      state := TouchEffect(state, name, now);
    }
  }
}
