# quantixy lifecycle controller in Dafny

quantixy starts backend containers when their domain receives traffic and
stops them once they have been idle for a while. Three Python files do this
work, and this project models them:

- `utils.py`: the service registry. It scans `QUANTIXY__<domain parts>__<field>`
  environment variables into a process-wide cache, and only while that cache
  is empty. On every call it then lays the YAML services file over a shallow
  copy of the cache.
- `log_monitor.py`: the log monitor. It projects the services to a container
  and a port per domain. It then tails the NGINX access log from the log's
  size at start. For every line that ends in a quoted field naming a
  configured host, it runs `start_container`. When that succeeds it touches the
  container's last-access marker. A line containing ` 502 ` makes it call
  `start_container` a second time.
- `inactivity_monitor.py`: the inactivity monitor. Each cycle it lists the
  containers, ignores those that are not running, and seeds a marker for a
  running container that has none. It stops a running container whose
  marker is at least `TIMEOUT_MINUTES` old.

The modules are:

- `Text`: the Python string operations as functions on `string`. These are
  `startswith`, `in`, `split`, `join`, `lower`, `strip` and `readlines`.
- `PyDict`: a dict with its insertion order.
- `Registry`: `utils.py`. One call is the function `LoadOutcome`, which gives
  the cache afterwards and the result (`Loaded(data)` or `Raised`). The class
  `ServiceRegistry` holds the cache and implements the same steps with loops.
- `World`: the machine. Docker is a set of existing containers and a set of
  running ones. A start or stop of some containers fails, fixed in advance.
  A flag says whether the `docker` binary can be run at all. The markers are
  a map from name to modification time. Every command run is appended to a
  trace. The class `Host` applies one effect per method.
- `LogMonitor`: `log_monitor.py`. The per-line, per-poll and per-run
  behaviour are functions. The methods (`StartContainer`, `HandleLine`,
  `ProcessLines`, and `Monitor.Step`) are proved equal to those functions.
- `InactivityMonitor`: `inactivity_monitor.py`. A visit of one container is
  `Visit`, and a cycle is the fold `Sweep`. `RunSweep` is the loop, proved
  equal to `Sweep`. `SweepCycle` calls `GetContainers` and then `RunSweep`, and
  is proved equal to `LoadOutcome` followed by `Sweep`.

Three consequences of how the code is written are proved as lemmas.

- **The cursor is not reset when the log shrinks** (`log_monitor.py:154-195`).
  The code only acts when the size has grown past the cursor, and otherwise
  keeps the cursor where it was. `LogMonitor.ShrunkLogSkipsHead`
  proves the consequence: once the log is cut below the cursor and written
  again, the first `cursor` characters of the new text are never read.
- **A record the poll catches half-written is handled as two lines**
  (`log_monitor.py:158-170`). The code hands `readlines` whatever follows the
  cursor, including a last line without its newline.
  `LogMonitor.SplitRecordIsLost` proves one instance: the record `"h"`, cut
  after `"h` and read in two polls, makes the monitor do nothing, although the
  whole record names a configured host.
- **A missing `docker` binary ends the inactivity loop.** In
  `inactivity_monitor.py`, a `docker` command that cannot be run raises
  something other than `CalledProcessError`, and `main` ends
  (`inactivity_monitor.py:76`, `100`, `137-143`). `Sweep` returns that as its
  flag, and `SweepRaises` proves the flag is set exactly when the binary is
  missing and the list is non-empty. A failed stop is caught, and the sweep
  goes on.

## Model

| member | source | states |
|---|---|---|
| Text.StartsWith | utils.py:24 | `key.startswith(p)`: the first `len(p)` characters are `p`; used by `ParseEnvKey`, whose ensures says a key parses exactly when it holds |
| Text.Contains | log_monitor.py:188 | `t in s`: `t` occurs at some index; `Attempts` gives a second start exactly for a line that holds ` 502 ` |
| Text.Join | utils.py:26 | `sep.join(parts)`; `JoinSplit` and `SplitJoin` tie it to `Split` in both directions |
| Text.Split | utils.py:25 | `split` always gives at least one part, so `parts[-1]` exists |
| Text.JoinSplit | utils.py:25-26 | joining the parts of a split with the same separator gives the string back |
| Text.SplitJoin | utils.py:25-26 | `split('__')` recovers the parts a key was built from, when no part holds or ends so as to form `__` |
| Text.Lower | utils.py:29 | `lower()` keeps the length, maps each character by its ASCII lower case, and leaves no capital |
| Text.StripStart | log_monitor.py:163 | the result is a suffix of the input, the removed prefix is all whitespace, and the result does not start with whitespace |
| Text.StripEnd | log_monitor.py:163 | the result is a prefix of the input, the removed suffix is all whitespace, and the result does not end with whitespace |
| Text.Strip | log_monitor.py:163-165 | `strip()` is empty exactly for an all-whitespace line; otherwise it neither starts nor ends with whitespace |
| Text.StripPlain | log_monitor.py:163 | a line with no whitespace at either end is kept, and its newline is dropped |
| Text.Readlines | log_monitor.py:160 | `readlines` never yields an empty line |
| Text.ReadlinesConcat | log_monitor.py:160-162 | the lines put together are exactly the text read: nothing is lost or repeated |
| Text.ReadlinesShape | log_monitor.py:160 | every line but the last ends in a newline, and no line holds a newline before its end |
| Text.ReadlinesSingle | log_monitor.py:160 | text with no newline before its last character is a single line |
| PyDict.Empty | utils.py:16 | `{}` is a valid dict with no entries |
| PyDict.Put | utils.py:28-29 | `d[k] = v` sets the entry; a new key goes to the end of the iteration order, and an existing key keeps its place |
| PyDict.PutValid | utils.py:28-29 | assignment keeps the key order duplicate-free and in step with the entries |
| PyDict.EmptyIsEmpty | utils.py:22 | a valid dict with no entries is `{}`, which is what `not d` tests |
| Registry.ParseEnvKey | utils.py:24-29 | a key parses exactly when it has the `QUANTIXY__` prefix, and the field it gives is lower case |
| Registry.ParseNamedKey | utils.py:25-29 | a key built from domain parts and a field parses to the parts joined with `.` and the field lower-cased |
| Registry.ParseDottedPart | utils.py:11-12 | `QUANTIXY__domain.exemple__port` names the field `port` of the domain `domain.exemple` |
| Registry.ParseSeparatedParts | utils.py:25-29 | `QUANTIXY__a__example__Port` names the field `port` of the domain `a.example` |
| Registry.ScanPair | utils.py:24-29 | handling one environment pair keeps the cache a valid dict |
| Registry.EnvData | utils.py:23-29 | the scan of the environment builds a valid dict |
| Registry.EnvDomainsHaveFields | utils.py:27-29 | every domain the scan creates holds at least one field |
| Registry.ScanPairLookup | utils.py:29 | one pair sets exactly the field it names, and every other field keeps its value |
| Registry.EnvDataHas | utils.py:23-29 | the cache holds a field of a domain exactly when some environment key names it |
| Registry.EnvDataLastWins | utils.py:29 | when several keys name the same field, the value of the last one is kept |
| Registry.EnvIgnoresUnprefixed | utils.py:24 | a variable without the prefix changes nothing, wherever it appears |
| Registry.EnvBase | utils.py:22-29 | the cache after the guarded scan is a valid dict |
| Registry.Refresh | utils.py:31 | after the loop, the cache keeps its own domains, in its own order, as a valid dict |
| Registry.RefreshPut | utils.py:31-41 | a write to a domain of the data reaches the cache exactly when the cache holds that domain, as the shallow copy shares its field dicts |
| Registry.MergeFile | utils.py:38-41 | the loop over the file's domains; its meaning is in `MergeFileRaises` (raises exactly at a non-mapping entry), `MergeFileStaysRaised`, `MergeFileKeepsDomains`, `MergeFileValid` and `MergeFileAt` (per domain: present exactly when the base or the file names it, the file's fields over the base's) |
| Registry.MergeFileValid | utils.py:38-41 | the merge loop keeps the data a valid dict |
| Registry.MergeFileKeepsDomains | utils.py:38-41 | the merge loop adds domains and never drops one |
| Registry.MergeFileRaises | utils.py:38-41 | `update` has raised exactly when a domain visited so far holds something other than a mapping |
| Registry.MergeFileStaysRaised | utils.py:38-41 | once the loop has raised, the later domains change nothing |
| Registry.MergeFileNext | utils.py:39-41 | a mapping domain (new ones start as `{}`) gets the file's fields written over its own |
| Registry.MergeFileRaisesAt | utils.py:41 | a domain that is not a mapping ends the loop with the data as it was |
| Registry.MergeFileAt | utils.py:38-41 | with every entry a mapping, a domain is in the result exactly when the base or the file names it, and its fields are the file's laid over the base's |
| Registry.MergeFileAtStep | utils.py:38-41 | one more mapping domain keeps that description true |
| Registry.LoadOutcome | utils.py:18-52 | one call of `load_services_config`: `EnvBase` then `LoadFrom`; `MergeAt`, `FileFieldWins`, `EnvFieldSurvives`, `SingleSourceDomain`, `CacheAbsorbsFileFields`, `ScanHappensOnce` and `StaleFieldPersists` state what it returns and what it leaves in the cache |
| Registry.LoadFrom | utils.py:31-45 | the cache keeps its domains; the call raises exactly for an unreadable file, a non-mapping document or a non-mapping entry; a missing, vanished or unparsable file returns the cache itself; a loaded result shares every cached domain's fields |
| Registry.MergeAt | utils.py:31-45 | with every entry a mapping, the result holds the domains of either source, each with the file's fields over the env's, and the cache keeps its domains with the file's fields written in |
| Registry.FileFieldWins | utils.py:41 | a field the file gives a domain is returned with the file's value |
| Registry.EnvFieldSurvives | utils.py:41 | a field only the environment gives a domain is returned unchanged |
| Registry.SingleSourceDomain | utils.py:38-41 | a domain only one source has comes through exactly as that source has it, and no other domain appears |
| Registry.CacheAbsorbsFileFields | utils.py:31-41 | the cache gains no domain from the file, but a domain it shares with the file takes in the file's fields |
| Registry.ScanHappensOnce | utils.py:22 | once a call has cached a prefixed variable, later calls ignore the environment |
| Registry.StaleFieldPersists | utils.py:22-41 | a field read once from the file for a cached domain is still returned after the file drops it |
| Registry.EnvDataNext | utils.py:23-29 | the scan of one more pair is that pair applied to the scan before it |
| Registry.ServiceRegistry.constructor | utils.py:16 | the registry starts with an empty, valid cache |
| Registry.ServiceRegistry.ScanEnvironment | utils.py:22-29 | the loop leaves the cache as `EnvBase` of the old cache: scanned only if it was empty |
| Registry.ServiceRegistry.MergeServices | utils.py:38-41 | the loop returns what `MergeFile` describes, and the cache sees every write to a domain it holds |
| Registry.ServiceRegistry.Load | utils.py:18-52 | the call leaves the cache and returns the result that `LoadOutcome` gives |
| World.ListEffect | log_monitor.py:66-75 | `docker ps [-a] -q -f name=^c$` is recorded, raises exactly when the binary is missing, and otherwise reports membership in the existing or running set |
| World.StartEffect | log_monitor.py:83-85 | `docker start` is recorded and exits 0 exactly when the binary runs, the container exists and its start does not fail; only then is it running |
| World.StopEffect | inactivity_monitor.py:98 | `docker stop` is recorded and exits 0 exactly when the binary runs, the container exists and its stop does not fail; only then has it stopped |
| World.TouchEffect | log_monitor.py:107-110 | touching a marker sets its time to now and changes nothing else |
| World.ListAllCountAppend | log_monitor.py:66 | the count of `docker ps -a` commands adds up over concatenated traces |
| World.Host.List | inactivity_monitor.py:71-75 | the machine takes the `ListEffect` step |
| World.Host.Start | log_monitor.py:83-85 | the machine takes the `StartEffect` step |
| World.Host.Stop | inactivity_monitor.py:98 | the machine takes the `StopEffect` step |
| World.Host.Touch | inactivity_monitor.py:121 | the machine takes the `TouchEffect` step |
| LogMonitor.Get | log_monitor.py:28-29 | `service.get(key, default)`: the value under the key, or the default when it is absent |
| LogMonitor.HasContainer | log_monitor.py:28-30 | `service.get('container')` is truthy: present and not the empty string; `Project` keeps exactly the domains where it holds |
| LogMonitor.Project | log_monitor.py:26-37 | the configuration holds exactly the domains with a truthy container, each with that container and its port, `80` by default |
| LogMonitor.ProjectionNamesContainers | log_monitor.py:30-34 | every container of a projected configuration is a non-empty name |
| LogMonitor.ProjectsEmpty | log_monitor.py:129-132 | the projection is empty exactly when no domain names a container |
| LogMonitor.LoadServicesConfig | log_monitor.py:16-42 | the registry's answer is projected; an exception from the registry gives `{}` |
| LogMonitor.Chomp | log_monitor.py:117 | what `$` anchors to is the line, or the line before its final newline |
| LogMonitor.LastQuote | log_monitor.py:117 | the index found holds a quote, and there is no quote after it before the end |
| LogMonitor.ExtractHost | log_monitor.py:114-120 | group 1 of `re.search(r'"([^"]+)"$', line)`: a host found is non-empty and holds no quote; `ExtractHostMatches` states exactly when it finds which host |
| LogMonitor.ExtractHostMatches | log_monitor.py:114-120 | the pattern finds host `h` exactly when the line ends in a quote, `h` (non-empty, without quotes) and a quote |
| LogMonitor.ExtractHostSound | log_monitor.py:117-119 | a host found is a quoted run at the end of the line |
| LogMonitor.ExtractHostComplete | log_monitor.py:117-119 | a line ending in a quoted run at the end yields that run |
| LogMonitor.LastQuoteAt | log_monitor.py:117 | the last quote before the end is found, whatever precedes it |
| LogMonitor.StartOutcome | log_monitor.py:44-95 | it succeeds exactly when the binary runs, the container exists and is running or starts; an unknown domain asks nothing; the commands run are `ps -a`, then `ps`, then `start`, cut short as the code returns; only the running set can change |
| LogMonitor.StartContainer | log_monitor.py:44-95 | the method takes the `StartOutcome` step and returns its result |
| LogMonitor.TouchOutcome | log_monitor.py:97-112 | a configured domain's container marker gets the time now; any other domain changes nothing |
| LogMonitor.TouchLastAccessFile | log_monitor.py:97-112 | the method takes the `TouchOutcome` step |
| LogMonitor.LineHost | log_monitor.py:163-173 | the host of a stripped line: none for an all-whitespace line, otherwise what `ExtractHost` finds, non-empty and without quotes |
| LogMonitor.LineOutcome | log_monitor.py:162-193 | a line that names no configured host changes nothing; otherwise the marker is touched exactly when the first start succeeded; no container is ever stopped, and only the running set, markers and trace change |
| LogMonitor.LineProbes | log_monitor.py:184-191 | a line runs one `docker ps -a` per `start_container` call: none, one, or two with ` 502 ` |
| LogMonitor.StartProbesOnce | log_monitor.py:64-70 | a configured `start_container` call runs `docker ps -a` exactly once |
| LogMonitor.ProbeCounts | log_monitor.py:66 | each command sequence a start can run holds one `docker ps -a` |
| LogMonitor.HandleLine | log_monitor.py:162-193 | the method takes the `LineOutcome` step |
| LogMonitor.LinesProbes | log_monitor.py:162-193 | over many lines, the count of `docker ps -a` commands grows by the total number of start calls |
| LogMonitor.InertLines | log_monitor.py:170-193 | lines that name no configured host leave the machine as it was |
| LogMonitor.LinesOutcome | log_monitor.py:162-193 | the lines handled in order: no container is stopped and only the running set, markers and trace change; `LinesProbes` counts its `docker ps -a` commands and `InertLines` shows lines naming no configured host change nothing |
| LogMonitor.ProcessLines | log_monitor.py:162-193 | the loop leaves the machine as handling the lines in order does |
| LogMonitor.LinesOutcomeNext | log_monitor.py:162 | handling one more line is the prefix, then that line |
| LogMonitor.Chunk | log_monitor.py:156-160 | the text read is what follows the cursor when the file has grown, and nothing otherwise |
| LogMonitor.NextCursor | log_monitor.py:154-195 | the cursor never moves back; it becomes the size seen when the file has grown |
| LogMonitor.PollOutcome | log_monitor.py:153-201 | a failed `stat` keeps everything; otherwise the lines of the new text are handled and the cursor advances |
| LogMonitor.RunReadsEachByteOnce | log_monitor.py:150-195 | on a log that only grows, the polls together read every character written after start exactly once, in order |
| LogMonitor.ShrunkLogSkipsHead | log_monitor.py:154-195 | a log cut below the cursor is not read, and once it grows again its first `cursor` characters are skipped |
| LogMonitor.SplitRecordIsLost | log_monitor.py:154-178 | the record `"h"` of a configured host, cut after `"h` and read in two polls, leaves the machine untouched and the cursor at the end |
| LogMonitor.HalfRecord | log_monitor.py:160-173 | the first half of the record is one line that names no host |
| LogMonitor.TailRecord | log_monitor.py:160-173 | the second half of the record is one line that names no host |
| LogMonitor.WholeRecord | log_monitor.py:163-170 | the whole record names its host |
| LogMonitor.Monitor.constructor | log_monitor.py:150 | the cursor starts at the size of the log, so earlier content is never read |
| LogMonitor.Monitor.Step | log_monitor.py:152-201 | one pass of the loop takes the `PollOutcome` step on the machine and the cursor |
| LogMonitor.Launch | log_monitor.py:122-150 | the monitor is not started exactly when the registry raised or no domain names a container; otherwise it holds the projection and the log's size |
| InactivityMonitor.Containers | inactivity_monitor.py:58-63 | the containers of all services, none of them empty; `ContainerListMembers` and `ContainerListAt` give membership, order and duplicates |
| InactivityMonitor.ContainerOf | inactivity_monitor.py:59-63 | a service yields its `container` exactly when that value is present and truthy |
| InactivityMonitor.ContainerList | inactivity_monitor.py:58-63 | the list has at most one name per service, and no name is empty |
| InactivityMonitor.ContainerListPrefix | inactivity_monitor.py:58-63 | more services only add names at the end |
| InactivityMonitor.ContainerListAt | inactivity_monitor.py:58-63 | every service that names a container has its own place, after those of the services before it, so duplicates are kept |
| InactivityMonitor.ContainerListMembers | inactivity_monitor.py:58-63 | a name is listed exactly when some service names it as its container |
| InactivityMonitor.GetContainers | inactivity_monitor.py:48-66 | the containers of the loaded services, or `[]` when the registry raised |
| InactivityMonitor.CheckContainerRunning | inactivity_monitor.py:68-78 | `docker ps` is recorded; the result is missing exactly when the binary is, and otherwise says whether the container runs |
| InactivityMonitor.LastActivity | inactivity_monitor.py:80-92 | the marker's time exactly when the container has a marker |
| InactivityMonitor.StopContainer | inactivity_monitor.py:94-101 | the machine takes the `StopEffect` step; the exception escapes exactly when the binary is missing |
| InactivityMonitor.Idle | inactivity_monitor.py:124-131 | idle for at least the timeout: `now - last >= 60 * timeout` on whole seconds |
| InactivityMonitor.IdleInMinutes | inactivity_monitor.py:124-131 | the whole-second test agrees with `elapsed / 60 >= TIMEOUT_MINUTES` in exact arithmetic, boundary included |
| InactivityMonitor.Visit | inactivity_monitor.py:113-132 | the visit raises exactly when the binary is missing; only the running set, markers and trace change, and the running set only shrinks; a container that is not running is left alone; a running one without a marker gets one at now; a running one with a marker is stopped exactly when idle for at least the timeout |
| InactivityMonitor.VisitContainer | inactivity_monitor.py:113-132 | the method takes the `Visit` step |
| InactivityMonitor.Sweep | inactivity_monitor.py:113-132 | the loop over the listed containers, against one `now`, ending at an escaped exception; `SweepRaises`, `SweepNeverStarts`, `SweepKeepsMarkers`, `SweepSkipsStopped`, `SweepSeedsMarker`, `SweepStopsIdle` and `SweepStaysRaised` state its meaning |
| InactivityMonitor.SweepRaises | inactivity_monitor.py:109-143 | the cycle ends in an exception exactly when the binary is missing and the list is non-empty |
| InactivityMonitor.SweepNeverStarts | inactivity_monitor.py:113-132 | the cycle starts no container, and the trace only grows |
| InactivityMonitor.SweepKeepsMarkers | inactivity_monitor.py:116-122 | no marker is deleted or changed; every new marker carries now and belongs to a listed container |
| InactivityMonitor.SweepSkipsStopped | inactivity_monitor.py:114-115 | a container not running at the start of the cycle is never stopped and gets no marker |
| InactivityMonitor.SweepSeedsMarker | inactivity_monitor.py:118-122 | a running container without a marker gets one at now when listed, and is not stopped in that cycle |
| InactivityMonitor.VisitSeedsMarker | inactivity_monitor.py:118-122 | one visit keeps a running container whose marker carries now running, and seeds its marker when it is the one visited |
| InactivityMonitor.SweepStopsIdle | inactivity_monitor.py:124-132 | a running container with a marker is stopped exactly when listed and idle for at least the timeout; if it is not idle, it is still running |
| InactivityMonitor.VisitStopsIdle | inactivity_monitor.py:124-132 | one visit stops a container with a marker exactly when it is the one visited, running, and idle |
| InactivityMonitor.SweepStaysRaised | inactivity_monitor.py:137-143 | once an exception has ended the cycle, the remaining containers change nothing |
| InactivityMonitor.SweepCycle | inactivity_monitor.py:109-135 | one cycle leaves the registry's cache as the call left it, and the machine as the `Sweep` over the listed containers does |
| InactivityMonitor.RunSweep | inactivity_monitor.py:113-132 | the loop leaves the machine, and the escape flag, as `Sweep` does |

## Left out

- The Docker CLI is modelled by its effect on sets of names. The `name=^c$` filter is an exact name match; a name with regular-expression characters in it is not modelled.
- A Docker daemon that is down is treated as a runtime with no containers: `ps` prints nothing and `start`/`stop` fail. Only a missing `docker` binary raises.
- A `docker ps` that exits non-zero in `check_container_running` (the `CalledProcessError` branch at `inactivity_monitor.py:76-78`) behaves the same as "not running".
- The write of `current_domain.txt` (`log_monitor.py:57-62`) is not modelled; its failure is caught and changes nothing the monitors read.
- The environment and the YAML file are inputs. `os.environ` is a sequence of pairs. The parsed document is a `Document`, with every YAML scalar kept as a string. A non-mapping entry under a domain always makes `update` raise, although a list of pairs, an empty list or an empty string would not (the last two change nothing).
- The `VERBOSE_LOGGING` dump (`utils.py:47-50`), the `print` calls and every logger call are not modelled.
- Text.Lower: only ASCII letters are lowered; Python's full Unicode case mapping is not modelled.
- Text.Readlines: the file is read as characters, without decoding, and the cursor counts characters, not bytes. The universal-newline translation of `\r` and `\r\n` is not modelled.
- Time is whole seconds. An idle test of `(now - last) / 60 >= TIMEOUT_MINUTES` in floating point is `now - last >= 60 * timeout` on integers. `datetime` and the clock are a parameter `now`.
- Every marker touch is stamped with the `now` of the poll or cycle that makes it, not with the clock at the moment of the touch. This is why, with a timeout of zero or less, the model stops a container listed twice on its second visit, where the source's second visit would see an elapsed time of zero or less.
- Markers that cannot be read or written (`stat` or `touch` raising) are not modelled; the marker directory always exists (`inactivity_monitor.py:106`, `log_monitor.py:108`).
- `time.sleep`, the `while True` loops and the wait for the log file to exist (`log_monitor.py:142-145`) are not modelled. Each cycle or poll is one method call, and the log as a poll finds it is a parameter.
- The read of the log can see text appended after its `stat`. The model reads exactly the size the `stat` saw.
- The two monitors run as separate processes, each with its own registry cache. Their interleaving on the shared Docker and marker state is not modelled.
- InactivityMonitor.SweepSeedsMarker: requires a positive timeout. With a timeout of zero or less, a container listed twice is stopped on its second visit in the same cycle, as the marker seeded by the first visit is already old enough.
- InactivityMonitor.SweepCycle: the branch of `inactivity_monitor.py:137-143` that ends `main` is the returned flag; the `KeyboardInterrupt` branch is not modelled.
