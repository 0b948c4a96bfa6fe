# BlackPearl in Dafny

A model of the core of BlackPearl, a Python web-application server. An application server
supervises a uWSGI worker group and an nginx proxy. Webapps expose Python functions and class
methods as web modules, and the framework validates each request's parameters against the
handler's signature. The model covers the two generations of the server (`lib/BlackPearl`, and the
thread-based `lib/server`) and the earlier `darkchoco` framework (`lib/darkchoco/core` and
`darkchoco/core`).

Each Python module is one Dafny module of the same name, in the same form as the source:

- **Supervision.** `SupervisedProcess` (process.dfy) models the asyncio `Process`. Its status
  machine has guarded `start`, `stop` and `restart`, a listener list that is notified on every
  change, and the module-level registry of live processes. Each coroutine is a sequence of
  methods, one per resumption after a `yield from`. The operating system's answers are
  parameters: spawn success, exit code, whether `os.kill(pid, 0)` succeeds, and wait timeouts.
  `LegacyProcess` (legacy_process.dfy) models the thread-based `Process` of `lib/server`. There,
  the OS is an object that logs signals, probes and launches, and liveness is the oracle
  `alive(pid, k)`.
- **Orchestration.** `AppServer` (appserver.dfy) covers several parts:
  - the uWSGI app-set diff in `add_apps`;
  - the uWSGI ini text and the nginx location blocks;
  - the cross-monitor that maps the two services' statuses to the server's status;
  - `reload_code` and the code-change callback, with its in-flight guard.

  `LegacyAppServer` (legacy_appserver.dfy) covers the legacy server's start, stop, restart and
  `isrunning` cross-stop, and its nginx configuration.
- **Request handling.** `CoreUrls`, `CoreUtils`, `DataType`, `CoreDecorators`, `CoreHandlers` and
  `CoreWebapps` cover the following:
  - url normalisation and staging;
  - parameter validation and the annotation types;
  - the decorators' url composition and the arity gates;
  - the built-in web modules;
  - a webapp's initialisation, module registration (the first registration wins) and result codes.
- **Configuration, security, logging and prechecks.** `Configuration` merges a loaded
  configuration with the defaults and rejects unknown keys. `Security` holds the AES block
  padding of both security modules. `Logger` and `LegacyLogger` filter log messages by level and
  module. `Prechecks` is the Python version check.
- **Testing helpers.** `Testing` and `TestingRequests` cover the testset invoker's result codes,
  testset normalisation, `test`, input flattening and `testcase`.
- **The darkchoco framework.** `DarkchocoDataType`, `DarkchocoUtils` (including `parseCookie`),
  `DarkchocoUrls` (the staging and publishing url tables), `DarkchocoDecorators` and
  `DarkchocoWebapps`.

Shared modules model the Python built-ins the code relies on. Two parts of them have rows: `PySort`'s
lemmas, which state what `sorted` promises (sorted output, a permutation of the input), and `PyStr`'s
decimal digits, which decide what `int()` and `float()` accept:

- `Wrappers`: results and options standing for exceptions.
- `PyStr`: `split`, `join`, `strip`, `startswith`, `str(int)` and the Unicode decimal digits (`str.isdecimal`).
- `PyDict`: insertion-ordered dicts as sequences of pairs.
- `PySort`: string order and `sorted`.
- `PyValue`: generic Python values.
- `Seqs`: small facts about sequences.
- `Status`: the one status enum shared by processes, groups and the server.

Methods that change state are proved against specification functions. The properties the source
promises are lemmas about those functions: round trips, invariants kept, first or last
occurrence winning, and both directions of each if-and-only-if.

## Model

| member | source | states |
|---|---|---|
| SupervisedProcess.RemoveAll | lib/BlackPearl/server/core/process.py:33-36 | the result of deleting every occurrence of `x`: `x` is absent afterwards, nothing new is added and the list never grows |
| SupervisedProcess.RemoveAllAppend | lib/BlackPearl/server/core/process.py:33-36 | removing every occurrence distributes over concatenation, so registrations of other processes keep their order |
| SupervisedProcess.RemoveAllMultiset | lib/BlackPearl/server/core/process.py:33-36 | `delete_process` removes all and only the occurrences of the process: every other entry keeps its multiplicity |
| SupervisedProcess.RemoveAllAbsent | lib/BlackPearl/server/core/process.py:33-36 | deleting a process that is not registered leaves the registry unchanged |
| SupervisedProcess.Registry.constructor | lib/BlackPearl/server/core/process.py:26 | the registry starts empty |
| SupervisedProcess.Registry.Add | lib/BlackPearl/server/core/process.py:29-30 | `add_process` appends the process at the end |
| SupervisedProcess.Registry.Delete | lib/BlackPearl/server/core/process.py:33-36 | the descending index loop leaves exactly the registry with every occurrence of the process removed |
| SupervisedProcess.FalsyIndices | lib/BlackPearl/server/core/process.py:59-69 | `to_del` holds, in strictly ascending order, exactly the indices of the listeners that returned a falsy value; a raising listener is not among them |
| SupervisedProcess.KeptAllAbove | lib/BlackPearl/server/core/process.py:57-72 | with at most one falsy listener at index `k`, the listeners kept are all of them, or all but the one at `k` |
| SupervisedProcess.NoneFalsyKeepsAll | lib/BlackPearl/server/core/process.py:57-72 | when no listener returns a falsy value, notification keeps every listener and raises nothing |
| SupervisedProcess.OneFalsyDeletesIt | lib/BlackPearl/server/core/process.py:57-72 | when exactly one listener returns a falsy value, notification deletes exactly that listener and raises nothing |
| SupervisedProcess.DeleteOne | lib/BlackPearl/server/core/process.py:71-72 | deleting one index inside the list succeeds and removes exactly that listener |
| SupervisedProcess.CollectFalsy | lib/BlackPearl/server/core/process.py:59-69 | the calling loop collects, in ascending order, exactly the indices of the listeners that return a falsy value |
| SupervisedProcess.DeleteIndices | lib/BlackPearl/server/core/process.py:71-72 | the deleting loop removes each collected index in turn from the shrinking list, and fails exactly at the first index past its end |
| SupervisedProcess.NotifySingleDeletionExact | lib/BlackPearl/server/core/process.py:57-72 | with at most one falsy listener, `_set_status` deletes exactly the falsy listeners |
| SupervisedProcess.NotifyDeletionShift | lib/BlackPearl/server/core/process.py:71-72 | ascending `del` shifts indices: with listeners falsy, falsy, truthy the first and the truthy third are deleted and the falsy second stays |
| SupervisedProcess.NotifyDeletionOverrun | lib/BlackPearl/server/core/process.py:71-72 | with two falsy listeners the second `del` is past the end: the first listener is deleted and IndexError is raised |
| SupervisedProcess.Process.constructor | lib/BlackPearl/server/core/process.py:40-51 | a new process has no handle, status NOTSTARTED, its stop event clear, no listeners and the given environment |
| SupervisedProcess.Process.AddStatusListener | lib/BlackPearl/server/core/process.py:74-75 | the listener is appended without any check |
| SupervisedProcess.Process.SetStatus | lib/BlackPearl/server/core/process.py:57-72 | the status is stored first; the listener list and whether a deletion raised are those of notifying the old list |
| SupervisedProcess.Process.FailStart | lib/BlackPearl/server/core/process.py:110-117 | the exception path ends in STARTFAILED with the stop event set and every registration of the process removed |
| SupervisedProcess.Process.StartBegin | lib/BlackPearl/server/core/process.py:78-92 | outside NOTSTARTED, STOPPED, TERMINATED, STARTFAILED and RESTARTING `start` raises InvalidState and changes nothing; otherwise it registers the process, sets STARTING and clears the stop event, or fails into STARTFAILED when a listener deletion raises |
| SupervisedProcess.Process.OnSpawned | lib/BlackPearl/server/core/process.py:92-117 | a failed spawn ends in STARTFAILED and deregistration with handle and pid untouched; a successful one stores the pid and sets STARTED |
| SupervisedProcess.Process.OnExited | lib/BlackPearl/server/core/process.py:99-117 | exit code 0 gives STOPPED and any other TERMINATED, except that RESTARTING is kept; the stop event is set and the process deregistered in every case |
| SupervisedProcess.Process.IsRunning | lib/BlackPearl/server/core/process.py:131-148 | true during STOPPING; NotRestartedYet while RESTARTING and NotStartedYet while NOTSTARTED; otherwise whether the process has a handle with a pid and is alive |
| SupervisedProcess.Process.Kill | lib/BlackPearl/server/core/process.py:198-204 | SIGKILL is sent exactly when the process is alive, and the result says whether it was |
| SupervisedProcess.Process.SendSignal | lib/BlackPearl/server/core/process.py:206-212 | the given signal is sent exactly when the process is alive, and the result says whether it was |
| SupervisedProcess.Process.StopBegin | lib/BlackPearl/server/core/process.py:158-176 | outside STARTED and RESTARTING `stop` raises InvalidState and does nothing; from STARTED it sets STOPPING, and when a listener deletion raises, `stop` raises ListenerIndexError with no signal sent; RESTARTING is kept; it returns False without a signal when not alive, and otherwise sends SIGINT and waits |
| SupervisedProcess.Process.StopAfterWait | lib/BlackPearl/server/core/process.py:152-172 | a wait timeout propagates without a signal; otherwise `stop` returns True and sends SIGKILL exactly when the process is still alive after the wait and at the kill |
| SupervisedProcess.Process.Terminate | lib/BlackPearl/server/core/process.py:179-196 | only STARTED may be terminated; it sets STOPPING, returns False when not alive, and otherwise sends SIGTERM and then raises, because `_is_stopped` lacks its timeout argument |
| SupervisedProcess.Process.RestartBegin | lib/BlackPearl/server/core/process.py:120-167 | `restart` sets RESTARTING and runs the first half of `stop`: no signal when not alive, otherwise SIGINT and a wait |
| SupervisedProcess.Process.RestartStart | lib/BlackPearl/server/core/process.py:78-124 | the `start` after the inner `stop` never raises InvalidState, because the status is still RESTARTING; it re-registers the process with STARTING and a clear stop event, or, when a listener deletion raises, ends in STARTFAILED with the stop event set and the process deregistered |
| AppServer.Ids | lib/BlackPearl/server/appserver.py:158-159 | the id list of a webapp list, position by position |
| AppServer.AddCalls | lib/BlackPearl/server/appserver.py:174-193 | `_add_apps` registers one worker per webapp, in list order, each with that webapp's command and environment |
| AppServer.RemoveCalls | lib/BlackPearl/server/appserver.py:164-167 | one `remove_process` per vanished webapp, in order, naming its worker |
| AppServer.SelectById | lib/BlackPearl/server/appserver.py:162-163 | the list comprehension keeps exactly the webapps whose id is (or is not) in the given id list |
| AppServer.IdsMember | lib/BlackPearl/server/appserver.py:158-159 | an id is in the id list exactly when some webapp of the list carries it |
| AppServer.AddAppsDiff | lib/BlackPearl/server/appserver.py:157-172 | `add_apps` starts exactly the incoming webapps whose id was not deployed and stops exactly the deployed ones whose id is not incoming; an id present on both sides is neither started nor stopped |
| AppServer.KeysTail | lib/BlackPearl/server/appserver.py:204-208 | the keys of an option dictionary are its first key followed by the keys of the rest |
| AppServer.UniqueTail | lib/BlackPearl/server/appserver.py:204-208 | the rest of a dictionary with distinct keys has distinct keys and lacks the first key |
| AppServer.UserOptionsGet | lib/BlackPearl/server/appserver.py:203-208 | the user options kept are exactly those whose key is not immutable, each with its value as text, and they keep distinct keys |
| AppServer.WorkerEntryValue | lib/BlackPearl/server/appserver.py:210-225 | in a worker's ini entries a user option overrides the default of the same key unless the key is immutable; every other key has its default value |
| AppServer.LogtoIsOverridable | lib/BlackPearl/server/appserver.py:134-136 | the immutable list names `log-to` while the entry is `logto`, so a user `logto` overrides the default; the socket always stays the webapp's own |
| AppServer.IniLines | lib/BlackPearl/server/appserver.py:226 | one `key = value` line per entry, in the dictionary's order |
| AppServer.IniHeaderOneLine | lib/BlackPearl/server/appserver.py:227 | the `[uwsgi]` header holds no line break |
| AppServer.NoNewlineInLine | lib/BlackPearl/server/appserver.py:226 | a line built from keys and values without line breaks has none |
| AppServer.IniLinesLackNewline | lib/BlackPearl/server/appserver.py:226 | no ini line breaks when no key or value does |
| AppServer.IniTextLines | lib/BlackPearl/server/appserver.py:226-230 | splitting the written ini text at line breaks gives back the header and then the entry lines |
| AppServer.HeadedSplitJoin | lib/BlackPearl/server/appserver.py:227-230 | joining a header and lines with a separator they do not contain and splitting again gives them back |
| AppServer.IniFiles | lib/BlackPearl/server/appserver.py:210-230 | one ini file per deployed webapp, in order, each written for the same virtualenv and cpu count |
| AppServer.Uwsgi.constructor | lib/BlackPearl/server/appserver.py:138-154 | a new group has registered one worker per webapp and then adopted the list; no ini file is written yet |
| AppServer.Uwsgi.AddWorkers | lib/BlackPearl/server/appserver.py:174-193 | the loop appends exactly the registrations of `AddCalls` |
| AppServer.Uwsgi.GenerateConfFile | lib/BlackPearl/server/appserver.py:195-230 | the loop writes exactly one ini file per deployed webapp, in order |
| AppServer.Uwsgi.AddApps | lib/BlackPearl/server/appserver.py:157-172 | the vanished workers are removed, the new list adopted, and when some webapp is new every ini file is rewritten and the new workers started |
| AppServer.Uwsgi.RemoveWorkers | lib/BlackPearl/server/appserver.py:164-167 | the loop removes exactly the workers of the given webapps, in order |
| AppServer.Uwsgi.ReloadConf | lib/BlackPearl/server/appserver.py:232-233 | SIGHUP is sent to the whole group |
| AppServer.LocationsAppend | lib/BlackPearl/server/appserver.py:266-287 | both location lists are built webapp by webapp, so they distribute over concatenation of the webapp list |
| AppServer.PrefixedAppend | lib/BlackPearl/server/appserver.py:266-287 | the `locations` list of a concatenation is the concatenation of the two lists |
| AppServer.RootAppend | lib/BlackPearl/server/appserver.py:266-287 | the `root_location` list of a concatenation is the concatenation of the two lists |
| AppServer.LocationsCount | lib/BlackPearl/server/appserver.py:266-287 | every webapp contributes exactly two locations, to one list or the other |
| AppServer.LocationsOf | lib/BlackPearl/server/appserver.py:266-287 | a webapp contributes its pair at its own position, after the pairs of the webapps before it: to the prefixed list when its prefix is longer than one character, to the root list otherwise |
| AppServer.PrefixedSingle | lib/BlackPearl/server/appserver.py:266-287 | a lone webapp has a `locations` pair exactly when its prefix is longer than one character |
| AppServer.RootSingle | lib/BlackPearl/server/appserver.py:266-287 | a lone webapp has a `root_location` pair exactly when its prefix is not longer than one character |
| AppServer.RenderLocationsAppend | lib/BlackPearl/server/appserver.py:317-327 | rendering location blocks distributes over concatenation |
| AppServer.RenderLocationsPair | lib/BlackPearl/server/appserver.py:317-327 | a webapp's pair of locations renders as its two `location ~` blocks, first then second |
| AppServer.RenderPassesAppend | lib/BlackPearl/server/appserver.py:329-333 | rendering the `uwsgi_pass` blocks distributes over concatenation of the webapp list |
| AppServer.RenderPassesSingle | lib/BlackPearl/server/appserver.py:329-333 | a lone webapp renders as one block passing its prefix to its socket |
| AppServer.NginxConfPrefixed | lib/BlackPearl/server/appserver.py:266-335 | in the nginx text, a webapp with a prefix longer than one character has its two static blocks side by side among the prefixed blocks, after those of the earlier prefixed webapps and before the later ones, the root blocks and the `uwsgi_pass` blocks |
| AppServer.NginxConfRoot | lib/BlackPearl/server/appserver.py:266-335 | any other webapp has its two static blocks side by side among the root blocks, after every prefixed block and the earlier root blocks, before the later ones and the `uwsgi_pass` blocks |
| AppServer.NginxConfPass | lib/BlackPearl/server/appserver.py:312-335 | every webapp has its `uwsgi_pass` block at its own position in the list, after all static blocks and before the closing braces |
| AppServer.CrossMonitorStopsPartner | lib/BlackPearl/server/appserver.py:556-562 | a service reaching STOPPED, TERMINATED or STARTFAILED stops its partner exactly when the partner is still up and the server is not stopping, and then the server status is unchanged |
| AppServer.CrossMonitorSettles | lib/BlackPearl/server/appserver.py:556-594 | once both services are down the server becomes STOPPED when it was stopping and TERMINATED from NOTSTARTED, RESTARTING or STARTED; both services STARTED give STARTED; other reports change nothing |
| AppServer.CrossMonitorTargets | lib/BlackPearl/server/appserver.py:556-594 | the callback only ever sets STARTED, STOPPED or TERMINATED |
| AppServer.ShutdownSettlesStopped | lib/BlackPearl/server/appserver.py:556-575 | during a shutdown the first service to stop changes nothing and the second one settles the server in STOPPED |
| AppServer.UnexpectedExitTerminates | lib/BlackPearl/server/appserver.py:556-578 | a service dying while the server runs stops its partner, and the partner's exit then marks the server TERMINATED |
| AppServer.MatchesMember | lib/BlackPearl/server/appserver.py:521-524 | a webapp is appended once for each modified file under its location |
| AppServer.ModifiedListMember | lib/BlackPearl/server/appserver.py:520-525 | the modified webapps are exactly the discovered ones with some modified file starting with their location |
| AppServer.WithSockets | lib/BlackPearl/server/appserver.py:375-376 | each webapp gets the socket `<run>/uwsgi/<id>.socket` and nothing else changes |
| AppServer.Server.constructor | lib/BlackPearl/server/appserver.py:348-362 | a new server is NOTSTARTED, not reloading, with no modified files recorded |
| AppServer.Server.Start | lib/BlackPearl/server/appserver.py:425-447 | `start` launches uWSGI and then nginx |
| AppServer.Server.Stop | lib/BlackPearl/server/appserver.py:450-467 | `stop` sets STOPPING and stops uWSGI and nginx |
| AppServer.Server.Restart | lib/BlackPearl/server/appserver.py:470-487 | `restart` sets RESTARTING and restarts uWSGI and nginx |
| AppServer.Server.ReloadConf | lib/BlackPearl/server/appserver.py:496-498 | SIGHUP goes to the uWSGI group and to nginx |
| AppServer.Server.ServiceStatusUpdate | lib/BlackPearl/server/appserver.py:544-594 | the callback keeps its registration, sets the server status the cross-monitoring rule decides, and stops the partner exactly when that rule says so |
| AppServer.Server.CodeUpdate | lib/BlackPearl/server/appserver.py:596-600 | a directory or `.py` path is recorded, and a reload is scheduled unless one is running; any other path is ignored |
| AppServer.Server.ReloadCodeBegin | lib/BlackPearl/server/appserver.py:503-507 | a reload while one is running raises CodeReloadInProgress; otherwise the reload flag is set |
| AppServer.Server.SelectModified | lib/BlackPearl/server/appserver.py:520-525 | the set of modified webapps is built by the nested loop |
| AppServer.Server.ReloadCodeResume | lib/BlackPearl/server/appserver.py:508-542 | outside STARTED nothing is done; with no webapp found only the watch paths are updated; otherwise sockets, nginx text, reload markers, the uWSGI redeploy and SIGHUP to nginx follow in order; the flag is cleared in every case |
| AppServer.Server.Redeploy | lib/BlackPearl/server/appserver.py:520-537 | the redeploy branch in order: nginx text, reload markers for the modified webapps, uWSGI `add_apps`, SIGHUP to nginx |
| AppServer.NewServer | lib/BlackPearl/server/appserver.py:366-395 | no discovered webapp raises NoApplicationDeployed; otherwise the webapps get sockets, the uWSGI group is built and writes its ini files, and the nginx text is generated |
| AppServer.Assemble | lib/BlackPearl/server/appserver.py:375-395 | the server built for the socketed webapps, with the uWSGI group's registrations, its ini files and the nginx text |
| AppServer.NewGroup | lib/BlackPearl/server/appserver.py:383-389 | a fresh uWSGI group that registered the workers and wrote the ini files |
| LegacyProcess.Registry.constructor | lib/server/core/process.py:12 | the module-level process list starts empty |
| LegacyProcess.Registry.Add | lib/server/core/process.py:15-17 | `add_process` appends the process at the end of the list |
| LegacyProcess.Registry.Delete | lib/server/core/process.py:19-24 | the backward loop deletes every entry equal to the process and keeps all others in order |
| LegacyProcess.RunLeavesRegistry | lib/server/core/process.py:40-63 | a worker thread that registers itself and deletes itself in `finally` leaves the list as it found it, minus that process, and never listed afterwards |
| LegacyProcess.Probe | lib/server/core/process.py:70-77 | `_isrunning` raises NotStartedYet exactly when there is no pid; otherwise it answers whether signal 0 reaches the pid at that probe |
| LegacyProcess.PollSpec | lib/server/core/process.py:79-87 | `_isstopped` with a pid never raises, probes at most `sig_timeout` times, answers True exactly when some probe within the first `sig_timeout` finds the process gone (the last probe made is the first such one) and answers False after exactly `sig_timeout` probes otherwise |
| LegacyProcess.PollWithoutPid | lib/server/core/process.py:79-87 | without a pid `_isstopped` answers False for a non-positive timeout and raises NotStartedYet otherwise, probing nothing |
| LegacyProcess.SignalSpec | lib/server/core/process.py:113-127 | `kill` and `send_signal` raise NotStartedYet without a pid; otherwise they answer whether the process was running and send the signal exactly then |
| LegacyProcess.StopSpec | lib/server/core/process.py:89-111 | `stop` and `terminate` on a stopped process answer False and send nothing; on a running one they send the signal, answer True, and send SIGKILL as well exactly when the process survived every poll and is still running at the kill's probe |
| LegacyProcess.StopWithoutPid | lib/server/core/process.py:89-111 | without a pid `stop` and `terminate` raise NotStartedYet and send nothing |
| LegacyProcess.Process.constructor | lib/server/core/process.py:28-33 | a new process has no pid and is NOTSTARTED, keeping its name, command and signal timeout |
| LegacyProcess.Process.Start | lib/server/core/process.py:38-65 | `start` launches one thread running the process body |
| LegacyProcess.Process.Run | lib/server/core/process.py:39-63 | the thread body fails exactly when the spawn fails, then leaving pid and status alone; otherwise it records the pid and sets TERMINATED for a non-zero exit code and STOPPED for zero; either way the registry loses the process |
| LegacyProcess.Process.IsRunning | lib/server/core/process.py:67-77 | `isrunning` answers `Probe` and probes once exactly when there is a pid |
| LegacyProcess.Process.IsStopped | lib/server/core/process.py:79-87 | the polling loop computes `Poll` for the process's timeout |
| LegacyProcess.Process.Kill | lib/server/core/process.py:113-119 | `kill` has the outcome `SignalSpec` describes for SIGKILL |
| LegacyProcess.Process.SendSignal | lib/server/core/process.py:121-127 | `send_signal` has the outcome `SignalSpec` describes for the given signal |
| LegacyProcess.Process.StopWith | lib/server/core/process.py:89-111 | the shared body of `stop` and `terminate` has the outcome `StopSpec` describes |
| LegacyProcess.Process.Stop | lib/server/core/process.py:89-99 | `stop` is that outcome for SIGINT |
| LegacyProcess.Process.Terminate | lib/server/core/process.py:101-111 | `terminate` is that outcome for SIGTERM |
| LegacyAppServer.PrefixedLocationsAppend | lib/server/appserver.py:106-119 | the loop adds locations webapp by webapp, so the prefixed locations of two lists concatenate |
| LegacyAppServer.PrefixedLocationsFrom | lib/server/appserver.py:106-113 | a location is listed exactly when some webapp with a non-empty URL prefix produced it, and there are at most as many as webapps |
| LegacyAppServer.RootLocationIsLast | lib/server/appserver.py:114-119 | there is no root location exactly when every webapp has a prefix; otherwise it is the one of the last webapp without a prefix, each later root assignment overwriting the earlier |
| LegacyAppServer.GenerateStep | lib/server/appserver.py:106-119 | one loop iteration appends a prefixed webapp's location, or replaces the root location with an unprefixed webapp's |
| LegacyAppServer.NoColonIsSocket | lib/server/appserver.py:138-141 | an application bind without a colon fails the host-and-port pattern and becomes a `unix://` socket |
| LegacyAppServer.DottedHostKept | lib/server/appserver.py:138-141 | a bind of four dot-separated parts, a colon and a port is used unchanged |
| LegacyAppServer.NoDotIsSocket | lib/server/appserver.py:138-141 | a bind without dots, such as `localhost:3031`, also becomes a `unix://` socket |
| LegacyAppServer.LocationsTextAppend | lib/server/appserver.py:151-155 | rendering location blocks distributes over concatenation |
| LegacyAppServer.RenderedInListOrder | lib/server/appserver.py:121-169 | the written text is the header, the prefixed locations of the webapps in list order, the root location if any, and the catch-all block |
| LegacyAppServer.AddLocations | lib/server/appserver.py:106-119 | the loop appends exactly `PrefixedLocations` and leaves the last unprefixed webapp's location as the root, or the old root when there is none |
| LegacyAppServer.Nginx.constructor | lib/server/appserver.py:84-98 | a new Nginx service has generated its configuration for the given webapps and is an unstarted process named "Nginx Service" running nginx on the temporary configuration file |
| LegacyAppServer.Nginx.GenerateConfFile | lib/server/appserver.py:103-173 | a call adds the prefixed locations to those already held, updates the root location as the loop does, and writes the text rendered from the new state |
| LegacyAppServer.CrossCheckRunning | lib/server/appserver.py:212-225 | `isrunning` answers True exactly when both services have a pid and the uWSGI probe and then the nginx probe find them running, and then sends nothing; an unstarted uWSGI raises NotStartedYet before anything is sent |
| LegacyAppServer.SteadyStopOutcome | lib/server/core/process.py:89-99 | `stop` on a process whose liveness never changes answers whether it was running and sends SIGINT then SIGKILL exactly when it was |
| LegacyAppServer.CrossCheckSteady | lib/server/appserver.py:212-225 | with steady liveness `isrunning` answers whether both run; when exactly one runs it is stopped and nothing else is sent |
| LegacyAppServer.StopPairSteady | lib/server/appserver.py:185-187 | `stop` with steady liveness stops nginx first and then uWSGI, each one's signals sent only when it runs |
| LegacyAppServer.StopPairUnstarted | lib/server/appserver.py:185-187 | when nginx has no pid `stop` raises NotStartedYet and uWSGI is not touched |
| LegacyAppServer.AppServer.constructor | lib/server/appserver.py:177-179 | the server builds an unstarted "uWsgi Service" with the uWSGI command line and an Nginx service that has written its configuration |
| LegacyAppServer.AppServer.Start | lib/server/appserver.py:181-183 | `start` launches the uWSGI thread and then the nginx one |
| LegacyAppServer.AppServer.Stop | lib/server/appserver.py:185-187 | `stop` stops nginx and then uWSGI, an error from the first skipping the second |
| LegacyAppServer.AppServer.Restart | lib/server/appserver.py:193-195 | `restart` stops both and starts both again unless stopping raised |
| LegacyAppServer.AppServer.StopSurvivorOf | lib/server/appserver.py:214-223 | the else-branch of `isrunning`: re-probe uWSGI and stop it if running, else probe nginx and stop it if running |
| LegacyAppServer.AppServer.IsRunning | lib/server/appserver.py:212-225 | `isrunning` has the outcome `CrossCheck` describes |
| Configuration.FirstUnknown | lib/BlackPearl/common/configuration.py:60-62 | the key the check loop raises on is the first key not among the allowed names, and there is none exactly when every key is allowed |
| Configuration.CheckKeys | lib/BlackPearl/common/configuration.py:60-62 | the loop over the keys stops at exactly that first unknown key |
| Configuration.AbsoluteShape | lib/BlackPearl/common/configuration.py:79-81 | a path starting with `/` is kept; any other is joined under the working directory, so it starts with it and ends with the path |
| Configuration.AbsoluteWebappsEntries | lib/BlackPearl/common/configuration.py:82-88 | the webapps loop succeeds exactly when every entry is a string and then gives one absolute path per entry, in order |
| Configuration.LoadedConfig.constructor | lib/BlackPearl/common/configuration.py:147-149 | the loaded dict is held as it was parsed |
| Configuration.LoadedConfig.ValidateAndUpdate | lib/BlackPearl/common/configuration.py:57-144 | the dict left in place and the exception raised are those of `Validated`, step by step |
| Configuration.UpdatePath | lib/BlackPearl/common/configuration.py:64-89 | the `path` step computes `PathStep` |
| Configuration.WebappsList | lib/BlackPearl/common/configuration.py:82-88 | the loop builds `AbsoluteWebapps` |
| Configuration.PrependedNone | lib/BlackPearl/common/configuration.py:82-88 | loop bookkeeping: nothing collected yet leaves the rest's result as it is |
| Configuration.PrependedStep | lib/BlackPearl/common/configuration.py:82-88 | loop bookkeeping: moving one entry from the rest to the collected list keeps the result |
| Configuration.UpdateServer | lib/BlackPearl/common/configuration.py:91-103 | the `server` step computes `ServerStep` |
| Configuration.UnknownCategoryRefused | lib/BlackPearl/common/configuration.py:58-62 | a top-level key outside the six categories raises an unknown-category error before anything is changed |
| Configuration.MissingServerFilled | lib/BlackPearl/common/configuration.py:92-95 | a missing `server` category becomes a copy of the defaults |
| Configuration.ServerMerged | lib/BlackPearl/common/configuration.py:96-103 | a present `server` category is refused exactly when it has a key other than `nginx` and `uwsgi`; otherwise each key has the loaded value when present and the default otherwise |
| Configuration.MissingPathFilled | lib/BlackPearl/common/configuration.py:65-68 | a missing `path` category becomes a copy of the defaults, not made absolute |
| Configuration.DefaultWebappsOneString | lib/BlackPearl/common/configuration.py:28-31 | the default `webapps` list holds a single string, the two literals run together |
| Configuration.MergedPathKeys | lib/BlackPearl/common/configuration.py:74-75 | after the merge all five path names are present |
| Configuration.DefaultPathKeys | lib/BlackPearl/common/configuration.py:26-33 | the default path section names all five path entries |
| Configuration.AbsoluteEntryEffect | lib/BlackPearl/common/configuration.py:79-81 | making one entry absolute succeeds exactly when it is a string, and changes that entry alone |
| Configuration.AbsoluteEntriesEffect | lib/BlackPearl/common/configuration.py:79-81 | the `lib`, `share`, `run`, `log` loop succeeds exactly when each is a string; the named entries become absolute and every other key is unchanged |
| Configuration.DirNamesFacts | lib/BlackPearl/common/configuration.py:64-79 | the four directory names are distinct path names other than `webapps` |
| Configuration.PathDirsAbsolutised | lib/BlackPearl/common/configuration.py:74-89 | after a successful `path` step each directory entry is the merged value made absolute |
| Configuration.PathSectionIs | lib/BlackPearl/common/configuration.py:74-89 | the `path` section is the merged section with absolute directories and then the rebuilt `webapps` list |
| Configuration.PathWebappsAbsolutised | lib/BlackPearl/common/configuration.py:82-88 | after a successful `path` step every `webapps` entry is a string, absolute whenever the working directory is |
| Configuration.AllAllowed | lib/BlackPearl/common/configuration.py:70-72 | keys that are all allowed pass the check |
| Configuration.DefaultSecurityGets | lib/BlackPearl/common/configuration.py:45-48 | the security defaults are `auto_generate_key` true and `block_size` 16, with no key |
| Configuration.SecurityKey | lib/BlackPearl/common/configuration.py:105-125 | with a truthy `auto_generate_key` (loaded or default) the stored section gets a key generated from the block size; without it a missing key raises and a present key is kept |
| Configuration.NoSecurityNoKey | lib/BlackPearl/common/configuration.py:106-109 | a missing `security` category is filled with the defaults and no key is generated for it |
| Configuration.UwsgiUnchecked | lib/BlackPearl/common/configuration.py:137-144 | `uwsgi_options` is merged over its defaults without any key check |
| Configuration.CompletedHasCategories | lib/BlackPearl/common/configuration.py:57-144 | a validation that raises nothing leaves every one of the six categories present |
| Configuration.CategoryCases | lib/BlackPearl/common/configuration.py:58 | the six category names |
| Configuration.StepsKeep | lib/BlackPearl/common/configuration.py:64-144 | every category is present after the last step when all steps succeed |
| Configuration.PathStepKeeps | lib/BlackPearl/common/configuration.py:64-89 | the `path` step sets `path` and keeps every key that was present |
| Configuration.PutKeeps | lib/BlackPearl/common/configuration.py:68 | a dict assignment sets its key and keeps the others present |
| Configuration.ServerStepKeeps | lib/BlackPearl/common/configuration.py:91-103 | the `server` step sets `server` and keeps every key that was present |
| Configuration.SecurityStepKeeps | lib/BlackPearl/common/configuration.py:105-125 | the `security` step sets `security` and keeps every key that was present |
| Configuration.FillKeeps | lib/BlackPearl/common/configuration.py:127-135 | the `hostname` and `listen` fills set their key and keep the others present |
| Configuration.UwsgiStepKeeps | lib/BlackPearl/common/configuration.py:137-144 | the `uwsgi_options` step sets it and keeps every key that was present |
| PyStr.ZeroFrom | lib/BlackPearl/core/datatype.py:81-110 | the decimal digits `int()` and `float()` read are the 68 runs of ten Unicode 15.0 category Nd code points; a code point found by the search lies in the run whose zero is returned |
| PyStr.DigitZero | lib/BlackPearl/core/datatype.py:81-110 | the zero of a decimal digit's run, the ASCII run tested first; a digit lies in the run of the zero returned |
| PyStr.DigitZeroSearches | lib/BlackPearl/core/datatype.py:81-110 | testing the ASCII run first agrees with searching the whole table, for every code point |
| PyStr.ZeroFromClear | lib/BlackPearl/core/datatype.py:81-110 | no run holds whitespace or an ASCII character other than `0`-`9` |
| PyStr.DigitIsNoOther | lib/BlackPearl/core/datatype.py:81-110 | no decimal digit is whitespace, a sign, a point, an underscore or an ASCII letter, so these still end a number's digits |
| PyStr.DigitValue | lib/BlackPearl/core/datatype.py:81-110 | a decimal digit's value is its distance from its run's zero, below ten |
| DataType.DigitRun | lib/BlackPearl/core/datatype.py:107 | the length of a number's digits at a position: decimal digits of any script and single underscores each followed by a digit, starting and ending with a digit, stopped by the end or a character that does not go on with them |
| DataType.SignLength | lib/BlackPearl/core/datatype.py:107 | an optional leading sign takes at most one character |
| DataType.Lower | lib/BlackPearl/core/datatype.py:84 | lower-casing keeps the length |
| DataType.IsValid | lib/BlackPearl/core/datatype.py:21-28 | `isvalid` raises exactly for an object that is not a data type and otherwise answers its validity check |
| DataType.Parse | lib/BlackPearl/core/datatype.py:31-38 | an uploaded file under a non-file type is refused first; the parse succeeds exactly when that does not apply and the value is valid; a non-type is refused by name |
| DataType.TypeParsesToInput | lib/BlackPearl/core/datatype.py:41-47 | the base type accepts any field that is not a file and returns it as given |
| DataType.FileParse | lib/BlackPearl/core/datatype.py:55-67 | `File` accepts exactly a field carrying a file and returns its file, name and content type |
| DataType.OptionsParse | lib/BlackPearl/core/datatype.py:169-179 | `Options` accepts exactly a value among its strings and returns it |
| DataType.DigitsValueOfNatToString | lib/BlackPearl/core/datatype.py:107 | the decimal text of a number is all digits and reads back as that number |
| DataType.DigitRunAll | lib/BlackPearl/core/datatype.py:107 | a digit run from a position of an all-digit tail reaches the end |
| DataType.DigitRunStops | lib/BlackPearl/core/datatype.py:107 | the digits stop at the first character that is neither a decimal digit nor an underscore before one |
| DataType.NatTextDigits | lib/BlackPearl/core/datatype.py:107 | a number's decimal text is a non-empty digit string of that value |
| DataType.DigitsPlain | lib/BlackPearl/core/datatype.py:107 | a digit string has no surrounding space, no sign, and is one digit run |
| DataType.DigitsIntText | lib/BlackPearl/core/datatype.py:104-113 | `int()` accepts a digit string and reads its value |
| DataType.NegDigitsIntText | lib/BlackPearl/core/datatype.py:104-113 | `int()` accepts a minus sign followed by digits and reads the negated value |
| DataType.IntegerAcceptsDecimal | lib/BlackPearl/core/datatype.py:104-113 | `Integer` accepts the decimal text of every integer and parses it back to that integer |
| DataType.MoreDigits | lib/BlackPearl/core/datatype.py:107 | after the first digit the number goes on through digits and single underscores before digits, ending with a digit where nothing goes on |
| DataType.MoreDigitsStops | lib/BlackPearl/core/datatype.py:107 | digits up to a position that does not go on end the number there |
| DataType.MoreDigitsToEnd | lib/BlackPearl/core/datatype.py:107 | digits and underscores each followed by a digit reach the end of the text |
| DataType.DigitsValueSkipsUnderscore | lib/BlackPearl/core/datatype.py:107 | an underscore between digits adds nothing to the value |
| DataType.UnderscoreSkipped | lib/BlackPearl/core/datatype.py:104-113 | `int()` accepts one underscore between two digit strings and reads the value without it |
| DataType.MixedScriptDigits | lib/BlackPearl/core/datatype.py:104-113 | `int()` reads decimal digits of other scripts, mixed with ASCII ones: `int("1٣")` is 13 |
| DataType.DoubleUnderscoreRefused | lib/BlackPearl/core/datatype.py:104-110 | two underscores in a row end the digits, so `int("1__0")` fails |
| DataType.DigitsThenOtherNotInt | lib/BlackPearl/core/datatype.py:104-110 | digits followed by text that does not go on with them (no decimal digit, no underscore before one) and that does not end in space are refused by `int()` |
| DataType.IntegerRejectsLetters | lib/BlackPearl/core/datatype.py:104-110 | `Integer` refuses a number followed by `sd` |
| DataType.IntegerRejectsFraction | lib/BlackPearl/core/datatype.py:104-110 | `Integer` refuses a number with a fraction such as `.01` |
| DataType.DigitLedNotWord | lib/BlackPearl/core/datatype.py:84 | text led by a digit is none of the words `float()` accepts |
| DataType.DigitsFloatText | lib/BlackPearl/core/datatype.py:81-87 | `Float` accepts a digit string |
| DataType.PointDigitsFloatText | lib/BlackPearl/core/datatype.py:81-87 | `Float` accepts digits, a point and digits |
| DataType.DigitsThenLettersNotFloat | lib/BlackPearl/core/datatype.py:81-87 | digits followed by text that does not go on with them, starts no fraction or exponent and does not end in space are refused by `float()` |
| DataType.FloatAcceptsInteger | lib/BlackPearl/core/datatype.py:81-87 | `Float` accepts an integer's text |
| DataType.FloatAcceptsFraction | lib/BlackPearl/core/datatype.py:81-87 | `Float` accepts a number followed by `.34` |
| DataType.FloatRejectsLetters | lib/BlackPearl/core/datatype.py:81-87 | `Float` refuses a number followed by `sd` |
| DataType.OptionValues | lib/BlackPearl/core/datatype.py:163-167 | each option is kept as its `str()`, in order |
| DataType.NewOptions | lib/BlackPearl/core/datatype.py:163-167 | the constructor loop builds exactly that list |
| DataType.OptionsListAsWritten | lib/BlackPearl/core/datatype.py:189-190 | `OptionsList` passes its argument tuple as ONE value, so its only option is the tuple's text |
| DataType.OptionsListOf | lib/BlackPearl/core/datatype.py:189-190 | the intended `OptionsList`: one option per argument, as `Options` does |
| DataType.OptionsListRejectsItsMembers | lib/BlackPearl/core/datatype.py:188-190 | `OptionsList("Male", "Female")` as written refuses `Male`, which the intended one accepts |
| CoreDecorators.Webname | lib/BlackPearl/core/decorators.py:48-59 | `webname` refuses exactly a non-string parameter and otherwise attaches that string |
| CoreDecorators.MethodUrlShape | lib/BlackPearl/core/decorators.py:87-91 | a method's URL starts with the location; an empty webname gives the location itself; otherwise the URL ends with `/` and the webname, the slash added exactly when the location does not already end with one |
| CoreDecorators.ClassWebModulesStep | lib/BlackPearl/core/decorators.py:75-98 | one loop iteration appends an entry exactly for a method with a webname or for `__call__`, and skips the others |
| CoreDecorators.CollectWebModules | lib/BlackPearl/core/decorators.py:74-99 | the loop over the class's methods builds exactly `ClassWebModules` |
| CoreDecorators.ClassWebModulesCovers | lib/BlackPearl/core/decorators.py:75-98 | every exposed method has its entry among the web modules |
| CoreDecorators.ClassWebModulesOnly | lib/BlackPearl/core/decorators.py:75-98 | every web module is the entry of some exposed method |
| CoreDecorators.WebLocation | lib/BlackPearl/core/decorators.py:63-115 | a non-string location is refused; a class gets its method entries, a function one entry with a function invoker, and anything else is refused as unsupported |
| CoreDecorators.MarkOf | lib/BlackPearl/core/decorators.py:119-161 | a mark is attached exactly to a function with the required parameter count, and is named by module and function name |
| CoreDecorators.Instance.constructor | lib/BlackPearl/core/decorators.py:29 | a new handler instance has no session |
| CoreDecorators.Invoke | lib/BlackPearl/core/decorators.py:23-44 | a class-method invoker makes a fresh instance, gives it the session and calls the method with the arguments; a function invoker calls the function and ignores the session |
| CoreHandlers.FirstNamed | lib/BlackPearl/core/handlers.py:31-34 | the loop with `break` picks the first testset with the name, and finds none exactly when no testset has it |
| CoreHandlers.RunTestset | lib/BlackPearl/core/handlers.py:24-39 | `run_testset` computes `RunTestsetResult` |
| CoreHandlers.NoneNamed | lib/BlackPearl/core/handlers.py:31-34 | no testset with the name is found when none has it |
| CoreHandlers.FirstNamedIs | lib/BlackPearl/core/handlers.py:31-34 | the first testset with the name is the one found |
| CoreHandlers.RunTestsetRunsFirst | lib/BlackPearl/core/handlers.py:24-39 | an unknown URL or name is a RequestInvalid; a known URL without testsets raises a plain KeyError; otherwise the first testset with the name is run and its result returned |
| CoreHandlers.RunAllTestset | lib/BlackPearl/core/handlers.py:43-58 | an unknown URL and a URL without testsets are refused; otherwise every testset is run in order and reported with its name |
| CoreHandlers.MarkerNames | lib/BlackPearl/core/handlers.py:70-72 | the names of the markers, in order |
| CoreHandlers.ListedModules | lib/BlackPearl/core/handlers.py:64-68 | the module list holds exactly the URLs whose last segment does not start with `_`, each once, sorted |
| CoreHandlers.ListedStep | lib/BlackPearl/core/handlers.py:65-67 | loop bookkeeping: handling one more URL adds it to the listed ones exactly when it is listed |
| CoreHandlers.ThisAppAsWritten | lib/BlackPearl/core/handlers.py:62-82 | as written, `this_app` raises a TypeError exactly when there is a preprocessor or a posthandler, because the sort key indexes a name string; otherwise the modules are listed sorted |
| CoreHandlers.ThisApp | lib/BlackPearl/core/handlers.py:62-82 | the intended `this_app`: the webapp's name, prefix, description and handlers with its listed modules, preprocessor names and posthandler names, each sorted |
| CoreHandlers.ListedUrlsExactly | lib/BlackPearl/core/handlers.py:65-67 | a URL is listed exactly when it is a web module whose last segment does not start with `_` |
| CoreHandlers.Summaries | lib/BlackPearl/core/handlers.py:93-103 | a URL without testsets gives no summary; otherwise one name and description per testset, in order |
| CoreHandlers.SignatureAsWritten | lib/BlackPearl/core/handlers.py:86-109 | as written, `signature` refuses an unknown URL and raises a KeyError for every known one, since web module entries have no `arguments` key |
| CoreHandlers.Signature | lib/BlackPearl/core/handlers.py:86-109 | the intended `signature`: an unknown URL is refused; otherwise the module's signature, its description and its testset summaries |
| PySort.InsertSorted | lib/BlackPearl/core/handlers.py:68 | inserting into a sorted list keeps it sorted, its first element being the new one or the old first |
| PySort.InsertMultiset | lib/BlackPearl/core/handlers.py:68 | inserting adds exactly that element, once |
| PySort.SortStrings | lib/BlackPearl/core/handlers.py:68 | `list.sort` on strings returns a sorted permutation of its input |
| PySort.SortedUnique | lib/BlackPearl/core/handlers.py:68 | two sorted permutations of the same strings are equal, so the sorted list is determined by its elements |
| Logger.TagLevel | lib/BlackPearl/server/core/logger.py:50-65 | a message's level is 0 (no tag) or one of the seven levels, and a tagged message starts with its level's tag |
| Logger.CanPrint | lib/BlackPearl/server/core/logger.py:46-65 | with mode NONE nothing prints; an untagged message is not a log; a tagged one prints exactly when its level is at least the mode |
| Logger.TagLevelOfTagged | lib/BlackPearl/server/core/logger.py:50-63 | a message starting with a level's tag has that level, since no tag is a prefix of another |
| Logger.TaggedPassesIff | lib/BlackPearl/server/core/logger.py:46-63 | a tagged message prints exactly when its level is at least the mode |
| Logger.Filter | lib/BlackPearl/server/core/logger.py:67-94 | a call with `file` passes through untouched; with mode NONE nothing is printed, and neither is a tagged message below the mode; a non-log message always gets the header; a printable log gets the header unless its module is disabled; at most one print results |
| Logger.Logger.constructor | lib/BlackPearl/server/core/logger.py:34-38 | a new logger keeps the mode, has disabled no module, is not installed and has printed nothing |
| Logger.Logger.DisableForModule | lib/BlackPearl/server/core/logger.py:40-41 | the module path is appended to the disabled list |
| Logger.Logger.Initialize | lib/BlackPearl/server/core/logger.py:43-44 | the logger replaces `print` |
| Logger.Logger.NewPrint | lib/BlackPearl/server/core/logger.py:67-94 | the replacement `print` emits exactly what `Filter` decides |
| Logger.DisabledModuleKeepsUntagged | lib/BlackPearl/server/core/logger.py:78-87 | with logging on, an untagged message is printed even from a disabled module |
| LegacyLogger.TagLevel | lib/server/logger.py:28-37 | a message's level is 0 (no tag) or one of the four levels |
| LegacyLogger.CanPrint | lib/server/logger.py:24-37 | with mode NONE nothing prints; an untagged message always prints; a tagged one prints exactly when its level is at least the mode |
| LegacyLogger.TagLevelOfTagged | lib/server/logger.py:28-35 | a message starting with a level's tag has that level |
| LegacyLogger.TaggedPassesIff | lib/server/logger.py:24-35 | a tagged message prints exactly when its level is at least the mode |
| LegacyLogger.Filter | lib/server/logger.py:39-57 | a call with `file` passes through untouched; otherwise it prints exactly when `CanPrint` allows, with the header, redirected to the log file and with its `sep` passed on |
| LegacyLogger.Logger.constructor | lib/server/logger.py:15-18 | a new logger keeps the mode, has no log file, has not replaced `print` and has printed nothing |
| LegacyLogger.Logger.Initialize | lib/server/logger.py:20-22 | the log file is set and the logger's `print` is installed in place of the built-in one |
| LegacyLogger.Logger.NewPrint | lib/server/logger.py:39-57 | the replacement `print` emits exactly what `Filter` decides |
| Prechecks.CheckPython | lib/BlackPearl/server/prechecks.py:26-39 | `check_python` raises exactly when the version number (major·10⁶ + minor·10⁴ + micro·10) is below that of 3.4.2 |
| Prechecks.CheckAll | lib/BlackPearl/server/prechecks.py:42-43 | `check_all` is the Python version check alone |
| Prechecks.MinimumAccepted | lib/BlackPearl/server/prechecks.py:23-39 | version 3.4.2 itself passes |
| Prechecks.NumberOrderIsLexicographic | lib/BlackPearl/server/prechecks.py:28-31 | while minor stays below 100 and micro below 1000, comparing version numbers is comparing versions lexicographically |
| Prechecks.CheckRejectsOlder | lib/BlackPearl/server/prechecks.py:26-39 | for such versions the check raises exactly for versions lexicographically older than 3.4.2 |
| Security.PyMod | lib/BlackPearl/common/security.py:26 | Python's `%` takes the sign of the divisor: in `[0, b)` for positive `b` and in `(b, 0]` for negative `b` |
| Security.Fill | lib/BlackPearl/common/security.py:26 | `n * b"{"` is `n` padding bytes, and empty for `n <= 0` |
| Security.Unpad | lib/BlackPearl/common/security.py:35 | `rstrip(b"{")` keeps a prefix that does not end in a padding byte and drops only padding bytes |
| Security.PadShape | lib/BlackPearl/common/security.py:26 | for a positive block size the padded text is a whole number of blocks, starts with the plaintext and adds one to `BLOCK_SIZE` padding bytes, a full block when the plaintext is already aligned |
| Security.MultipleMod | lib/BlackPearl/common/security.py:26 | a multiple of the block size is aligned |
| Security.PadZeroFails | lib/BlackPearl/common/security.py:26 | padding with block size 0 raises ZeroDivisionError |
| Security.PadNegativeAppendsNothing | lib/BlackPearl/common/security.py:26 | a negative block size adds no padding |
| Security.UnpadAppendedPadding | lib/BlackPearl/common/security.py:26-35 | stripping removes exactly the appended padding from a text that does not itself end in `{` |
| Security.UnpadPad | lib/BlackPearl/common/security.py:25-38 | decrypting what was encrypted gives back the plaintext exactly when the plaintext does not end in `{` |
| CoreSecurity.InitialGlobalsFail | lib/BlackPearl/core/security.py:23-30 | with the initial `BLOCK_SIZE` of 0 the padding step of `encrypt` divides by zero; `AES.new` with the initial empty key runs before it and is not modelled |
| CoreSecurity.EncryptPadAligned | lib/BlackPearl/core/security.py:29-32 | once a positive `BLOCK_SIZE` is set the module-global `encrypt` pads as the parameterised one does |
| Testing.Invoke | lib/BlackPearl/testing/testing.py:40-90 | a testset run reports status 0, -1, -3 or -2 with the matching label and description for success, a failed test, a testcase error and any other exception; its prints are the opening line, what the testset printed, and a closing line except after an unexpected exception |
| Testing.StatusDistinguishes | lib/BlackPearl/testing/testing.py:51-90 | status 0 means success, and the status and the label determine each other and the kind of outcome |
| Testing.InvokeLogLength | lib/BlackPearl/testing/testing.py:47-90 | the prints start with the opening line and then hold the testset's own prints in order, with one closing line unless an unexpected exception ended the run |
| Testing.MakeTestset | lib/BlackPearl/testing/testing.py:94-121 | the registered testset keeps its name and doc string, stores the webmodule URL normalised, while its invoker keeps the URL as given |
| Testing.StoredWebmoduleNormal | lib/BlackPearl/testing/testing.py:102-110 | the stored URL starts with `/`, has no empty segment and is already normal; it equals the invoker's exactly when the given URL was normal |
| Testing.Test | lib/BlackPearl/testing/testing.py:152-158 | `test` raises TestcaseFailed exactly when Python's `!=` holds between the two values (`PyValue.PyEq`), so `test(1, True)`, `test(5.0, 5)` and two dicts with their entries in different orders pass |
| Testing.TestReflexiveSymmetric | lib/BlackPearl/testing/testing.py:152-158 | a value without a NaN passes against itself, and swapping the two arguments never changes whether `test` passes |
| PyValue.NumbersAcrossTypes | lib/BlackPearl/testing/testing.py:156 | the comparison `test` makes treats `True`, `1` and `1.0` as equal, `5.0` as equal to `5`, and `0.0` as equal to `-0.0` |
| PyValue.NumbersUnequal | lib/BlackPearl/testing/testing.py:156 | that comparison finds a NaN unequal to itself and `5.5` unequal to `5` |
| PyValue.IntegralFloatRepr | lib/BlackPearl/testing/testing.py:156 | a float written as `str(n) + ".0"`, the way `repr` writes integral floats below 1e16, compares equal to the int `n`, for every `n` |
| PyValue.DictOrderIgnored | lib/BlackPearl/testing/testing.py:156 | dicts compare as mappings: the same entries in another order are equal |
| PyValue.UnequalContainers | lib/BlackPearl/testing/testing.py:156 | dicts that differ in a value are unequal, and a list never equals a tuple with the same items |
| PyValue.PyEqReflexive | lib/BlackPearl/testing/testing.py:156 | every value without a NaN inside equals itself |
| PyValue.PyEqSymmetric | lib/BlackPearl/testing/testing.py:156 | the comparison is symmetric: lists and tuples item by item, dicts entry by entry in both directions |
| PyValue.ItemsEqMeans | lib/BlackPearl/testing/testing.py:156 | two lists or tuples are equal exactly when they have the same length and equal items at every position |
| PyValue.EntryInMeans | lib/BlackPearl/testing/testing.py:156 | an entry is found in a dict exactly when some entry there has an equal key and an equal value |
| PyValue.HasEntryMeans | lib/BlackPearl/testing/testing.py:156 | the same search with the dict on the other side of the comparison |
| PyValue.AllInMeans | lib/BlackPearl/testing/testing.py:156 | every entry of one dict is found in the other exactly when each of them is |
| PyValue.AllHaveMeans | lib/BlackPearl/testing/testing.py:156 | every entry of the other dict is found in the first exactly when each of them is |
| Testing.Testcase | lib/BlackPearl/testing/testing.py:124-149 | outside a testset `testcase` raises InvalidTestcaseInvoke; a failed request raises TestcaseError; an answered request gives the decoded reply to the flattened input, or TestcaseError when the reply does not decode |
| Testing.FlattenedLast | lib/BlackPearl/testing/testing.py:166-175 | flattening adds the pairs of the last entry after those of the others |
| Testing.FlattenInput | lib/BlackPearl/testing/testing.py:166-175 | the loop over the input builds exactly `Flattened` |
| Testing.EntryLoop | lib/BlackPearl/testing/testing.py:167-175 | one entry gives one pair for a string, one pair per element for an iterable, and one pair for any other value |
| Testing.FlattenedAppend | lib/BlackPearl/testing/testing.py:166-175 | flattening distributes over concatenation of the input entries |
| Testing.PrintedTextSplits | lib/BlackPearl/testing/testing.py:193-198 | with a one-character separator absent from the arguments, the printed text splits back into the arguments |
| Testing.TestsetOuts.constructor | lib/BlackPearl/testing/testing.py:47 | a run's print log starts with the opening line |
| Testing.TestsetOuts.TestPrint | lib/BlackPearl/testing/testing.py:185-201 | inside a testset a `print` without `file` appends one stamped line of the joined arguments; with `file` nothing is logged |
| TestingRequests.TestcaseDecodesJsonOnly | lib/BlackPearl/testing.py:125-154 | outside a testset `testcase` raises InvalidTestcaseInvoke; a failed post raises TestcaseError; a json module's reply is decoded, raising TestcaseError when it cannot be; any other module's reply is returned raw |
| CoreUtils.SegmentsStripped | lib/BlackPearl/core/utils.py:158-162 | every kept segment is non-empty and stripped |
| CoreUtils.FixUrl | lib/BlackPearl/core/utils.py:157-163 | the loop over the split segments builds exactly `NormalizedUrl` |
| CoreUtils.SegmentsStep | lib/BlackPearl/core/utils.py:159-162 | one loop iteration appends the stripped segment when it is not empty |
| CoreUtils.SegmentsLack | lib/BlackPearl/core/utils.py:159-162 | kept segments contain no character the parts lacked |
| CoreUtils.JoinSlashFree | lib/BlackPearl/core/utils.py:163 | joining non-empty slash-free segments with `/` neither starts nor ends with `/` and has no `//` |
| CoreUtils.NormalizedUrlShape | lib/BlackPearl/core/utils.py:157-163 | a fixed URL starts with `/`, has no `//`, and ends with `/` only when it is `/` |
| CoreUtils.SegmentsAppend | lib/BlackPearl/core/utils.py:159-162 | segment filtering distributes over concatenation |
| CoreUtils.SegmentsOfSegments | lib/BlackPearl/core/utils.py:159-162 | filtering segments that are already non-empty and stripped keeps them all |
| CoreUtils.SplitNormalized | lib/BlackPearl/core/utils.py:159-163 | splitting a fixed URL at `/` gives an empty first part and then its segments |
| CoreUtils.LeadingEmptyLacks | lib/BlackPearl/core/utils.py:159 | adding the empty first part keeps the parts free of a character |
| CoreUtils.JoinLeadingEmpty | lib/BlackPearl/core/utils.py:163 | `/` followed by the joined segments is the join with an empty first part |
| CoreUtils.NormalizeJoined | lib/BlackPearl/core/utils.py:157-163 | a URL already made of clean segments is left unchanged |
| CoreUtils.NormalizeRoot | lib/BlackPearl/core/utils.py:157-163 | `/` is left unchanged |
| CoreUtils.FixUrlIdempotent | lib/BlackPearl/core/utils.py:157-163 | fixing a URL twice is fixing it once |
| CoreUtils.Names | lib/BlackPearl/core/utils.py:40 | the parameter names of a signature, in order |
| CoreUtils.Bound | lib/BlackPearl/core/utils.py:48-57 | the bound arguments are at most the signature's parameters |
| CoreUtils.ArgValue | lib/BlackPearl/core/utils.py:57-124 | validating one argument fails only with an error naming that argument, never a binding error |
| CoreUtils.ValidateArgs | lib/BlackPearl/core/utils.py:57-126 | the argument loop fails only with an argument's own error |
| CoreUtils.ParseList | lib/BlackPearl/core/utils.py:108-119 | the list loop computes `ParseEach`, stopping at the first value that does not parse |
| CoreUtils.ParseEachStep | lib/BlackPearl/core/utils.py:113-119 | one iteration appends the parsed value or stops with its error |
| CoreUtils.ParseEachAbsorbs | lib/BlackPearl/core/utils.py:113-119 | once a value fails the rest of the list changes nothing |
| CoreUtils.ValidateArg | lib/BlackPearl/core/utils.py:57-124 | the per-argument branch computes `ArgValue` |
| CoreUtils.ValidateParameter | lib/BlackPearl/core/utils.py:35-126 | `validate_parameter` computes `Validated` |
| CoreUtils.ValidateArgsStep | lib/BlackPearl/core/utils.py:57-124 | one iteration stores the validated argument or stops with its error |
| CoreUtils.ValidateArgsAbsorbs | lib/BlackPearl/core/utils.py:57-124 | once an argument fails the remaining ones change nothing |
| CoreUtils.NoLengthIsEmpty | lib/BlackPearl/core/utils.py:42-45 | a parameter without a length is treated as an empty dict |
| CoreUtils.BindFailure | lib/BlackPearl/core/utils.py:47-53 | validation fails with the binding error exactly when the received names do not bind to the signature, and then reports the received and expected names |
| CoreUtils.UnannotatedListUsesFirst | lib/BlackPearl/core/utils.py:88-105 | an unannotated argument given several values takes only the first |
| CoreUtils.AnnotatedValue | lib/BlackPearl/core/utils.py:77-124 | an annotated single value is parsed by its type, an error naming the argument; several values for a non-list type are refused |
| CoreUtils.ParseEachOk | lib/BlackPearl/core/utils.py:108-119 | a list parses exactly when every value does, each to its own parse, in order |
| CoreUtils.ParseEachFirstError | lib/BlackPearl/core/utils.py:113-119 | a failed list reports the error of its first failing value |
| CoreUtils.ValidateArgsOk | lib/BlackPearl/core/utils.py:56-126 | after a successful validation each argument holds its own validated value |
| CoreUtils.ValidateArgsLast | lib/BlackPearl/core/utils.py:56-126 | a successful validation is that of all but the last argument, with the last one stored |
| CoreUtils.SanitizeItemsSpec | lib/BlackPearl/core/utils.py:187-191 | the iterable loop succeeds exactly when every element can be cleaned and gives the cleaned elements, in order, after those already collected |
| CoreUtils.SanitizeClean | lib/BlackPearl/core/utils.py:172-193 | a cleaned value holds no object with `__dict__`, only lists for iterables, and hashable keys |
| CoreUtils.SanitizeItemsClean | lib/BlackPearl/core/utils.py:187-191 | the list the loop builds is clean |
| CoreUtils.SanitizeEntriesClean | lib/BlackPearl/core/utils.py:179-185 | the dict the loop builds is clean |
| CoreUtils.PutClean | lib/BlackPearl/core/utils.py:184 | storing a clean hashable key and a clean value keeps a dict clean |
| CoreUtils.SanitizeCleanFixed | lib/BlackPearl/core/utils.py:172-193 | a clean value is returned unchanged |
| CoreUtils.SanitizeItemsFixed | lib/BlackPearl/core/utils.py:187-191 | the loop over a clean list rebuilds it |
| CoreUtils.SanitizeEntriesFixed | lib/BlackPearl/core/utils.py:179-185 | the loop over a clean dict rebuilds it |
| CoreUtils.CleanEntry | lib/BlackPearl/core/utils.py:181-184 | each entry of a clean dict has a clean hashable key unseen before and a clean value |
| CoreUtils.SanitizeEntriesStep | lib/BlackPearl/core/utils.py:181-184 | one iteration stores the cleaned key and value |
| CoreUtils.SanitizeIdempotent | lib/BlackPearl/core/utils.py:172-193 | cleaning a cleaned value changes nothing |
| CoreUtils.SanitizeScalars | lib/BlackPearl/core/utils.py:166-177 | an object with `__dict__` becomes its `repr`; strings and other scalars are returned as they are |
| CoreUtils.SanitizeSequence | lib/BlackPearl/core/utils.py:187-191 | a list or tuple is cleaned exactly when each element is, into a list of the cleaned elements |
| CoreUrls.UrlStage.constructor | lib/BlackPearl/core/urls.py:3 | the stage starts empty |
| CoreUrls.UrlStage.AddUrl | lib/BlackPearl/core/urls.py:5-19 | `add_url` stores the handler, signature and namespace under the fixed URL and module location |
| CoreUrls.AddUrlOverwrites | lib/BlackPearl/core/urls.py:19 | the new entry replaces any with the same key, adds just that key, and leaves every other entry alone |
| CoreUrls.SameUrlOtherLocation | lib/BlackPearl/core/urls.py:19 | the same URL from two module locations is kept twice |
| CoreUrls.StagedUrlNormalised | lib/BlackPearl/core/urls.py:13-18 | the staged URL starts with `/` and has no `//`, and staging under it again gives the same key |
| CoreWebapps.FirstPrefixIgnoresConfig | lib/BlackPearl/core/webapps.py:167-185 | on a first initialisation `self.url_prefix` is not yet set, so the prefix is `/` and the folder name whatever the configuration says, and the id is the folder name with `/` replaced by `_` |
| CoreWebapps.IdHasNoSlash | lib/BlackPearl/core/webapps.py:185 | a webapp id has no `/` |
| CoreWebapps.ParseMembersStep | lib/BlackPearl/core/webapps.py:267-303 | one loop iteration parses one member |
| CoreWebapps.RegisterEachStep | lib/BlackPearl/core/webapps.py:295-303 | one iteration over a class's web modules registers one more |
| CoreWebapps.RegisterEachKeeps | lib/BlackPearl/core/webapps.py:256-261 | a URL already registered keeps its web module: later duplicates are ignored |
| CoreWebapps.ParseMembersKeeps | lib/BlackPearl/core/webapps.py:256-303 | parsing a module never replaces a registered web module |
| CoreWebapps.RegisterEachCovers | lib/BlackPearl/core/webapps.py:295-303 | every web module of a class ends up with its prefixed URL registered |
| CoreWebapps.RegisterEachNew | lib/BlackPearl/core/webapps.py:295-303 | every newly registered URL is the prefixed URL of one of the class's web modules, registered to it |
| CoreWebapps.WebModuleRegistered | lib/BlackPearl/core/webapps.py:268-277 | a function web module is registered under the prefix and the fixed URL unless that URL is taken; markers are untouched |
| CoreWebapps.PreprocessorGate | lib/BlackPearl/core/webapps.py:278-285 | a preprocessor is appended exactly when its name is listed in the configuration |
| CoreWebapps.PosthandlerGate | lib/BlackPearl/core/webapps.py:286-293 | a posthandler is appended exactly when its name is listed in the configuration |
| CoreWebapps.ParseMembersListed | lib/BlackPearl/core/webapps.py:278-293 | parsing only appends preprocessors and posthandlers, and only listed ones |
| CoreWebapps.ParseMemberNew | lib/BlackPearl/core/webapps.py:256-303 | a URL one member adds is the registered URL of one of its web modules |
| CoreWebapps.PrefixedUrls | lib/BlackPearl/core/webapps.py:270-303 | with a non-empty prefix every newly registered URL is the prefix followed by a fixed URL |
| CoreWebapps.ParseHandlersStep | lib/BlackPearl/core/webapps.py:214-224 | one handler iteration parses the module when it imports and counts it, and skips it otherwise |
| CoreWebapps.NoHandlerImported | lib/BlackPearl/core/webapps.py:212-229 | the count stays 0 exactly when no handler module imports |
| CoreWebapps.GroupTestsetsStep | lib/BlackPearl/core/webapps.py:234-254 | one member that is a testset is appended under its prefixed webmodule key, creating the list when missing |
| CoreWebapps.GroupTestsetsFiles | lib/BlackPearl/core/webapps.py:234-254 | a key holds its earlier testsets followed by the new ones filed under it, in order, and exists exactly when one of those does |
| CoreWebapps.FiledUnderRewritten | lib/BlackPearl/core/webapps.py:247-254 | each testset filed under a key has its webmodule and its invoker's webmodule rewritten to that key |
| CoreWebapps.HandleRequest | lib/BlackPearl/core/webapps.py:66-73 | an unknown URL raises the invalid-URL error naming it, and any known URL gets a reply |
| CoreWebapps.HandleRequestCodes | lib/BlackPearl/core/webapps.py:75-98 | status -201 exactly when validation fails, carrying its error; otherwise 0 with the function's data when it returns, -202 when it raises RequestInvalid, -203 when it raises anything else |
| CoreWebapps.Webapp.constructor | lib/BlackPearl/core/webapps.py:31-43 | a new webapp has an empty id, the location `app_location/folder_name`, no name, and empty handlers, modules, testsets and markers |
| CoreWebapps.Webapp.InitBasics | lib/BlackPearl/core/webapps.py:136-197 | a disabled webapp changes nothing and fails; otherwise enabled, named (folder name by default), described, with the session settings, the URL prefix and id, and the configured marker lists |
| CoreWebapps.Webapp.InitSettings | lib/BlackPearl/core/webapps.py:142-165 | the name, description and session settings, the retention kept from before unless sessions are enabled |
| CoreWebapps.Webapp.InitUrlPrefix | lib/BlackPearl/core/webapps.py:167-185 | the URL prefix and the id derived from it |
| CoreWebapps.Webapp.InitDefined | lib/BlackPearl/core/webapps.py:189-197 | the configured marker lists replace the current ones when present |
| CoreWebapps.Webapp.CheckUrl | lib/BlackPearl/core/webapps.py:256-261 | a URL is new exactly when no web module holds it |
| CoreWebapps.Webapp.AddWebModule | lib/BlackPearl/core/webapps.py:270-277 | the web module is registered as `Register` describes |
| CoreWebapps.Webapp.ParseModule | lib/BlackPearl/core/webapps.py:263-303 | the loop over a module's members updates the registry as `ParseMembers` describes |
| CoreWebapps.Webapp.InitHandlers | lib/BlackPearl/core/webapps.py:199-229 | no handler list fails and changes nothing; an empty one fails; otherwise the core handlers are put first, each module is parsed, and success means at least one imported |
| CoreWebapps.Webapp.InitTestcases | lib/BlackPearl/core/webapps.py:231-254 | the testsets are grouped as `GroupTestsets` describes |
| CoreWebapps.Webapp.Initialize | lib/BlackPearl/core/webapps.py:100-134 | a missing config module and a disabled webapp change nothing; otherwise the basics are set, a missing or empty handler list fails with the registry and testsets untouched, and a non-empty one puts the core handlers first, registers as `ParseHandlers` describes and succeeds exactly when some handler imported, the testsets then grouped from the test module when there is one |
| CoreWebapps.Webapp.InitAfterBasics | lib/BlackPearl/core/webapps.py:113-134 | the handlers step decides success (some handler imported) and the registry; the testsets are grouped only after a success with a test module |
| DarkchocoDataType.First | lib/darkchoco/core/datatype.py:42-47 | `data[0]` exists exactly for a non-empty list and is its first value |
| DarkchocoDataType.IsValid | lib/darkchoco/core/datatype.py:6-12 | `isvalid` raises exactly for an object that is not a data type, naming its class |
| DarkchocoDataType.Parse | lib/darkchoco/core/datatype.py:14-18 | `parse` succeeds exactly when the value is valid; an invalid value is refused with the type and the data; a non-type raises |
| DarkchocoDataType.TypeParsesToInput | lib/darkchoco/core/datatype.py:20-24 | the base type accepts any list and returns it whole |
| DarkchocoDataType.FirstElementDecides | lib/darkchoco/core/datatype.py:26-94 | every concrete type looks at the first value only: an empty list is refused and the rest of the list never matters |
| DarkchocoDataType.IntegerParse | lib/darkchoco/core/datatype.py:41-49 | `Integer` accepts exactly a list whose first value is integer text, and parses that value |
| DarkchocoDataType.OptionsParse | lib/darkchoco/core/datatype.py:85-94 | `Options` accepts exactly a list whose first value is among its options, and returns that value |
| DarkchocoDataType.NewOptions | lib/darkchoco/core/datatype.py:80-84 | the constructor loop keeps every option as its `str()`, in order |
| DarkchocoDataType.OptionsOfStrings | lib/darkchoco/core/datatype.py:80-94 | options built from strings accept exactly a list that starts with one of those strings |
| DarkchocoUtils.GetNamespace | lib/darkchoco/core/utils.py:9-14 | the loop over the loaded modules returns the first name bound to the function's module, and none, standing for the `ValueError`, exactly when no name is |
| DarkchocoUtils.Names | lib/darkchoco/core/utils.py:19-21 | the parameter names of a signature, in order |
| DarkchocoUtils.Bound | lib/darkchoco/core/utils.py:23 | the bound arguments are at most the signature's parameters |
| DarkchocoUtils.ValidateParameter | lib/darkchoco/core/utils.py:16-42 | `validate_parameter` computes `Validated` |
| DarkchocoUtils.BindFailure | lib/darkchoco/core/utils.py:22-27 | validation fails with the binding error exactly when the parameters do not bind to the signature, reporting the received parameters and the expected names |
| DarkchocoUtils.BoundEntries | lib/darkchoco/core/utils.py:23-29 | each bound argument carries the value received under its name, is a parameter of the signature, and appears once |
| DarkchocoUtils.ValidateArgsShape | lib/darkchoco/core/utils.py:28-42 | validation succeeds exactly when each argument does, and then holds one validated entry per argument, in order |
| DarkchocoUtils.ValidateArgsFirstError | lib/darkchoco/core/utils.py:28-40 | a failed validation reports the data error of its first failing argument |
| DarkchocoUtils.ArgPassesOrParses | lib/darkchoco/core/utils.py:30-40 | an unannotated argument is passed through; an annotated one is parsed by its type, an invalid value naming the argument |
| DarkchocoUtils.CookiePairs | lib/darkchoco/core/utils.py:46-48 | each `; `-separated pair gives the text before its first `=` and the rest |
| DarkchocoUtils.ParseCookie | lib/darkchoco/core/utils.py:44-49 | the loop builds exactly `Cookies` |
| DarkchocoUtils.PairParts | lib/darkchoco/core/utils.py:47-48 | a pair `k=v` with no `=` in `k` gives `k` and `v`, even when `v` holds `=` |
| DarkchocoUtils.PairWithoutEquals | lib/darkchoco/core/utils.py:47-48 | a pair without `=` is a key with the empty value |
| DarkchocoUtils.EmptyCookieString | lib/darkchoco/core/utils.py:44-49 | the empty cookie string gives one entry, the empty key with the empty value |
| DarkchocoUtils.CookiePresent | lib/darkchoco/core/utils.py:46-48 | a key is present exactly when some pair has it |
| DarkchocoUtils.LastPairWins | lib/darkchoco/core/utils.py:48 | a key repeated in the string holds the value of its last pair |
| DarkchocoUtils.CookieKeysUnique | lib/darkchoco/core/utils.py:45-48 | the cookie dict has each key once |
| DarkchocoUrls.Marked | lib/darkchoco/core/urls.py:9-12 | amending keeps every stage entry in place, appending the webapp to those it claims |
| DarkchocoUrls.UrlTables.constructor | lib/darkchoco/core/urls.py:5-6 | both tables start empty |
| DarkchocoUrls.UrlTables.AddUrl | lib/darkchoco/core/urls.py:36-43 | while the stage exists `add_url` stores the entry under its URL and module location; after `initialize` deleted it the call fails |
| DarkchocoUrls.UrlTables.Amend | lib/darkchoco/core/urls.py:8-24 | for each stage entry from the webapp's location whose module is a listed handler, the webapp is appended and the URL, prefixed unless the prefix is empty, is mapped to it; fails once the stage is gone |
| DarkchocoUrls.UrlTables.Initialize | lib/darkchoco/core/urls.py:26-34 | the webapps are amended in order and the stage is then deleted; a second call fails |
| DarkchocoUrls.PutKeys | lib/darkchoco/core/urls.py:43 | storing an entry keeps the keys present |
| DarkchocoUrls.MarkStep | lib/darkchoco/core/urls.py:9-12 | one amend iteration marks one more stage entry |
| DarkchocoUrls.PublishStep | lib/darkchoco/core/urls.py:9-16 | one amend iteration maps the entry's URL exactly when the webapp claims it |
| DarkchocoUrls.AfterAppsStep | lib/darkchoco/core/urls.py:28-29 | one more webapp amends the stage and URL map left by the earlier ones |
| DarkchocoUrls.AmendDone | lib/darkchoco/core/urls.py:8-24 | amending keeps the tables valid: keys unique and every mapped URL pointing into the stage |
| DarkchocoUrls.ClaimedStep | lib/darkchoco/core/urls.py:9-16 | one more stage entry adds its mapped URL when claimed |
| DarkchocoUrls.MarkedKeys | lib/darkchoco/core/urls.py:9-12 | amending keeps the stage's keys |
| DarkchocoUrls.ClaimedFromStage | lib/darkchoco/core/urls.py:14-16 | every mapped URL points to a stage key |
| DarkchocoUrls.AssignedValues | lib/darkchoco/core/urls.py:14-16 | a property of every stored value holds after more assignments of values that have it |
| DarkchocoUrls.AmendKeepsValid | lib/darkchoco/core/urls.py:8-24 | amending keeps the keys unique and the URL map pointing into the stage |
| DarkchocoUrls.AddUrlOverwrites | lib/darkchoco/core/urls.py:43 | adding the same URL from the same module location twice keeps the second |
| DarkchocoUrls.LastValueAppend | lib/darkchoco/core/urls.py:14-16 | the last assignment to a key decides its value |
| DarkchocoUrls.ClaimedLast | lib/darkchoco/core/urls.py:9-16 | a URL is mapped by an amend exactly when a claimed entry maps to it, and the last such entry wins |
| DarkchocoUrls.AmendLookup | lib/darkchoco/core/urls.py:9-16 | after an amend a URL no claimed entry maps to keeps its old target, and one that is mapped points to the last claiming entry |
| DarkchocoUrls.ClaimsIgnoreApps | lib/darkchoco/core/urls.py:10-11 | whether a webapp claims an entry does not depend on the webapps appended to it |
| DarkchocoUrls.ClaimedAfterMarking | lib/darkchoco/core/urls.py:9-16 | amending with one webapp does not change what another claims |
| DarkchocoUrls.InitializeAppends | lib/darkchoco/core/urls.py:26-29 | after `initialize` every stage entry holds, after its own webapps, the ids of all webapps that claim it, in order |
| DarkchocoUrls.OneClaimOneApp | lib/darkchoco/core/urls.py:26-29 | an entry claimed by one webapp only records that webapp |
| DarkchocoUrls.NoClaims | lib/darkchoco/core/urls.py:26-29 | an entry no webapp claims records none |
| DarkchocoDecorators.StagePairs | lib/darkchoco/core/decorators.py:34-40 | one staging per registration, under its url and file, in order |
| DarkchocoDecorators.ClassRegistrationsEmpty | lib/darkchoco/core/decorators.py:20-40 | whether the class loop registers anything does not depend on the namespace |
| DarkchocoDecorators.StagePairsAppend | lib/darkchoco/core/decorators.py:34-40 | the stagings of more registrations follow those before |
| DarkchocoDecorators.WebLocation | lib/darkchoco/core/decorators.py:9-64 | a non-string parameter and an unsupported target raise; otherwise exactly the registrations of the target are staged, and a class comes back unchanged, a function as its wrapper; the url map is untouched |
| DarkchocoDecorators.WebLocationClass | lib/darkchoco/core/decorators.py:19-40 | the loop over a class's methods stages exactly the class registrations, in member order |
| DarkchocoDecorators.RegistrationsUpToPrefix | lib/darkchoco/core/decorators.py:20-40 | the registrations counted over the first n members are the class registrations of those members |
| DarkchocoDecorators.ClassOutcome | lib/darkchoco/core/decorators.py:19-40 | a class that registers nothing comes back unchanged; otherwise a missing namespace, then a deleted staging map, raise; what is staged is the class registrations under the namespace found |
| DarkchocoDecorators.StagedStep | lib/darkchoco/core/decorators.py:32-40 | a method that is not special puts one more staging, at its method url and file, over those before it |
| DarkchocoDecorators.UpToSpecial | lib/darkchoco/core/decorators.py:21-22 | a special method is skipped: the registrations stay those before it |
| DarkchocoDecorators.StageLoopStep | lib/darkchoco/core/decorators.py:20-40 | one turn of the class loop keeps the staging map equal to the stagings of the registrations so far |
| DarkchocoDecorators.AddMethodUrl | lib/darkchoco/core/decorators.py:23-40 | a missing namespace, then a deleted staging map, raise with nothing staged; otherwise exactly the method's url and file are put into the staging map, the url map untouched |
| DarkchocoDecorators.NonDunderRegisters | lib/darkchoco/core/decorators.py:20-22 | a class with a method whose name is not special registers something |
| DarkchocoDecorators.ClassRegistrationsLast | lib/darkchoco/core/decorators.py:20-40 | the last class member adds its registration unless its name is special |
| DarkchocoDecorators.RegistrationsFromMembers | lib/darkchoco/core/decorators.py:20-40 | every class registration comes from a method that is not special, at its method url |
| DarkchocoDecorators.MembersRegistered | lib/darkchoco/core/decorators.py:20-40 | every method that is not special is registered at its method url |
| DarkchocoDecorators.OnlyDundersRegisterNothing | lib/darkchoco/core/decorators.py:20-22 | a class of special methods only registers nothing |
| DarkchocoDecorators.MethodUrlShape | lib/darkchoco/core/decorators.py:32-33 | a method url is the parameter, one `/`, then the name; it adds no `/` exactly when the parameter ends in one |
| DarkchocoDecorators.TrailingSlashIrrelevant | lib/darkchoco/core/decorators.py:32-33 | a trailing `/` on the parameter gives the same method urls |
| DarkchocoDecorators.FunctionStagedAtParameter | lib/darkchoco/core/decorators.py:48-58 | a function is staged at exactly the parameter url under its file, with its namespace and no webapp |
| DarkchocoDecorators.RunChecks | lib/darkchoco/core/decorators.py:67-98 | `run` schedules exactly a parameterless function with integer seconds and a known runtype, and otherwise raises for seconds, then a non-function, then parameters, then the runtype |
| DarkchocoDecorators.OnlyOnceStops | lib/darkchoco/core/decorators.py:77-92 | of the runtypes only "runonce" schedules a function that does not repeat |
| DarkchocoDecorators.RunOnceRepeats | lib/darkchoco/core/decorators.py:105-109 | `runonce` as written is `runinterval` and repeats; the corrected one schedules once after the given seconds |
| DarkchocoWebapps.Imported | darkchoco/core/webapps.py:91-99 | the count of items that import before the first failure |
| DarkchocoWebapps.ModulesOf | darkchoco/core/webapps.py:91-93 | the imported modules of those items, in order |
| DarkchocoWebapps.ImportEach | darkchoco/core/webapps.py:89-99 | the import loop keeps the modules imported before the first failure, and fails exactly when some item does not import |
| DarkchocoWebapps.Webapp.constructor | darkchoco/core/webapps.py:11-15 | the location is the folder under the app location; the name is `None` and the handlers empty |
| DarkchocoWebapps.Webapp.InitBasics | darkchoco/core/webapps.py:48-80 | the name defaults to the folder name, `desc` to `None`; a missing session flag is `None`, a true one reads the retention; then the url prefix; nothing else changes |
| DarkchocoWebapps.Webapp.InitSession | darkchoco/core/webapps.py:59-68 | the session flag is the configured one or `None`, and the retention is read only for a true flag |
| DarkchocoWebapps.Webapp.InitUrlPrefix | darkchoco/core/webapps.py:70-80 | a missing configured prefix gives the folder name and "ROOT" the empty prefix; any other is taken only by a webapp that already has a non-empty prefix, the rest getting the folder name |
| DarkchocoWebapps.Webapp.InitPreprocessors | darkchoco/core/webapps.py:82-102 | the preprocessors are the modules loaded from the configured value, and the step fails exactly when loading does; nothing else changes |
| DarkchocoWebapps.Webapp.InitPosthandlers | darkchoco/core/webapps.py:104-124 | the same for posthandlers |
| DarkchocoWebapps.Webapp.InitHandlers | darkchoco/core/webapps.py:127-155 | a configured handler list is stored first; the step's outcome is `HandlersOutcome`; nothing else changes |
| DarkchocoWebapps.Webapp.Initilize | darkchoco/core/webapps.py:17-34 | a missing config raises and changes nothing; otherwise the name, description, session fields and url prefix are set from the config with their defaults, the result is true exactly when the three loading steps all succeed, and each step that runs sets its field: the preprocessors always, the posthandlers only after loaded preprocessors, the handlers only after both loads succeed (and then to the configured value when there is one); a failed earlier step leaves the later fields unchanged |
| DarkchocoWebapps.LoadModules | darkchoco/core/webapps.py:83-102 | the loading loop produces `LoadedModules` and succeeds exactly when `LoadOk` |
| DarkchocoWebapps.FreshPrefix | darkchoco/core/webapps.py:70-80 | on a new webapp the prefix is empty exactly for "ROOT" or an empty folder name, and the folder name whenever the configuration does not say "ROOT" |
| DarkchocoWebapps.SecondBasicsUsesConfig | darkchoco/core/webapps.py:73-78 | read again with a non-empty prefix, a configured prefix other than "ROOT" takes effect |
| DarkchocoWebapps.LoadedModulesSpec | darkchoco/core/webapps.py:82-124 | a missing value loads nothing and succeeds; a present one succeeds exactly when it iterates and every item imports, loading them in order; a failure keeps the modules before the first failing item |
| DarkchocoWebapps.HandlersNeedFirstImport | darkchoco/core/webapps.py:140-155 | a non-empty handler list initialises exactly when its first handler imports |
| DarkchocoWebapps.HandlersRefused | darkchoco/core/webapps.py:127-138 | a missing or empty handler list and one without a length are refused |
| DarkchocoWebapps.GetWebapp | darkchoco/core/webapps.py:211-219 | an unknown url raises `ValueError`; a published one gives its first webapp |
| DarkchocoWebapps.InvokeStatuses | darkchoco/core/webapps.py:221-247 | a url not published with exactly one webapp raises; then the status is -1 exactly when validation fails, -2 exactly when the handler raises, and 0 with the handler's data otherwise |
| DarkchocoWebapps.ClaimedEntries | lib/darkchoco/core/urls.py:9-16 | every url a webapp publishes comes from a stage entry it claims |
| DarkchocoWebapps.ClaimingIdsGrow | lib/darkchoco/core/urls.py:26-29 | one more webapp adds its id to an entry exactly when it claims it |
| DarkchocoWebapps.PublishedAreClaimed | lib/darkchoco/core/urls.py:26-29 | after `initialize` every published url names an entry some webapp claimed |
| DarkchocoWebapps.PublishedEntry | lib/darkchoco/core/urls.py:26-29 | a published url finds the staged entry holding the ids of the webapps that claimed it, in order |
| DarkchocoWebapps.PublishedEntryOf | lib/darkchoco/core/urls.py:26-29 | the same on the tables `initialize` computes |
| DarkchocoWebapps.GetWebappFirstClaimer | darkchoco/core/webapps.py:211-219 | `get_webapp` answers a published url with the first webapp that claimed its entry |
| DarkchocoWebapps.InvokeNeedsOneClaimer | darkchoco/core/webapps.py:224-227 | a request to a published url is answered instead of raising exactly when one webapp alone claimed its entry |

## Left out

- Operating-system processes. Spawning, `os.kill`, `subprocess.Popen` and process exit are replaced by parameters: spawn success, exit code, the liveness answer `alive(pid, k)` and wait timeouts.
- Time. Sleeps, clocks and timeouts become probe counts, timestamps passed in, or a timed-out flag.
- Concurrency. The asyncio tasks of the server (lib/BlackPearl/server/appserver.py:425-487) are sequential method calls, with each callback a separate method.
  - The legacy worker thread is the separate `LegacyProcess.Process.Run`.
  - The darkchoco `run` timers are not modelled; only the checks `run` makes are.
- SupervisedProcess.Process.StopAfterWait: when `asyncio.wait_for` times out, the model only propagates the timeout. It does not claim that stop escalates to kill.
- SupervisedProcess.Process.Terminate: `_is_stopped()` is called without its `timeout` argument. The model reports that call as an error rather than going further.
- `ProcessGroup`, `AsyncTask`, `ProcessStatus` and `process.Status` are not part of this model, because no file defines them. The uWSGI group is the log of calls made on it, and the server status is a field.
- Status strings. Every status string is one constructor of the shared `Status` enum.
- Listener deletion in `_set_status` is modelled as written: it deletes in ascending index order, so indices shift, and it can raise an `IndexError`.
- Reflection and imports. The following are parameters that supply modules, members, parameter lists and import outcomes: `inspect.signature`, `getmembers`, `getfile`, `sys.modules`, `importlib.import_module` and `__import__`. `Signature.bind` is modelled by `Binds` and `Bound`, within the limits below.
- CoreUtils.Binds and CoreUtils.Bound cover only ordinary parameters that can be passed by name. A `*args`, `**kwargs` or positional-only parameter is not modelled, so a `**kwargs` handler that Python would bind to extra names is refused by the model.
- DarkchocoUtils.Binds and DarkchocoUtils.Bound have the same limit: only ordinary named parameters.
- LegacyLogger.Filter records `sep` but not `print`'s other keyword arguments (`end`, `flush`). The source passes these on unchanged.
- PyDict: keys are compared with Dafny equality on `Value`. Python treats `1`, `True` and `1.0` as the same key; the model does not.
- Testing.Test: a float compares equal to an int only when its `repr` is in fixed notation with a zero fraction (`"5.0"`). Floats from 1e16 up are written in exponent notation, and their exact binary value cannot be recovered from the `repr` text, so `1e16 == 10**16` is not modelled.
- Testing.Test: values carry no object identity. Python's container comparison first checks whether two items are the same object, so a list holding one NaN object twice equals itself; the model finds it unequal. Instances compare by their `repr`; a user-defined `__eq__` is not modelled.
- Handlers and invokers are opaque identities. What calling one returns is a parameter.
- Exceptions and messages. An exception is modelled as a structured error value. Message text, printed warnings and tracebacks are not modelled.
- Configuration.validate_and_update: for a missing `security.key`, the source formats its message with `%` but the message has no placeholder (lib/BlackPearl/common/configuration.py:125). The error actually raised is therefore not the intended `ValueError`. The model reports it as the missing-key error.
- Environment values are parameters: `os.getcwd()`, `os.urandom()`, `multiprocessing.cpu_count()` and `VIRTUAL_ENV`.
- AES and base64 are foreign library calls. Only the padding and unpadding arithmetic around them is modelled.
- Number text follows Python 3.6 and later. There, `int()` and `float()` accept single underscores between digits, which Python 3.4 and 3.5 refuse. The decimal digits are those of Unicode 15.0, the version of Python 3.12; other Python versions use other Unicode versions.
- `Format` and `FormatList` regular-expression matching is an oracle. The numeric value that `float()` produces is kept as its text; whether text is a valid float literal is modelled.
- JSON encoding/decoding and the HTTP exchange of the testing helpers are parameters.
- Discovery and start-up are not modelled. These use the filesystem, multiprocessing, pickle and process forking:
  - `analyse_and_pickle_webapps`;
  - `get_webapp_folders`, `analyze` and `get_app_details*`;
  - `daemonize`, `start` and `precheck` in lib/BlackPearl/server/appserver.py.

  The deployed webapps that these would produce are parameters.
- File watching is not modelled. `_code_update_monitor_init`, `_signal_init` and `wait_for_completion` need inotify, signals and the event loop; the code-change callback is a method called with the event.
- Legacy code that cannot run as written is left out:
  - legacy `AppServer.reload` (lib/server/appserver.py:189-191), reached from the SIGHUP handler, passes the module-level `conf` to `Uwsgi.reload_conf` and `Nginx.reload_conf`. Both take no argument besides `self` (lib/server/appserver.py:46, 100), so the first call raises TypeError;
  - `Uwsgi.reload_conf` calls a misspelt `_isstoppped` (lib/server/appserver.py:54).
- Legacy `AppServer.join` (lib/server/appserver.py:197-210) only polls `isrunning` every two seconds with `time.sleep` and prints progress. It is left out with the other clock-driven loops.
- `__str__`, `__repr__`, `get_signature_details` and `dict_to_object` only format or wrap values, so they are left out.
- Aliasing. In darkchoco, `url_map` shares the staged lists that `initialize` appends to. The model keeps one copy of each list in the stage and has `url_map` name it by its stage key.
- DarkchocoUtils.GetNamespace: the `ValueError` for an unknown module is modelled as `None`.
- DarkchocoWebapps.Webapp.Initilize: when the `config` module is missing, the source's handler itself fails, because it names the undefined `seld`. The model reports this as the missing-config error.
- The `print` replacement of both loggers and of the testing helpers is modelled as the decision of what is written. The writing itself is not modelled.

## Findings

| source | as written | input that shows it | evidently intended | confidence | as-written member | corrected member |
|---|---|---|---|---|---|---|
| lib/BlackPearl/core/datatype.py:189-190 | `OptionsList.__init__` passes the argument tuple to `Options.__init__` as one value, so the only option is the tuple's text | `OptionsList("Male", "Female")` refuses the submitted value `Male` | one option per argument, as in `Options` | not executed | DataType.OptionsListAsWritten | DataType.OptionsListOf |
| lib/BlackPearl/core/handlers.py:71-73 | `this_app` sorts preprocessor and posthandler name strings with the key `p['name']` | a webapp with one preprocessor: indexing a string by `'name'` raises `TypeError` | sort the names themselves | not executed | CoreHandlers.ThisAppAsWritten | CoreHandlers.ThisApp |
| lib/BlackPearl/core/handlers.py:106 | `signature` reads the key `arguments` of a web module entry, and no entry has that key | any registered url: the lookup raises `KeyError` | report the module's signature | not executed | CoreHandlers.SignatureAsWritten | CoreHandlers.Signature |
| lib/darkchoco/core/decorators.py:108-109 | `runonce` calls `run` with the runtype "runinterval" | `runonce(5)` reschedules its function every 5 seconds | the runtype "runonce": one run after the delay | not executed | DarkchocoDecorators.RunOnceAsWritten | DarkchocoDecorators.RunOnce |
