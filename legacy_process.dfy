/** The thread-based process supervisor of lib/server/core/process.py: a module-level registry
    of running processes and a `Process` that is started on a worker thread, probed with
    `os.kill(pid, 0)` and stopped by polling.

    The operating system is an `Os` object that logs what the supervisor asks of it: the
    signals sent, the number of liveness probes made, and the processes whose worker thread was
    launched. Whether probe number `k` finds process `pid` alive is the oracle `alive(pid, k)`;
    the one-second sleeps between polls advance time only through that probe count. */
module LegacyProcess {
  import opened Wrappers
  import opened ServiceStatus
  import SupervisedProcess

  type Signal = SupervisedProcess.Signal

  /** Whether the `k`-th liveness probe made through the `Os` finds process `pid` alive. */
  type Alive = (int, nat) -> bool

  /** Exceptions raised out of the supervisor's methods. */
  datatype Error =
    | NotStartedYet   // `_isrunning` on a process whose pid was never set
    | PopenFailed     // `subprocess.Popen` raised inside the worker thread

  /** What one call asks of the operating system: its result, the signals it sends in order,
      and the probe count once it returns. */
  datatype Effect<T> = Effect(result: Result<T, Error>, sent: seq<(int, Signal)>, probes: nat)

  /** The side of the operating system the supervisor talks to. */
  class Os {
    var sent: seq<(int, Signal)>  // every `os.kill(pid, sig)` with a real signal, in order
    var probes: nat               // how many `os.kill(pid, 0)` probes were made
    var threads: seq<Process>     // the processes whose worker thread was started, in order

    constructor ()
      ensures sent == [] && probes == 0 && threads == []
    {
      sent, probes, threads := [], 0, [];
    }
  }

  // ---------------------------------------------------------------------------
  // The registry `_process`

  /** The module-level list of processes whose worker thread is running. */
  class Registry {
    var live: seq<Process>

    constructor ()
      ensures live == []
    {
      live := [];
    }

    /** `add_process`: append. */
    method Add(p: Process)
      modifies this
      ensures live == old(live) + [p]
    {
      live := live + [p];
    }

    /** `delete_process`: a descending index loop that deletes every occurrence of `p`. */
    method Delete(p: Process)
      modifies this
      ensures live == SupervisedProcess.RemoveAll(old(live), p)
    {
      ghost var before := live;
      var i := |live|;
      assert before[i..] == [];
      while i > 0
        invariant 0 <= i <= |before|
        invariant live == before[..i] + SupervisedProcess.RemoveAll(before[i..], p)
        decreases i
      {
        i := i - 1;
        assert before[i..][1..] == before[i+1..];
        assert live[i] == before[i];
        if live[i] == p {
          live := live[..i] + live[i+1..];
          assert before[..i+1][..i] == before[..i];
        } else {
          assert before[..i+1] == before[..i] + [before[i]];
        }
      }
      assert before[..0] == [];
    }
  }

  /** Starting and finishing a process leaves the registry as it was, minus any other
      registration of that same process. */
  lemma RunLeavesRegistry(before: seq<Process>, p: Process)
    ensures SupervisedProcess.RemoveAll(before + [p], p) == SupervisedProcess.RemoveAll(before, p)
    ensures p !in SupervisedProcess.RemoveAll(before + [p], p)
  {
    SupervisedProcess.RemoveAllAppend(before, [p], p);
    assert [p][1..] == [];
  }

  // ---------------------------------------------------------------------------
  // Probing and polling

  /** `_isrunning`: `NotStartedYet` without a pid, otherwise what the probe `k` reports. */
  function Probe(pid: Option<int>, alive: Alive, k: nat): (r: Result<bool, Error>)
    ensures r.Err? <==> pid.None?
    ensures r.Err? ==> r.error == NotStartedYet
    ensures pid.Some? ==> r == Ok(alive(pid.value, k))
  {
    if pid.None? then Err(NotStartedYet) else Ok(alive(pid.value, k))
  }

  /** `_isstopped` from probe `k` on with `count` polls left: the result and the probe count
      once it returns. */
  function Poll(pid: Option<int>, count: int, alive: Alive, k: nat): (Result<bool, Error>, nat)
    decreases count
  {
    if count <= 0 then (Ok(false), k)
    else match Probe(pid, alive, k)
      case Err(e) => (Err(e), k)
      case Ok(running) => if running then Poll(pid, count - 1, alive, k + 1) else (Ok(true), k + 1)
  }

  /** `n` non-negative, written `max(n, 0)`. */
  function Polls(n: int): nat
  {
    if n <= 0 then 0 else n
  }

  /** With a pid, `_isstopped` never raises and makes at most `count` probes. It answers true
      exactly when one of its polls finds the process gone; then that poll is its last and every
      earlier one found the process running. It answers false after exactly `count` polls that
      all found it running. */
  lemma {:induction false} PollSpec(p: int, count: int, alive: Alive, k: nat)
    ensures Poll(Some(p), count, alive, k).0.Ok?
    ensures k <= Poll(Some(p), count, alive, k).1 <= k + Polls(count)
    ensures Poll(Some(p), count, alive, k).0 == Ok(true) <==>
      exists i :: k <= i < k + count && !alive(p, i)
    ensures Poll(Some(p), count, alive, k).0 == Ok(true) ==>
      var last := Poll(Some(p), count, alive, k).1 - 1;
      k <= last && !alive(p, last) && forall j :: k <= j < last ==> alive(p, j)
    ensures Poll(Some(p), count, alive, k).0 == Ok(false) ==>
      Poll(Some(p), count, alive, k).1 == k + Polls(count)
    decreases count
  {
    if count > 0 && alive(p, k) {
      PollSpec(p, count - 1, alive, k + 1);
      var r := Poll(Some(p), count - 1, alive, k + 1);
      assert Poll(Some(p), count, alive, k) == r;
      if exists i :: k <= i < k + count && !alive(p, i) {
        var i :| k <= i < k + count && !alive(p, i);
        assert i != k;
      }
    }
  }

  /** Without a pid, `_isstopped` raises `NotStartedYet` unless `sig_timeout` leaves it no poll,
      in which case it answers false; either way it probes nothing. */
  lemma PollWithoutPid(count: int, alive: Alive, k: nat)
    ensures Poll(None, count, alive, k) == (if count <= 0 then Ok(false) else Err(NotStartedYet), k)
  {
  }

  /** The effect of `os.kill(pid, sig)` guarded by `_isrunning`, as `kill` and `send_signal`
      perform it. */
  function SignalOutcome(pid: Option<int>, sig: Signal, alive: Alive, k: nat): Effect<bool>
  {
    match Probe(pid, alive, k)
    case Err(e) => Effect(Err(e), [], k)
    case Ok(running) =>
      if !running then Effect(Ok(false), [], k + 1)
      else Effect(Ok(true), [(pid.value, sig)], k + 1)
  }

  /** The effect of `stop` (with SIGINT) or `terminate` (with SIGTERM). */
  function StopOutcome(pid: Option<int>, sig: Signal, timeout: int, alive: Alive, k: nat): Effect<bool>
  {
    match Probe(pid, alive, k)
    case Err(e) => Effect(Err(e), [], k)
    case Ok(running) =>
      if !running then Effect(Ok(false), [], k + 1)
      else
        var (stopped, k2) := Poll(pid, timeout, alive, k + 1);
        match stopped
        case Err(e) => Effect(Err(e), [(pid.value, sig)], k2)
        case Ok(gone) =>
          if gone then Effect(Ok(true), [(pid.value, sig)], k2)
          else
            var killed := SignalOutcome(pid, SupervisedProcess.SigKill, alive, k2);
            Effect(Ok(true), [(pid.value, sig)] + killed.sent, killed.probes)
  }

  /** `kill` and `send_signal` raise `NotStartedYet` without a pid; with one they send nothing
      and answer false when the process is not running, and otherwise send exactly the one
      signal and answer true. */
  lemma SignalSpec(pid: Option<int>, sig: Signal, alive: Alive, k: nat)
    ensures pid.None? ==> SignalOutcome(pid, sig, alive, k) == Effect(Err(NotStartedYet), [], k)
    ensures pid.Some? ==> SignalOutcome(pid, sig, alive, k).result == Ok(alive(pid.value, k))
    ensures pid.Some? ==> (SignalOutcome(pid, sig, alive, k).sent ==
      if alive(pid.value, k) then [(pid.value, sig)] else [])
  {
  }

  /** `stop` and `terminate` on a process that is not running answer false and send nothing;
      on a running one they answer true, send `sig` first, and follow it with SIGKILL exactly
      when every one of the `sig_timeout` polls and the probe of `kill` found it running. */
  lemma StopSpec(p: int, sig: Signal, timeout: int, alive: Alive, k: nat)
    ensures !alive(p, k) ==> StopOutcome(Some(p), sig, timeout, alive, k) == Effect(Ok(false), [], k + 1)
    ensures alive(p, k) ==> StopOutcome(Some(p), sig, timeout, alive, k).result == Ok(true)
    ensures alive(p, k) ==> (StopOutcome(Some(p), sig, timeout, alive, k).sent ==
      [(p, sig)] +
      (if (forall i :: k + 1 <= i < k + 1 + timeout ==> alive(p, i)) && alive(p, k + 1 + Polls(timeout))
       then [(p, SupervisedProcess.SigKill)] else []))
  {
    if alive(p, k) {
      PollSpec(p, timeout, alive, k + 1);
    }
  }

  /** Without a pid every stopping operation raises `NotStartedYet` and does nothing. */
  lemma StopWithoutPid(sig: Signal, timeout: int, alive: Alive, k: nat)
    ensures StopOutcome(None, sig, timeout, alive, k) == Effect(Err(NotStartedYet), [], k)
  {
  }

  // ---------------------------------------------------------------------------
  // The process

  /** The default `sig_timeout` of the constructor: how many one-second polls a stop waits. */
  const DefaultSigTimeout := 15

  class Process {
    const name: string
    const command: seq<string>
    const sigTimeout: int
    var pid: Option<int>
    var status: Status

    /** `__init__`: no pid and status NOTSTARTED. */
    constructor (name: string, command: seq<string>, sigTimeout: int)
      ensures this.name == name && this.command == command && this.sigTimeout == sigTimeout
      ensures pid == None && status == NotStarted
    {
      this.name := name;
      this.command := command;
      this.sigTimeout := sigTimeout;
      pid := None;
      status := NotStarted;
    }

    /** `start`: launches the worker thread, whatever the current status. What the thread does
        is `Run`. */
    method Start(os: Os)
      modifies os`threads
      ensures os.threads == old(os.threads) + [this]
    {
      os.threads := os.threads + [this];
    }

    /** The worker thread's `_start`: register, spawn the command, record its pid, wait for it,
        and set TERMINATED on a non-zero exit code and STOPPED on zero; whatever happens the
        registration is removed at the end. A failed spawn leaves pid and status alone. */
    method Run(registry: Registry, spawn: SupervisedProcess.Spawn, exitCode: int) returns (r: Result<(), Error>)
      modifies this, registry
      ensures r.Err? <==> spawn.SpawnFailed?
      ensures r.Err? ==> r.error == PopenFailed && pid == old(pid) && status == old(status)
      ensures r.Ok? ==> pid == Some(spawn.pid) && status == (if exitCode != 0 then Terminated else Stopped)
      ensures registry.live == SupervisedProcess.RemoveAll(old(registry.live) + [this], this)
    {
      registry.Add(this);
      match spawn {
        case SpawnFailed =>
          registry.Delete(this);
          return Err(PopenFailed);
        case Spawned(p) =>
          pid := Some(p);
          status := if exitCode != 0 then Terminated else Stopped;
          registry.Delete(this);
          return Ok(());
      }
    }

    /** `isrunning` and `_isrunning`. */
    method IsRunning(os: Os, alive: Alive) returns (r: Result<bool, Error>)
      modifies os`probes
      ensures r == Probe(pid, alive, old(os.probes))
      ensures os.probes == old(os.probes) + (if pid.Some? then 1 else 0)
    {
      if pid.None? {
        return Err(NotStartedYet);
      }
      r := Ok(alive(pid.value, os.probes));
      os.probes := os.probes + 1;
    }

    /** `_isstopped`: count down from `sig_timeout`, one poll a second, and answer true as soon
        as a poll finds the process gone. */
    method IsStopped(os: Os, alive: Alive) returns (r: Result<bool, Error>)
      modifies os`probes
      ensures r == Poll(pid, sigTimeout, alive, old(os.probes)).0
      ensures os.probes == Poll(pid, sigTimeout, alive, old(os.probes)).1
    {
      var count := sigTimeout;
      while count > 0
        invariant Poll(pid, count, alive, os.probes) == Poll(pid, sigTimeout, alive, old(os.probes))
        decreases count
      {
        var running :- IsRunning(os, alive);
        if running {
          count := count - 1;
        } else {
          return Ok(true);
        }
      }
      return Ok(false);
    }

    /** `kill`. */
    method Kill(os: Os, alive: Alive) returns (r: Result<bool, Error>)
      modifies os`probes, os`sent
      ensures r == SignalOutcome(pid, SupervisedProcess.SigKill, alive, old(os.probes)).result
      ensures os.sent == old(os.sent) + SignalOutcome(pid, SupervisedProcess.SigKill, alive, old(os.probes)).sent
      ensures os.probes == SignalOutcome(pid, SupervisedProcess.SigKill, alive, old(os.probes)).probes
    {
      var running :- IsRunning(os, alive);
      if !running {
        return Ok(false);
      }
      os.sent := os.sent + [(pid.value, SupervisedProcess.SigKill)];
      return Ok(true);
    }

    /** `send_signal`. */
    method SendSignal(sig: Signal, os: Os, alive: Alive) returns (r: Result<bool, Error>)
      modifies os`probes, os`sent
      ensures r == SignalOutcome(pid, sig, alive, old(os.probes)).result
      ensures os.sent == old(os.sent) + SignalOutcome(pid, sig, alive, old(os.probes)).sent
      ensures os.probes == SignalOutcome(pid, sig, alive, old(os.probes)).probes
    {
      var running :- IsRunning(os, alive);
      if !running {
        return Ok(false);
      }
      os.sent := os.sent + [(pid.value, sig)];
      return Ok(true);
    }

    /** The body shared by `stop` and `terminate`: send `sig`, wait for the process to go, and
        kill it when it does not. */
    method StopWith(sig: Signal, os: Os, alive: Alive) returns (r: Result<bool, Error>)
      modifies os`probes, os`sent
      ensures r == StopOutcome(pid, sig, sigTimeout, alive, old(os.probes)).result
      ensures os.sent == old(os.sent) + StopOutcome(pid, sig, sigTimeout, alive, old(os.probes)).sent
      ensures os.probes == StopOutcome(pid, sig, sigTimeout, alive, old(os.probes)).probes
    {
      var running :- IsRunning(os, alive);
      if !running {
        return Ok(false);
      }
      os.sent := os.sent + [(pid.value, sig)];
      var stopped :- IsStopped(os, alive);
      if !stopped {
        var _ := Kill(os, alive);
      }
      return Ok(true);
    }

    /** `stop`: SIGINT, then SIGKILL if the process outlives `sig_timeout` polls. */
    method Stop(os: Os, alive: Alive) returns (r: Result<bool, Error>)
      modifies os`probes, os`sent
      ensures r == StopOutcome(pid, SupervisedProcess.SigInt, sigTimeout, alive, old(os.probes)).result
      ensures os.sent == old(os.sent) + StopOutcome(pid, SupervisedProcess.SigInt, sigTimeout, alive, old(os.probes)).sent
      ensures os.probes == StopOutcome(pid, SupervisedProcess.SigInt, sigTimeout, alive, old(os.probes)).probes
    {
      r := StopWith(SupervisedProcess.SigInt, os, alive);
    }

    /** `terminate`: SIGTERM, then SIGKILL if the process outlives `sig_timeout` polls. */
    method Terminate(os: Os, alive: Alive) returns (r: Result<bool, Error>)
      modifies os`probes, os`sent
      ensures r == StopOutcome(pid, SupervisedProcess.SigTerm, sigTimeout, alive, old(os.probes)).result
      ensures os.sent == old(os.sent) + StopOutcome(pid, SupervisedProcess.SigTerm, sigTimeout, alive, old(os.probes)).sent
      ensures os.probes == StopOutcome(pid, SupervisedProcess.SigTerm, sigTimeout, alive, old(os.probes)).probes
    {
      r := StopWith(SupervisedProcess.SigTerm, os, alive);
    }
  }
}
