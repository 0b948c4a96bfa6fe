/** The asyncio process supervisor of lib/BlackPearl/server/core/process.py: a module-level
    registry of live processes and a `Process` whose guarded lifecycle notifies status listeners.

    Each coroutine is split at its `yield from` points into one method per resumption. What the
    operating system answers (whether the spawn succeeded, the exit code, whether `os.kill(pid, 0)`
    succeeds, whether a wait timed out) arrives as parameters, and what a status listener does
    when called comes from a `Respond` oracle. */
module SupervisedProcess {
  import opened Wrappers
  import opened ServiceStatus

  /** Signals the supervisor sends with `os.kill`. */
  datatype Signal = SigInt | SigTerm | SigKill | Numbered(n: int)

  /** Exceptions raised out of the supervisor's methods. */
  datatype Error =
    | InvalidState       // the operation is not allowed in the current status
    | NotStartedYet      // `is_running` on a process that never started
    | NotRestartedYet    // `is_running` while restarting
    | ListenerIndexError // `del self.listeners[i]` past the end of the shrunken list
    | WaitTimeout        // `asyncio.wait_for` gave up waiting for the stop event
    | MissingArgument    // `_is_stopped()` called without its `timeout` argument

  /** What a listener does when it is told a new status: it raises, or returns a value whose
      truthiness decides whether it stays registered. */
  datatype Outcome = Raises | Returns(truthy: bool)

  type ListenerId = nat
  type Respond = (ListenerId, Status) -> Outcome

  /** What `asyncio.create_subprocess_exec` produced. */
  datatype Spawn = SpawnFailed | Spawned(pid: int)

  /** How far a `start` coroutine got before it handed control back. */
  datatype StartStep = AwaitingSpawn | AwaitingExit | Finished | Raised(error: Error)

  /** How far a `stop` coroutine got before it handed control back. */
  datatype StopStep = AwaitingStopEvent | Returned(value: bool) | StopRaised(error: Error)

  // ---------------------------------------------------------------------------
  // The registry `_process`

  /** `s` with every occurrence of `x` removed, the rest in order. */
  function RemoveAll<T(==)>(s: seq<T>, x: T): (r: seq<T>)
    ensures x !in r
    ensures |r| <= |s|
    ensures forall y :: y in r ==> y in s
    decreases |s|
  {
    if s == [] then []
    else (if s[0] == x then [] else [s[0]]) + RemoveAll(s[1..], x)
  }

  lemma {:induction false} RemoveAllAppend<T>(a: seq<T>, b: seq<T>, x: T)
    ensures RemoveAll(a + b, x) == RemoveAll(a, x) + RemoveAll(b, x)
    decreases |a|
  {
    if a == [] {
      assert a + b == b;
    } else {
      assert (a + b)[1..] == a[1..] + b;
      RemoveAllAppend(a[1..], b, x);
    }
  }

  /** Removing every occurrence of `x` keeps each other element as often as it was present. */
  lemma {:induction false} RemoveAllMultiset<T>(s: seq<T>, x: T)
    ensures multiset(RemoveAll(s, x)) == multiset(s)[x := 0]
    decreases |s|
  {
    if s != [] {
      RemoveAllMultiset(s[1..], x);
      assert s == [s[0]] + s[1..];
    }
  }

  lemma {:induction false} RemoveAllAbsent<T>(s: seq<T>, x: T)
    requires x !in s
    ensures RemoveAll(s, x) == s
    decreases |s|
  {
    if s != [] {
      RemoveAllAbsent(s[1..], x);
      assert s == [s[0]] + s[1..];
    }
  }

  /** The module-level list of processes whose `start` coroutine is running. */
  class Registry {
    var live: seq<Process>

    constructor ()
      ensures live == []
    {
      live := [];
    }

    /** `add_process`: append. */
    method Add(p: Process)
      modifies this
      ensures live == old(live) + [p]
    {
      live := live + [p];
    }

    /** `delete_process`: a descending index loop that deletes every occurrence of `p`. */
    method Delete(p: Process)
      modifies this
      ensures live == RemoveAll(old(live), p)
    {
      ghost var before := live;
      var i := |live|;
      assert before[i..] == [];
      while i > 0
        invariant 0 <= i <= |before|
        invariant live == before[..i] + RemoveAll(before[i..], p)
        decreases i
      {
        i := i - 1;
        assert before[i..][1..] == before[i+1..];
        assert live[i] == before[i];
        if live[i] == p {
          live := live[..i] + live[i+1..];
          assert before[..i+1][..i] == before[..i];
        } else {
          assert before[..i+1] == before[..i] + [before[i]];
        }
      }
      assert before[..0] == [];
    }
  }

  // ---------------------------------------------------------------------------
  // Status listeners

  /** The indices, below `n`, of the listeners that return a falsy value for status `s`,
      in ascending order: the `to_del` list `_set_status` builds. */
  function FalsyIndices(ls: seq<ListenerId>, s: Status, respond: Respond, n: nat): (r: seq<nat>)
    requires n <= |ls|
    ensures forall j :: 0 <= j < |r| ==> r[j] < n
    ensures forall j, k :: 0 <= j < k < |r| ==> r[j] < r[k]
    ensures forall i :: 0 <= i < n ==> (i in r <==> respond(ls[i], s) == Returns(false))
    decreases n
  {
    if n == 0 then []
    else FalsyIndices(ls, s, respond, n - 1) + (if respond(ls[n - 1], s) == Returns(false) then [n - 1] else [])
  }

  /** `for i in to_del: del listeners[i]`: the list after the deletions, and whether they all
      succeeded (false when an index is past the end of the list at the time of its deletion). */
  function DeleteEach(ls: seq<ListenerId>, idx: seq<nat>): (seq<ListenerId>, bool)
    decreases |idx|
  {
    if idx == [] then (ls, true)
    else if idx[0] < |ls| then DeleteEach(ls[..idx[0]] + ls[idx[0] + 1..], idx[1..])
    else (ls, false)
  }

  /** The listener list and the success of `_set_status(s)` run on `ls`. */
  function Notify(ls: seq<ListenerId>, s: Status, respond: Respond): (seq<ListenerId>, bool)
  {
    DeleteEach(ls, FalsyIndices(ls, s, respond, |ls|))
  }

  /** The first loop of `_set_status`: every listener is called in order, and the indices of
      those returning a falsy value are collected. */
  method CollectFalsy(ls: seq<ListenerId>, s: Status, respond: Respond) returns (toDel: seq<nat>)
    ensures toDel == FalsyIndices(ls, s, respond, |ls|)
  {
    toDel := [];
    var i := 0;
    while i < |ls|
      invariant 0 <= i <= |ls|
      invariant toDel == FalsyIndices(ls, s, respond, i)
    {
      var ret := respond(ls[i], s);
      if ret == Returns(false) {
        toDel := toDel + [i];
      }
      i := i + 1;
    }
  }

  /** The second loop of `_set_status`: `del listeners[i]` for each collected index in turn,
      stopping with false at the first index past the end of the shrunken list. */
  method DeleteIndices(ls: seq<ListenerId>, idx: seq<nat>) returns (r: seq<ListenerId>, ok: bool)
    ensures (r, ok) == DeleteEach(ls, idx)
  {
    r := ls;
    var j := 0;
    while j < |idx|
      invariant 0 <= j <= |idx|
      invariant DeleteEach(r, idx[j..]) == DeleteEach(ls, idx)
      decreases |idx| - j
    {
      if idx[j] >= |r| {
        return r, false;
      }
      r := r[..idx[j]] + r[idx[j] + 1..];
      assert idx[j..][1..] == idx[j + 1..];
      j := j + 1;
    }
    ok := true;
  }

  /** The listeners below `n` that do not return a falsy value: what deleting exactly the
      falsy listeners would keep. */
  function Kept(ls: seq<ListenerId>, s: Status, respond: Respond, n: nat): seq<ListenerId>
    requires n <= |ls|
    decreases n
  {
    if n == 0 then []
    else Kept(ls, s, respond, n - 1) + (if respond(ls[n - 1], s) == Returns(false) then [] else [ls[n - 1]])
  }

  lemma {:induction false} KeptAllAbove(ls: seq<ListenerId>, s: Status, respond: Respond, n: nat, k: int)
    requires n <= |ls|
    requires forall i :: 0 <= i < n && i != k ==> respond(ls[i], s) != Returns(false)
    ensures k < 0 || k >= n ==> Kept(ls, s, respond, n) == ls[..n]
    ensures 0 <= k < n && respond(ls[k], s) == Returns(false) ==>
      Kept(ls, s, respond, n) == ls[..k] + ls[k + 1..n]
    decreases n
  {
    if n > 0 {
      KeptAllAbove(ls, s, respond, n - 1, k);
      assert ls[..n] == ls[..n - 1] + [ls[n - 1]];
      if 0 <= k < n - 1 {
        assert ls[k + 1..n] == ls[k + 1..n - 1] + [ls[n - 1]];
      }
    }
  }

  lemma NoneFalsyKeepsAll(ls: seq<ListenerId>, s: Status, respond: Respond)
    requires FalsyIndices(ls, s, respond, |ls|) == []
    ensures Notify(ls, s, respond) == (Kept(ls, s, respond, |ls|), true)
  {
    forall i | 0 <= i < |ls| ensures respond(ls[i], s) != Returns(false) {
      assert i !in FalsyIndices(ls, s, respond, |ls|);
    }
    KeptAllAbove(ls, s, respond, |ls|, -1);
    assert ls[..|ls|] == ls;
  }

  lemma OneFalsyDeletesIt(ls: seq<ListenerId>, s: Status, respond: Respond, k: nat)
    requires FalsyIndices(ls, s, respond, |ls|) == [k]
    ensures Notify(ls, s, respond) == (Kept(ls, s, respond, |ls|), true)
  {
    var idx := FalsyIndices(ls, s, respond, |ls|);
    assert k < |ls| && respond(ls[k], s) == Returns(false) by {
      assert idx[0] == k;
    }
    forall i | 0 <= i < |ls| && i != k ensures respond(ls[i], s) != Returns(false) {
      assert i !in [k];
    }
    KeptAllAbove(ls, s, respond, |ls|, k);
    assert ls[k + 1..|ls|] == ls[k + 1..];
    DeleteOne(ls, k);
  }

  /** Deleting one index inside the list succeeds and removes that element. */
  lemma DeleteOne(ls: seq<ListenerId>, k: nat)
    requires k < |ls|
    ensures DeleteEach(ls, [k]) == (ls[..k] + ls[k + 1..], true)
  {
    assert [k][1..] == [];
  }

  /** With at most one falsy listener, `_set_status` deletes exactly the falsy listeners. */
  lemma NotifySingleDeletionExact(ls: seq<ListenerId>, s: Status, respond: Respond)
    requires |FalsyIndices(ls, s, respond, |ls|)| <= 1
    ensures Notify(ls, s, respond) == (Kept(ls, s, respond, |ls|), true)
  {
    var idx := FalsyIndices(ls, s, respond, |ls|);
    if idx == [] {
      NoneFalsyKeepsAll(ls, s, respond);
    } else {
      assert idx == [idx[0]];
      OneFalsyDeletesIt(ls, s, respond, idx[0]);
    }
  }

  /** With three listeners of which the first two return a falsy value, the ascending deletions
      shift: the first listener and the truthy third one are deleted, and the falsy second one
      stays registered. */
  lemma NotifyDeletionShift(a: ListenerId, b: ListenerId, c: ListenerId, s: Status, respond: Respond)
    requires respond(a, s) == Returns(false) && respond(b, s) == Returns(false)
    requires respond(c, s) == Returns(true)
    ensures Notify([a, b, c], s, respond) == ([b], true)
  {
    var ls := [a, b, c];
    assert ls[0] == a && ls[1] == b && ls[2] == c;
    var f0 := FalsyIndices(ls, s, respond, 0);
    assert f0 == [];
    var f1 := FalsyIndices(ls, s, respond, 1);
    assert f1 == f0 + [0];
    var f2 := FalsyIndices(ls, s, respond, 2);
    assert f2 == f1 + [1];
    var f3 := FalsyIndices(ls, s, respond, 3);
    assert f3 == f2;
    assert f3 == [0, 1];
    assert ls[..0] + ls[1..] == [b, c];
    assert [b, c][..1] + [b, c][2..] == [b];
    assert [0, 1][1..] == [1];
    assert DeleteEach(ls, [0, 1]) == DeleteEach([b, c], [1]);
    assert DeleteEach([b, c], [1]) == DeleteEach([b], []);
  }

  /** With two listeners that both return a falsy value, the second deletion is past the end of
      the list: the first listener is deleted and `_set_status` raises IndexError. */
  lemma NotifyDeletionOverrun(a: ListenerId, b: ListenerId, s: Status, respond: Respond)
    requires respond(a, s) == Returns(false) && respond(b, s) == Returns(false)
    ensures Notify([a, b], s, respond) == ([b], false)
  {
    var ls := [a, b];
    assert ls[0] == a && ls[1] == b;
    var f0 := FalsyIndices(ls, s, respond, 0);
    assert f0 == [];
    var f1 := FalsyIndices(ls, s, respond, 1);
    assert f1 == f0 + [0];
    var f2 := FalsyIndices(ls, s, respond, 2);
    assert f2 == f1 + [1];
    assert ls[..0] + ls[1..] == [b];
    assert [0, 1][1..] == [1];
    assert DeleteEach(ls, [0, 1]) == DeleteEach([b], [1]);
  }

  // ---------------------------------------------------------------------------
  // The process

  /** Statuses from which `start` is allowed. */
  predicate CanStart(s: Status)
  {
    s == NotStarted || s == Stopped || s == Terminated || s == StartFailed || s == Restarting
  }

  /** Statuses from which `stop` is allowed. */
  predicate CanStop(s: Status)
  {
    s == Started || s == Restarting
  }

  class Process {
    const name: string
    const command: seq<string>
    const env: seq<(string, string)>
    /** Whether `self.process` holds a subprocess handle, and that handle's pid. */
    var hasHandle: bool
    var pid: int
    /** Whether `process_stop_event` is set. */
    var stopEventSet: bool
    var status: Status
    var listeners: seq<ListenerId>
    /** Every signal sent with `os.kill`, in order, with the pid it was sent to. */
    var sent: seq<(int, Signal)>

    constructor (name: string, command: seq<string>, env: seq<(string, string)>)
      ensures this.name == name && this.command == command && this.env == env
      ensures !hasHandle && !stopEventSet && status == NotStarted
      ensures listeners == [] && sent == []
    {
      this.name := name;
      this.command := command;
      this.env := env;
      hasHandle := false;
      pid := 0;
      stopEventSet := false;
      status := NotStarted;
      listeners := [];
      sent := [];
    }

    /** `_is_running`: a handle with a non-negative pid to which `os.kill(pid, 0)` succeeds;
        `alive` is whether that probe succeeds. */
    predicate Live(alive: bool)
      reads this
    {
      hasHandle && pid >= 0 && alive
    }

    /** `add_status_listener`: append, with no check of the callback. */
    method AddStatusListener(l: ListenerId)
      modifies this`listeners
      ensures listeners == old(listeners) + [l]
    {
      listeners := listeners + [l];
    }

    /** `_set_status`: store the status, call every listener in order, then delete the ones that
        returned a falsy value, by ascending index as written. Returns false when a deletion
        raised IndexError. */
    method SetStatus(s: Status, respond: Respond) returns (ok: bool)
      modifies this`status, this`listeners
      ensures status == s
      ensures (listeners, ok) == Notify(old(listeners), s, respond)
    {
      status := s;
      var toDel := CollectFalsy(listeners, s, respond);
      var ls;
      ls, ok := DeleteIndices(listeners, toDel);
      listeners := ls;
    }

    /** The `except` and `finally` clauses of `start`: STARTFAILED, then the stop event is set and
        the process leaves the registry. A listener failure inside the handler propagates. */
    method FailStart(reg: Registry, respond: Respond) returns (r: StartStep)
      modifies this`status, this`listeners, this`stopEventSet, reg
      ensures status == StartFailed && stopEventSet
      ensures reg.live == RemoveAll(old(reg.live), this)
      ensures (listeners, r == Finished) == Notify(old(listeners), StartFailed, respond)
      ensures r == Finished || r == Raised(ListenerIndexError)
    {
      var ok := SetStatus(StartFailed, respond);
      stopEventSet := true;
      reg.Delete(this);
      r := if ok then Finished else Raised(ListenerIndexError);
    }

    /** `start` up to its first `yield from`: the status guard, registration, STARTING and
        clearing the stop event. */
    method StartBegin(reg: Registry, respond: Respond) returns (r: StartStep)
      modifies this`status, this`listeners, this`stopEventSet, reg
      ensures !CanStart(old(status)) ==>
        r == Raised(InvalidState) && status == old(status) && listeners == old(listeners)
        && stopEventSet == old(stopEventSet) && reg.live == old(reg.live)
      ensures CanStart(old(status)) ==> r != Raised(InvalidState)
      ensures CanStart(old(status)) ==>
        var (ls, ok) := Notify(old(listeners), Starting, respond);
        if ok then
          r == AwaitingSpawn && status == Starting && !stopEventSet && listeners == ls
          && reg.live == old(reg.live) + [this]
        else
          status == StartFailed && stopEventSet && reg.live == RemoveAll(old(reg.live) + [this], this)
          && (listeners, r == Finished) == Notify(ls, StartFailed, respond)
    {
      if !CanStart(status) {
        return Raised(InvalidState);
      }
      reg.Add(this);
      var ok := SetStatus(Starting, respond);
      if !ok {
        r := FailStart(reg, respond);
        return;
      }
      stopEventSet := false;
      r := AwaitingSpawn;
    }

    /** `start` resumed after `create_subprocess_exec`: keep the handle, then STARTED. */
    method OnSpawned(reg: Registry, spawn: Spawn, respond: Respond) returns (r: StartStep)
      modifies this`hasHandle, this`pid, this`status, this`listeners, this`stopEventSet, reg
      ensures spawn.SpawnFailed? ==>
        status == StartFailed && stopEventSet && hasHandle == old(hasHandle) && pid == old(pid)
        && reg.live == RemoveAll(old(reg.live), this)
        && (listeners, r == Finished) == Notify(old(listeners), StartFailed, respond)
      ensures spawn.Spawned? ==> hasHandle && pid == spawn.pid
      ensures spawn.Spawned? ==>
        var (ls, ok) := Notify(old(listeners), Started, respond);
        if ok then
          r == AwaitingExit && status == Started && listeners == ls
          && stopEventSet == old(stopEventSet) && reg.live == old(reg.live)
        else
          status == StartFailed && stopEventSet && reg.live == RemoveAll(old(reg.live), this)
          && (listeners, r == Finished) == Notify(ls, StartFailed, respond)
    {
      if spawn.SpawnFailed? {
        r := FailStart(reg, respond);
        return;
      }
      hasHandle := true;
      pid := spawn.pid;
      var ok := SetStatus(Started, respond);
      if !ok {
        r := FailStart(reg, respond);
        return;
      }
      r := AwaitingExit;
    }

    /** `start` resumed after `process.wait()` returned `code`: STOPPED for 0, TERMINATED
        otherwise, unless a restart is under way; then the stop event is set and the process
        leaves the registry. */
    method OnExited(reg: Registry, code: int, respond: Respond) returns (r: StartStep)
      modifies this`status, this`listeners, this`stopEventSet, reg
      ensures stopEventSet && reg.live == RemoveAll(old(reg.live), this)
      ensures old(status) == Restarting ==>
        r == Finished && status == Restarting && listeners == old(listeners)
      ensures old(status) != Restarting ==>
        var target := if code != 0 then Terminated else Stopped;
        var (ls, ok) := Notify(old(listeners), target, respond);
        if ok then r == Finished && status == target && listeners == ls
        else status == StartFailed && (listeners, r == Finished) == Notify(ls, StartFailed, respond)
    {
      if status != Restarting {
        var ok := SetStatus(if code != 0 then Terminated else Stopped, respond);
        if !ok {
          r := FailStart(reg, respond);
          return;
        }
      }
      stopEventSet := true;
      reg.Delete(this);
      r := Finished;
    }

    /** `is_running`. */
    function IsRunning(alive: bool): (r: Result<bool, Error>)
      reads this
      ensures r == Ok(true) <==> status == Stopping || (status != Restarting && status != NotStarted && Live(alive))
      ensures r.Err? <==> status == Restarting || status == NotStarted
      ensures r == Err(NotStartedYet) <==> status == NotStarted
      ensures r == Err(NotRestartedYet) <==> status == Restarting
    {
      if status == Stopping then Ok(true)
      else if status == Restarting then Err(NotRestartedYet)
      else if status == NotStarted then Err(NotStartedYet)
      else Ok(Live(alive))
    }

    /** `kill`: SIGKILL when alive. */
    method Kill(alive: bool) returns (r: bool)
      modifies this`sent
      ensures r == Live(alive)
      ensures sent == if r then old(sent) + [(pid, SigKill)] else old(sent)
    {
      r := SendSignal(alive, SigKill);
    }

    /** `send_signal`: `sig` when alive. */
    method SendSignal(alive: bool, sig: Signal) returns (r: bool)
      modifies this`sent
      ensures r == Live(alive)
      ensures sent == if r then old(sent) + [(pid, sig)] else old(sent)
    {
      if !Live(alive) {
        return false;
      }
      sent := sent + [(pid, sig)];
      r := true;
    }

    /** `stop` up to its `yield from`: the status guard, STOPPING unless restarting, and SIGINT
        when the process is alive. */
    method StopBegin(alive: bool, respond: Respond) returns (r: StopStep)
      modifies this`status, this`listeners, this`sent
      ensures !CanStop(old(status)) ==>
        r == StopRaised(InvalidState) && status == old(status) && listeners == old(listeners) && sent == old(sent)
      ensures old(status) == Restarting ==> status == Restarting && listeners == old(listeners) && !r.StopRaised?
      ensures old(status) == Started ==>
        status == Stopping && (listeners, !r.StopRaised?) == Notify(old(listeners), Stopping, respond)
      ensures old(status) == Started && !Notify(old(listeners), Stopping, respond).1 ==>
        r == StopRaised(ListenerIndexError) && sent == old(sent)
      ensures CanStop(old(status)) && !r.StopRaised? ==>
        (r == Returned(false) <==> !Live(alive))
        && (r == AwaitingStopEvent <==> Live(alive))
        && sent == (if Live(alive) then old(sent) + [(pid, SigInt)] else old(sent))
      ensures r.StopRaised? ==> r.error == InvalidState || r.error == ListenerIndexError
    {
      if !CanStop(status) {
        return StopRaised(InvalidState);
      }
      if status != Restarting {
        var ok := SetStatus(Stopping, respond);
        if !ok {
          return StopRaised(ListenerIndexError);
        }
      }
      if !Live(alive) {
        return Returned(false);
      }
      sent := sent + [(pid, SigInt)];
      r := AwaitingStopEvent;
    }

    /** `stop` resumed after waiting for the stop event: a timeout propagates; otherwise the
        process is killed when still alive and `stop` returns True. `aliveAfter` is the liveness
        probe after the wait and `aliveAtKill` the one inside `kill`. */
    method StopAfterWait(timedOut: bool, aliveAfter: bool, aliveAtKill: bool) returns (r: StopStep)
      modifies this`sent
      ensures timedOut ==> r == StopRaised(WaitTimeout) && sent == old(sent)
      ensures !timedOut ==> r == Returned(true)
      ensures !timedOut && Live(aliveAfter) && Live(aliveAtKill) ==> sent == old(sent) + [(pid, SigKill)]
      ensures !timedOut && !(Live(aliveAfter) && Live(aliveAtKill)) ==> sent == old(sent)
    {
      if timedOut {
        return StopRaised(WaitTimeout);
      }
      if Live(aliveAfter) {
        var _ := Kill(aliveAtKill);
      }
      r := Returned(true);
    }

    /** `terminate` as written: allowed only from STARTED; sets STOPPING and sends SIGTERM when
        alive, and then raises TypeError, because `_is_stopped` is called without its timeout. */
    method Terminate(alive: bool, respond: Respond) returns (r: StopStep)
      modifies this`status, this`listeners, this`sent
      ensures old(status) != Started ==>
        r == StopRaised(InvalidState) && status == old(status) && listeners == old(listeners) && sent == old(sent)
      ensures old(status) == Started ==>
        status == Stopping &&
        var (ls, ok) := Notify(old(listeners), Stopping, respond);
        listeners == ls &&
        if !ok then r == StopRaised(ListenerIndexError) && sent == old(sent)
        else if !Live(alive) then r == Returned(false) && sent == old(sent)
        else r == StopRaised(MissingArgument) && sent == old(sent) + [(pid, SigTerm)]
    {
      if status != Started {
        return StopRaised(InvalidState);
      }
      var ok := SetStatus(Stopping, respond);
      if !ok {
        return StopRaised(ListenerIndexError);
      }
      if !Live(alive) {
        return Returned(false);
      }
      sent := sent + [(pid, SigTerm)];
      r := StopRaised(MissingArgument);
    }

    /** `restart` up to the `yield from` inside its `stop`: RESTARTING, then the first half of
        `stop`. An InvalidState from `stop` would be swallowed; it cannot arise, because the
        status is RESTARTING when `stop` checks it. */
    method RestartBegin(alive: bool, respond: Respond) returns (r: StopStep)
      modifies this`status, this`listeners, this`sent
      ensures status == Restarting
      ensures var (ls, ok) := Notify(old(listeners), Restarting, respond);
        listeners == ls &&
        if !ok then r == StopRaised(ListenerIndexError) && sent == old(sent)
        else if !Live(alive) then r == Returned(false) && sent == old(sent)
        else r == AwaitingStopEvent && sent == old(sent) + [(pid, SigInt)]
    {
      var ok := SetStatus(Restarting, respond);
      if !ok {
        return StopRaised(ListenerIndexError);
      }
      r := StopBegin(alive, respond);
    }

    /** `restart` once its `stop` has returned (without raising): the `start` that follows passes
        its guard because the status is still RESTARTING. */
    method RestartStart(reg: Registry, respond: Respond) returns (r: StartStep)
      requires status == Restarting
      modifies this`status, this`listeners, this`stopEventSet, reg
      ensures r != Raised(InvalidState)
      ensures var (ls, ok) := Notify(old(listeners), Starting, respond);
        if ok then
          r == AwaitingSpawn && status == Starting && !stopEventSet && listeners == ls
          && reg.live == old(reg.live) + [this]
        else
          status == StartFailed && stopEventSet && reg.live == RemoveAll(old(reg.live) + [this], this)
          && (listeners, r == Finished) == Notify(ls, StartFailed, respond)
    {
      r := StartBegin(reg, respond);
    }
  }
}
