/** A worker OS process as the pool sees it: launched with the pool's address, its id
    and the concurrency level in its environment, and alive until it is killed. */
module WorkerProcess {
  import opened Psl
  import opened OperatingSystem
  import Worker

  const WINDOWS_FAMILY: string := "Windows"
  const WINDOWS_WRAPPER_START: string := "cmd /V:ON /E:ON /D /C ("
  const WINDOWS_WRAPPER_END: string := ")"

  /** The command line that runs `script` with the PHP binary. */
  function CommandLine(phpBinary: string, script: string, osFamily: string): (r: string)
    ensures osFamily != WINDOWS_FAMILY ==> r == phpBinary + " " + script
    ensures osFamily == WINDOWS_FAMILY
      ==> r == WINDOWS_WRAPPER_START + phpBinary + " " + script + WINDOWS_WRAPPER_END
  {
    var line := Join([phpBinary, script], " ");
    assert Join([script], " ") == script;
    if osFamily == WINDOWS_FAMILY then WINDOWS_WRAPPER_START + line + WINDOWS_WRAPPER_END else line
  }

  /** The environment a worker is launched with: the parent's, with the three worker
      variables set over whatever it held (the id and level as integers). */
  function SpawnEnvironment(parent: map<string, string>, server: string, id: PhpInt, concurrencyLevel: PhpInt)
    : (r: map<string, EnvValue>)
    ensures r.Keys == parent.Keys + {Worker.SERVER_VARIABLE, Worker.IDENTIFIER_VARIABLE, Worker.CONCURRENCY_LEVEL_VARIABLE}
    ensures r[Worker.SERVER_VARIABLE] == EnvString(server)
    ensures r[Worker.IDENTIFIER_VARIABLE] == EnvInt(id)
    ensures r[Worker.CONCURRENCY_LEVEL_VARIABLE] == EnvInt(concurrencyLevel)
    ensures forall k | k in parent && k != Worker.SERVER_VARIABLE && k != Worker.IDENTIFIER_VARIABLE
      && k != Worker.CONCURRENCY_LEVEL_VARIABLE :: r[k] == EnvString(parent[k])
  {
    Merge(FromStrings(parent), map[
      Worker.SERVER_VARIABLE := EnvString(server),
      Worker.IDENTIFIER_VARIABLE := EnvInt(id),
      Worker.CONCURRENCY_LEVEL_VARIABLE := EnvInt(concurrencyLevel)
    ])
  }

  /** A worker launched for a pool listening on a Unix socket reads back exactly the
      id, concurrency level and address it was launched with. */
  lemma SpawnEnvironmentConfiguresWorker(
    parent: map<string, string>, path: string, id: PhpInt, concurrencyLevel: PhpInt,
    parseUrl: string -> Worker.UrlComponents)
    ensures Worker.Create(ChildEnvironment(SpawnEnvironment(parent, AddressToString(UnixAddress(path)), id, concurrencyLevel)), parseUrl)
      == Success(Worker.Worker(id, concurrencyLevel, UnixAddress(path)))
  {
    ToIntCanonical(IntToString(id), id);
    ToIntCanonical(IntToString(concurrencyLevel), concurrencyLevel);
    Worker.UnixAddressRoundTrip(path, parseUrl);
  }

  /** The proc_open call that launches worker `id` as process `pid`. */
  function Launch(host: Host, pid: nat, server: Address, script: string, id: PhpInt, concurrencyLevel: PhpInt): SysEvent {
    Launched(pid, CommandLine(host.phpBinary, script, host.osFamily),
      SpawnEnvironment(host.environment, AddressToString(server), id, concurrencyLevel))
  }

  datatype ProcessError = WorkerKilled

  /** What of a worker process `kill` looks at. */
  datatype ProcessState = ProcessState(process: Option<nat>, stdout: Pipe, stderr: Pipe)

  /** The actions `kill` takes on a process in state `s`. */
  function KillEvents(s: ProcessState): seq<SysEvent> {
    match s.process
    case Some(pid) => [PipeClosed(s.stdout), PipeClosed(s.stderr), Terminated(pid)]
    case None => []
  }

  /** The actions of killing processes in the given states, one after the other. */
  function KillAll(states: seq<ProcessState>): seq<SysEvent> {
    if states == [] then [] else KillEvents(states[0]) + KillAll(states[1..])
  }

  lemma {:induction false} KillAllAppend(states: seq<ProcessState>, s: ProcessState)
    ensures KillAll(states + [s]) == KillAll(states) + KillEvents(s)
  {
    if states == [] {
      assert states + [s] == [s];
    } else {
      assert (states + [s])[1..] == states[1..] + [s];
      KillAllAppend(states[1..], s);
    }
  }

  /** Killing one more process after the first `i` appends its actions. */
  lemma KillAllPrefix(states: seq<ProcessState>, i: nat)
    requires i < |states|
    ensures KillAll(states[..i + 1]) == KillAll(states[..i]) + KillEvents(states[i])
  {
    assert states[..i + 1] == states[..i] + [states[i]];
    KillAllAppend(states[..i], states[i]);
  }

  /** The pids of the live processes among `states`, in order. */
  function LivePids(states: seq<ProcessState>): seq<nat> {
    if states == [] then []
    else (if states[0].process.Some? then [states[0].process.value] else []) + LivePids(states[1..])
  }

  /** The pids `events` terminate, in order. */
  function TerminatedPids(events: seq<SysEvent>): seq<nat> {
    if events == [] then []
    else (if events[0].Terminated? then [events[0].process] else []) + TerminatedPids(events[1..])
  }

  lemma {:induction false} TerminatedPidsAppend(a: seq<SysEvent>, b: seq<SysEvent>)
    ensures TerminatedPids(a + b) == TerminatedPids(a) + TerminatedPids(b)
  {
    if a == [] {
      assert a + b == b;
    } else {
      var h := if a[0].Terminated? then [a[0].process] else [];
      assert (a + b)[0] == a[0];
      assert (a + b)[1..] == a[1..] + b;
      assert TerminatedPids(a + b) == h + TerminatedPids(a[1..] + b);
      TerminatedPidsAppend(a[1..], b);
      assert h + (TerminatedPids(a[1..]) + TerminatedPids(b)) == (h + TerminatedPids(a[1..])) + TerminatedPids(b);
    }
  }

  /** Killing a live process terminates it once; killing a dead one terminates nothing. */
  lemma KillTerminatesOnce(s: ProcessState)
    ensures TerminatedPids(KillEvents(s)) == if s.process.Some? then [s.process.value] else []
  {
    var e := KillEvents(s);
    if s.process.Some? {
      var pid := s.process.value;
      assert e[1..] == [PipeClosed(s.stderr), Terminated(pid)];
      assert e[1..][1..] == [Terminated(pid)];
      assert e[1..][1..][1..] == [];
      assert TerminatedPids(e[1..][1..]) == [pid];
      assert TerminatedPids(e[1..]) == [pid];
    }
  }

  /** Killing processes terminates every live one exactly once, in order, and no other. */
  lemma {:induction false} KillAllTerminatesLive(states: seq<ProcessState>)
    ensures TerminatedPids(KillAll(states)) == LivePids(states)
  {
    if states != [] {
      KillAllTerminatesLive(states[1..]);
      KillTerminatesOnce(states[0]);
      TerminatedPidsAppend(KillEvents(states[0]), KillAll(states[1..]));
    }
  }

  /** Killing processes that are all dead already does nothing at all. */
  lemma {:induction false} KillAllOfKilled(states: seq<ProcessState>)
    requires forall s | s in states :: s.process.None?
    ensures KillAll(states) == []
  {
    if states != [] {
      assert states[0] in states;
      KillAllOfKilled(states[1..]);
    }
  }

  class WorkerProcess {
    const id: PhpInt
    /** The process handle; `None` once the worker was killed. */
    var process: Option<nat>
    const stdout: Pipe
    const stderr: Pipe

    constructor (id: PhpInt, process: Option<nat>, stdout: Pipe, stderr: Pipe)
      ensures this.id == id && this.process == process
      ensures this.stdout == stdout && this.stderr == stderr
    {
      this.id := id;
      this.process := process;
      this.stdout := stdout;
      this.stderr := stderr;
    }

    /** WorkerProcess::spawn: launch `script` with the pool's address, `id` and
        `concurrencyLevel` in its environment, its stdout and stderr piped back. */
    static method Spawn(host: Host, server: Address, script: string, id: PhpInt, concurrencyLevel: PhpInt)
      returns (w: WorkerProcess)
      modifies host
      ensures fresh(w) && w.id == id
      ensures w.process == Some(old(host.nextPid))
      ensures w.stdout == Pipe(old(host.nextPid), 1) && w.stderr == Pipe(old(host.nextPid), 2)
      ensures host.nextPid == old(host.nextPid) + 1 && host.nextConnection == old(host.nextConnection)
      ensures host.log == old(host.log) + [Launch(host, old(host.nextPid), server, script, id, concurrencyLevel)]
    {
      var commandLine := CommandLine(host.phpBinary, script, host.osFamily);
      var environment := SpawnEnvironment(host.environment, AddressToString(server), id, concurrencyLevel);
      var pid := host.ProcOpen(commandLine, environment);
      w := new WorkerProcess(id, Some(pid), Pipe(pid, 1), Pipe(pid, 2));
    }

    function State(): ProcessState
      reads this
    {
      ProcessState(process, stdout, stderr)
    }

    /** The id the worker was spawned with; no operation changes it, kill included. */
    function GetId(): (r: PhpInt)
      ensures r == id
    {
      id
    }

    /** The stdout pipe, which can no longer be had once the worker was killed. */
    function GetStdout(): (r: Result<Pipe, ProcessError>)
      reads this
      ensures r.Success? <==> process.Some?
      ensures r.Success? ==> r.value == stdout
      ensures r.Failure? ==> r.error == WorkerKilled
    {
      if process.None? then Failure(WorkerKilled) else Success(stdout)
    }

    /** The stderr pipe, which can no longer be had once the worker was killed. */
    function GetStderr(): (r: Result<Pipe, ProcessError>)
      reads this
      ensures r.Success? <==> process.Some?
      ensures r.Success? ==> r.value == stderr
      ensures r.Failure? ==> r.error == WorkerKilled
    {
      if process.None? then Failure(WorkerKilled) else Success(stderr)
    }

    /** WorkerProcess::kill: close both pipes, forget the handle and terminate the
        process; nothing at all when it was killed before. */
    method Kill(host: Host)
      modifies this, host
      ensures process.None?
      ensures host.log == old(host.log) + KillEvents(old(State()))
      ensures host.nextPid == old(host.nextPid) && host.nextConnection == old(host.nextConnection)
    {
      if process.None? {
        return;
      }
      host.Record(PipeClosed(stdout));
      host.Record(PipeClosed(stderr));
      var pid := process.value;
      process := None;
      host.Record(Terminated(pid));
    }
  }

  /** Killing twice terminates the process once: the second kill takes no action. */
  method KillTwice(w: WorkerProcess, host: Host)
    modifies w, host
    ensures w.process.None?
    ensures host.log == old(host.log) + KillEvents(old(w.State()))
    ensures TerminatedPids(host.log) == TerminatedPids(old(host.log))
      + if old(w.process).Some? then [old(w.process).value] else []
  {
    w.Kill(host);
    ghost var once := host.log;
    w.Kill(host);
    assert host.log == once;
    KillTerminatesOnce(old(w.State()));
    TerminatedPidsAppend(old(host.log), KillEvents(old(w.State())));
  }
}
