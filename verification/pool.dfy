/** The parent side: a pool that listens on a Unix socket, launches its worker
    processes, hands work to the next worker connection after a ping/pong handshake,
    and stops by killing every worker before it stops listening. */
module Pool {
  import opened Psl
  import opened OperatingSystem
  import Worker
  import WorkerProcess

  const DEFAULT_WORKERS_COUNT: PhpInt := 8
  const DEFAULT_CONCURRENCY_LEVEL: PhpInt := 100

  /** The suffix appended to a temporary file's name to name the pool's socket. */
  const SOCKET_SUFFIX: string := ".sock"

  datatype PoolError =
    | ScriptNotReadable(script: string)
    | InvalidWorkersCount(workersCount: PhpInt)
    | InvalidConcurrencyLevel(concurrencyLevel: PhpInt)
    | ServerStopped

  /** The constructor's checks, in order: a readable script, then a positive number of
      workers, then a positive concurrency level. */
  function CheckArguments(readable: bool, script: string, workersCount: PhpInt, concurrencyLevel: PhpInt)
    : (r: Option<PoolError>)
    ensures r.None? <==> readable && workersCount >= 1 && concurrencyLevel >= 1
    ensures !readable ==> r == Some(ScriptNotReadable(script))
    ensures readable && workersCount < 1 ==> r == Some(InvalidWorkersCount(workersCount))
    ensures readable && workersCount >= 1 && concurrencyLevel < 1
      ==> r == Some(InvalidConcurrencyLevel(concurrencyLevel))
  {
    if !readable then Some(ScriptNotReadable(script))
    else if workersCount < 1 then Some(InvalidWorkersCount(workersCount))
    else if concurrencyLevel < 1 then Some(InvalidConcurrencyLevel(concurrencyLevel))
    else None
  }

  /** `events` are the launches of workers `0, 1, ...`, in order, the `k`th as process
      `firstPid + k`. */
  ghost predicate Launches(
    events: seq<SysEvent>, host: Host, firstPid: nat, server: Address, script: string, concurrencyLevel: PhpInt)
  {
    |events| <= PHP_INT_MAX
    && forall k | 0 <= k < |events| :: events[k] == WorkerProcess.Launch(host, firstPid + k, server, script, k, concurrencyLevel)
  }

  /** Launching the next worker, as the next process, extends the launches. */
  lemma LaunchesSnoc(
    events: seq<SysEvent>, host: Host, firstPid: nat, server: Address, script: string, concurrencyLevel: PhpInt,
    pid: nat, id: PhpInt)
    requires Launches(events, host, firstPid, server, script, concurrencyLevel)
    requires pid == firstPid + |events| && id == |events| < PHP_INT_MAX
    ensures Launches(events + [WorkerProcess.Launch(host, pid, server, script, id, concurrencyLevel)],
      host, firstPid, server, script, concurrencyLevel)
  {
    var longer := events + [WorkerProcess.Launch(host, pid, server, script, id, concurrencyLevel)];
    forall k | 0 <= k < |longer|
      ensures longer[k] == WorkerProcess.Launch(host, firstPid + k, server, script, k, concurrencyLevel)
    {
      if k < |events| {
        assert longer[k] == events[k];
      } else {
        assert k == id && firstPid + k == pid;
      }
    }
  }

  /** Every worker the pool launches runs the same script and, reading its
      environment, finds its own index as id, the pool's concurrency level and the
      pool's address. */
  lemma SpawnedWorkerIsConfigured(
    host: Host, pid: nat, path: string, script: string, concurrencyLevel: PhpInt, k: PhpInt,
    parseUrl: string -> Worker.UrlComponents)
    ensures var e := WorkerProcess.Launch(host, pid, UnixAddress(path), script, k, concurrencyLevel);
      && e.Launched?
      && e.pid == pid
      && e.commandLine == WorkerProcess.CommandLine(host.phpBinary, script, host.osFamily)
      && Worker.Create(ChildEnvironment(e.environment), parseUrl) == Success(Worker.Worker(k, concurrencyLevel, UnixAddress(path)))
  {
    WorkerProcess.SpawnEnvironmentConfiguresWorker(host.environment, path, k, concurrencyLevel, parseUrl);
  }

  /** What the pool does on a fresh connection before its closure starts: send the
      ping, consume the pong. */
  function Handshake(connection: nat): seq<SysEvent> {
    [Accepted(connection), Wrote(connection, Worker.MESSAGE_PING), Read(connection, Worker.MESSAGE_PONG_LENGTH)]
  }

  /** The bytes `events` write to `connection`, in order. */
  function Written(events: seq<SysEvent>, connection: nat): string {
    if events == [] then ""
    else
      (if events[0].Wrote? && events[0].connection == connection then events[0].data else "")
      + Written(events[1..], connection)
  }

  /** The number of bytes `events` read from `connection`. */
  function Requested(events: seq<SysEvent>, connection: nat): nat {
    if events == [] then 0
    else
      (if events[0].Read? && events[0].connection == connection then events[0].length else 0)
      + Requested(events[1..], connection)
  }

  /** Each side of the handshake reads exactly as many bytes as the other writes, so
      neither blocks and no handshake byte is left for the closure to read. */
  lemma HandshakesMatch(connection: nat)
    ensures Written(Handshake(connection), connection) == Worker.MESSAGE_PING
    ensures Written(Worker.Handshake(connection), connection) == Worker.MESSAGE_PONG
    ensures Requested(Worker.Handshake(connection), connection) == |Written(Handshake(connection), connection)|
    ensures Requested(Handshake(connection), connection) == |Written(Worker.Handshake(connection), connection)|
  {
    var pool := Handshake(connection);
    assert pool[1..][1..][1..] == [];
    assert Written(pool[1..][1..], connection) == "";
    assert Written(pool[1..], connection) == Worker.MESSAGE_PING;
    assert Requested(pool[1..][1..], connection) == Worker.MESSAGE_PONG_LENGTH;
    var worker := Worker.Handshake(connection);
    assert worker[1..][1..] == [];
    assert Written(worker[1..], connection) == Worker.MESSAGE_PONG;
    assert Requested(worker[1..], connection) == 0;
  }

  /** A closure started on a connection, standing for the awaitable `dispatch` returns. */
  datatype Job = Job(connection: nat)

  class Pool {
    const script: string
    /** The local address of the pool's server. */
    const address: Address
    const workers: seq<WorkerProcess.WorkerProcess>
    /** Whether the server still accepts connections. */
    var listening: bool

    /** Index `k` holds the worker launched with id `k`, for every `k` below the
        number of workers. */
    ghost predicate Valid() {
      |workers| >= 1 && forall k | 0 <= k < |workers| :: workers[k].id == k
    }

    constructor (script: string, address: Address, workers: seq<WorkerProcess.WorkerProcess>)
      requires |workers| >= 1 && forall k | 0 <= k < |workers| :: workers[k].id == k
      ensures Valid()
      ensures this.script == script && this.address == address && this.workers == workers
      ensures listening
    {
      this.script := script;
      this.address := address;
      this.workers := workers;
      listening := true;
    }

    /** Pool::__construct: check the arguments, listen on a socket next to a fresh
        temporary file, and launch `workersCount` workers with ids `0 .. workersCount-1`. */
    static method Create(
      host: Host, script: string, temporaryFile: string,
      workersCount: PhpInt := DEFAULT_WORKERS_COUNT, concurrencyLevel: PhpInt := DEFAULT_CONCURRENCY_LEVEL)
      returns (r: Result<Pool, PoolError>)
      modifies host
      ensures r.Failure? <==> CheckArguments(script in host.readable, script, workersCount, concurrencyLevel).Some?
      ensures r.Failure? ==>
        && Some(r.error) == CheckArguments(script in host.readable, script, workersCount, concurrencyLevel)
        && host.log == old(host.log) && host.nextPid == old(host.nextPid)
      ensures r.Success? ==>
        && fresh(r.value) && r.value.Valid() && r.value.listening
        && r.value.script == script && r.value.address == UnixAddress(temporaryFile + SOCKET_SUFFIX)
        && |r.value.workers| == workersCount
        && (forall k | 0 <= k < workersCount :: fresh(r.value.workers[k]))
        && (forall k | 0 <= k < workersCount ::
              && r.value.workers[k].process == Some(old(host.nextPid) + k)
              && r.value.workers[k].stdout == Pipe(old(host.nextPid) + k, 1)
              && r.value.workers[k].stderr == Pipe(old(host.nextPid) + k, 2))
        && |host.log| == |old(host.log)| + 1 + workersCount
        && host.log[..|old(host.log)| + 1] == old(host.log) + [Listening(r.value.address)]
        && Launches(host.log[|old(host.log)| + 1..], host, old(host.nextPid), r.value.address, script, concurrencyLevel)
        && host.nextPid == old(host.nextPid) + workersCount
      ensures host.nextConnection == old(host.nextConnection)
    {
      var check := CheckArguments(script in host.readable, script, workersCount, concurrencyLevel);
      if check.Some? {
        return Failure(check.value);
      }
      var address := UnixAddress(temporaryFile + SOCKET_SUFFIX);
      host.Record(Listening(address));
      var workers := SpawnWorkers(host, address, script, workersCount, concurrencyLevel);
      var pool := new Pool(script, address, workers);
      r := Success(pool);
    }

    /** The constructor's loop: launch workers `0 .. n-1`, in order, the `k`th as the
        `k`th next process. */
    static method SpawnWorkers(host: Host, address: Address, script: string, n: PhpInt, concurrencyLevel: PhpInt)
      returns (workers: seq<WorkerProcess.WorkerProcess>)
      requires n >= 0
      modifies host
      ensures |workers| == n
      ensures forall k | 0 <= k < n :: fresh(workers[k])
      ensures forall k | 0 <= k < n ::
        && workers[k].id == k
        && workers[k].process == Some(old(host.nextPid) + k)
        && workers[k].stdout == Pipe(old(host.nextPid) + k, 1) && workers[k].stderr == Pipe(old(host.nextPid) + k, 2)
      ensures |host.log| == |old(host.log)| + n && host.log[..|old(host.log)|] == old(host.log)
      ensures Launches(host.log[|old(host.log)|..], host, old(host.nextPid), address, script, concurrencyLevel)
      ensures host.nextPid == old(host.nextPid) + n && host.nextConnection == old(host.nextConnection)
    {
      workers := [];
      var first := host.nextPid;
      ghost var log0 := host.log;
      ghost var launched: seq<SysEvent> := [];
      var i: PhpInt := 0;
      while i < n
        invariant 0 <= i <= n
        invariant |workers| == i
        invariant host.nextPid == first + i && host.nextConnection == old(host.nextConnection)
        invariant forall k | 0 <= k < i ::
          && fresh(workers[k])
          && workers[k].id == k
          && workers[k].process == Some(first + k)
          && workers[k].stdout == Pipe(first + k, 1) && workers[k].stderr == Pipe(first + k, 2)
        invariant |launched| == i && host.log == log0 + launched
        invariant Launches(launched, host, first, address, script, concurrencyLevel)
      {
        ghost var launch := WorkerProcess.Launch(host, host.nextPid, address, script, i, concurrencyLevel);
        LaunchesSnoc(launched, host, first, address, script, concurrencyLevel, host.nextPid, i);
        var w := WorkerProcess.WorkerProcess.Spawn(host, address, script, i, concurrencyLevel);
        launched := launched + [launch];
        workers := workers + [w];
        i := i + 1;
      }
      assert host.log[|log0|..] == launched;
    }

    /** Pool::dispatch: take the next worker connection, send the ping, read the pong,
        and only then start the closure on that connection. */
    method Dispatch(host: Host) returns (r: Result<Job, PoolError>)
      modifies host
      ensures listening ==>
        && r.Success? && r.value.connection == old(host.nextConnection)
        && host.log == old(host.log) + Handshake(r.value.connection) + [Started(r.value.connection)]
      ensures !listening ==> r == Failure(ServerStopped) && host.log == old(host.log)
      ensures host.nextConnection == old(host.nextConnection) + if listening then 1 else 0
      ensures host.nextPid == old(host.nextPid)
    {
      if !listening {
        return Failure(ServerStopped);
      }
      var connection := host.Accept();
      host.Record(Wrote(connection, Worker.MESSAGE_PING));
      host.Record(Read(connection, Worker.MESSAGE_PONG_LENGTH));
      host.Record(Started(connection));
      r := Success(Job(connection));
    }

    /** Pool::getWorkerProcesses: the workers, worker `k` at index `k`. */
    function GetWorkerProcesses(): (r: seq<WorkerProcess.WorkerProcess>)
      requires Valid()
      ensures r == workers
      ensures |r| >= 1 && forall k | 0 <= k < |r| :: r[k].GetId() == k
    {
      workers
    }

    /** The state of every worker, in index order. */
    function Snapshot(): (s: seq<WorkerProcess.ProcessState>)
      reads workers
      ensures |s| == |workers| && forall k | 0 <= k < |workers| :: s[k] == workers[k].State()
    {
      seq(|workers|, k requires 0 <= k < |workers| reads workers => workers[k].State())
    }

    /** Pool::stop: kill every worker in index order, then stop listening. */
    method Stop(host: Host)
      requires Valid()
      modifies this, host, workers
      ensures !listening
      ensures forall k | 0 <= k < |workers| :: workers[k].process.None?
      ensures host.log == old(host.log) + WorkerProcess.KillAll(old(Snapshot())) + [ListeningStopped(address)]
      ensures host.nextPid == old(host.nextPid) && host.nextConnection == old(host.nextConnection)
    {
      KillWorkers(host);
      host.Record(ListeningStopped(address));
      listening := false;
    }

    /** The loop of `stop`: kill the workers one by one, in index order. */
    method KillWorkers(host: Host)
      requires Valid()
      modifies host, workers
      ensures forall k | 0 <= k < |workers| :: workers[k].process.None?
      ensures host.log == old(host.log) + WorkerProcess.KillAll(old(Snapshot()))
      ensures host.nextPid == old(host.nextPid) && host.nextConnection == old(host.nextConnection)
    {
      ghost var before := Snapshot();
      ghost var log0 := host.log;
      var i := 0;
      while i < |workers|
        invariant 0 <= i <= |workers|
        invariant forall k | 0 <= k < i :: workers[k].process.None?
        invariant forall k | i <= k < |workers| :: workers[k].process == before[k].process
        invariant host.log == log0 + WorkerProcess.KillAll(before[..i])
        invariant host.nextPid == old(host.nextPid) && host.nextConnection == old(host.nextConnection)
      {
        assert forall k | 0 <= k < |workers| && k != i :: workers[k] != workers[i];
        assert workers[i].State() == before[i];
        ghost var logged := host.log;
        workers[i].Kill(host);
        WorkerProcess.KillAllPrefix(before, i);
        assert host.log == log0 + WorkerProcess.KillAll(before[..i + 1]) by {
          assert host.log == logged + WorkerProcess.KillEvents(before[i]);
        }
        i := i + 1;
      }
      assert before[..i] == before;
    }
  }

  /** Stopping twice terminates every worker that was alive exactly once: the second
      stop only stops listening again. */
  method StopTwice(pool: Pool, host: Host)
    requires pool.Valid()
    modifies pool, host, pool.workers
    ensures host.log == old(host.log) + WorkerProcess.KillAll(old(pool.Snapshot()))
      + [ListeningStopped(pool.address), ListeningStopped(pool.address)]
    ensures WorkerProcess.TerminatedPids(host.log)
      == WorkerProcess.TerminatedPids(old(host.log)) + WorkerProcess.LivePids(old(pool.Snapshot()))
  {
    ghost var before := pool.Snapshot();
    pool.Stop(host);
    ghost var stopped := pool.Snapshot();
    assert forall s | s in stopped :: s.process.None?;
    WorkerProcess.KillAllOfKilled(stopped);
    pool.Stop(host);
    WorkerProcess.KillAllTerminatesLive(before);
    var stops := [ListeningStopped(pool.address), ListeningStopped(pool.address)];
    assert WorkerProcess.TerminatedPids(stops[1..]) == [];
    assert WorkerProcess.TerminatedPids(stops) == [];
    WorkerProcess.TerminatedPidsAppend(old(host.log), WorkerProcess.KillAll(before));
    WorkerProcess.TerminatedPidsAppend(old(host.log) + WorkerProcess.KillAll(before), stops);
  }
}
