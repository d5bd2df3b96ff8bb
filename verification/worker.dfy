/** The worker side: reading the worker's configuration from its environment, and the
    loop that dials the pool, answers its handshake and keeps at most
    `concurrencyLevel` connection tasks outstanding. */
module Worker {
  import opened Psl
  import opened OperatingSystem

  const MESSAGE_PING: string := "ping"
  const MESSAGE_PING_LENGTH: nat := 4

  const MESSAGE_PONG: string := "pong"
  const MESSAGE_PONG_LENGTH: nat := 4

  /** Names of the environment variables a worker is configured by. */
  const SERVER_VARIABLE: string := "REALLY_SERVER"
  const IDENTIFIER_VARIABLE: string := "REALLY_IDENTIFIER"
  const CONCURRENCY_LEVEL_VARIABLE: string := "REALLY_CONCURRENCY_LEVEL"

  const UNIX_PREFIX: string := "unix://"

  /** A worker's configuration; it never changes once built. */
  datatype Worker = Worker(id: PhpInt, concurrencyLevel: PhpInt, serverAddress: Address)
  {
    function GetId(): (r: PhpInt)
      ensures r == id
    {
      id
    }

    function GetConcurrencyLevel(): (r: PhpInt)
      ensures r == concurrencyLevel
    {
      concurrencyLevel
    }

    function GetServerAddress(): (r: Address)
      ensures r == serverAddress
    {
      serverAddress
    }
  }

  /** The invariant failures of Worker::create, one per check. */
  datatype CreateError =
    | ServerMissing
    | IdentifierMissing
    | IdentifierInvalid
    | ConcurrencyLevelMissing
    | ConcurrencyLevelInvalid

  /** The `host` and `port` entries of what parse_url returns. */
  datatype UrlComponents = UrlComponents(host: string, port: int)

  /** The server address named by the `REALLY_SERVER` string. */
  function ParseServerAddress(server: string, parseUrl: string -> UrlComponents): (a: Address)
    ensures StartsWith(server, UNIX_PREFIX) ==> a.UnixAddress? && UNIX_PREFIX + a.path == server
    ensures !StartsWith(server, UNIX_PREFIX) ==> a.TcpAddress?
    ensures !StartsWith(server, UNIX_PREFIX) ==> a.host == parseUrl(server).host && a.port == parseUrl(server).port
  {
    if StartsWith(server, UNIX_PREFIX) then
      UnixAddress(StripPrefix(server, UNIX_PREFIX))
    else
      var components := parseUrl(server);
      TcpAddress(components.host, components.port)
  }

  /** The string a Unix address is printed as names that same address again. */
  lemma UnixAddressRoundTrip(path: string, parseUrl: string -> UrlComponents)
    ensures ParseServerAddress(AddressToString(UnixAddress(path)), parseUrl) == UnixAddress(path)
  {
    var s := AddressToString(UnixAddress(path));
    assert s[..|UNIX_PREFIX|] == UNIX_PREFIX;
    assert s[|UNIX_PREFIX|..] == path;
  }

  /** Worker::create: the configuration the environment describes, or the first check
      that fails, in the order server, identifier, concurrency level. */
  function Create(environment: map<string, string>, parseUrl: string -> UrlComponents): (r: Result<Worker, CreateError>)
    ensures SERVER_VARIABLE !in environment ==> r == Failure(ServerMissing)
    ensures SERVER_VARIABLE in environment && IDENTIFIER_VARIABLE !in environment
      ==> r == Failure(IdentifierMissing)
    ensures SERVER_VARIABLE in environment && IDENTIFIER_VARIABLE in environment
      && ToInt(environment[IDENTIFIER_VARIABLE]).None?
      ==> r == Failure(IdentifierInvalid)
    ensures SERVER_VARIABLE in environment && IDENTIFIER_VARIABLE in environment
      && ToInt(environment[IDENTIFIER_VARIABLE]).Some? && CONCURRENCY_LEVEL_VARIABLE !in environment
      ==> r == Failure(ConcurrencyLevelMissing)
    ensures SERVER_VARIABLE in environment && IDENTIFIER_VARIABLE in environment
      && ToInt(environment[IDENTIFIER_VARIABLE]).Some? && CONCURRENCY_LEVEL_VARIABLE in environment
      && ToInt(environment[CONCURRENCY_LEVEL_VARIABLE]).None?
      ==> r == Failure(ConcurrencyLevelInvalid)
    ensures SERVER_VARIABLE in environment && IDENTIFIER_VARIABLE in environment
      && ToInt(environment[IDENTIFIER_VARIABLE]).Some? && CONCURRENCY_LEVEL_VARIABLE in environment
      && ToInt(environment[CONCURRENCY_LEVEL_VARIABLE]).Some?
      ==> r.Success?
    ensures r.Success? ==>
      && IntToString(r.value.id) == environment[IDENTIFIER_VARIABLE]
      && IntToString(r.value.concurrencyLevel) == environment[CONCURRENCY_LEVEL_VARIABLE]
      && r.value.serverAddress == ParseServerAddress(environment[SERVER_VARIABLE], parseUrl)
  {
    if SERVER_VARIABLE !in environment then Failure(ServerMissing)
    else if IDENTIFIER_VARIABLE !in environment then Failure(IdentifierMissing)
    else
      var id := ToInt(environment[IDENTIFIER_VARIABLE]);
      if id.None? then Failure(IdentifierInvalid)
      else if CONCURRENCY_LEVEL_VARIABLE !in environment then Failure(ConcurrencyLevelMissing)
      else
        var level := ToInt(environment[CONCURRENCY_LEVEL_VARIABLE]);
        if level.None? then Failure(ConcurrencyLevelInvalid)
        else
          ToIntCanonical(environment[IDENTIFIER_VARIABLE], id.value);
          ToIntCanonical(environment[CONCURRENCY_LEVEL_VARIABLE], level.value);
          Success(Worker(id.value, level.value, ParseServerAddress(environment[SERVER_VARIABLE], parseUrl)))
  }

  /** The getters of a created worker give back what its environment said, and since a
      Worker is a value they keep giving it back for its whole life. */
  lemma CreatedWorkerGetters(environment: map<string, string>, parseUrl: string -> UrlComponents)
    requires Create(environment, parseUrl).Success?
    ensures var w := Create(environment, parseUrl).value;
      && ToInt(environment[IDENTIFIER_VARIABLE]) == Some(w.GetId())
      && ToInt(environment[CONCURRENCY_LEVEL_VARIABLE]) == Some(w.GetConcurrencyLevel())
      && w.GetServerAddress() == ParseServerAddress(environment[SERVER_VARIABLE], parseUrl)
  {
  }

  // ---------------------------------------------------------------------------
  // Worker::run
  // ---------------------------------------------------------------------------

  /** How a task started by Async\run stands: still running, or finished either way. */
  datatype TaskState = Running | Succeeded | Failed

  /** The task serving one connection. */
  datatype Task = Task(connection: nat, state: TaskState)

  /** Awaitable::isComplete. */
  predicate IsComplete(t: Task) {
    t.state != Running
  }

  predicate AnyFailed(tasks: seq<Task>) {
    exists t | t in tasks :: t.state == Failed
  }

  /** The number of tasks in `tasks` that are still running their handler. */
  function CountRunning(tasks: seq<Task>): nat {
    if tasks == [] then 0 else (if tasks[0].state == Running then 1 else 0) + CountRunning(tasks[1..])
  }

  lemma {:induction false} CountRunningAppend(a: seq<Task>, b: seq<Task>)
    ensures CountRunning(a + b) == CountRunning(a) + CountRunning(b)
  {
    if a == [] {
      assert a + b == b;
    } else {
      assert (a + b)[1..] == a[1..] + b;
      CountRunningAppend(a[1..], b);
    }
  }

  /** Tasks that were reaped are complete, so every running handler is one of the
      pending tasks. */
  lemma {:induction false} RunningAreAllPending(reaped: seq<Task>, pending: seq<Task>)
    requires forall t | t in reaped :: IsComplete(t)
    ensures CountRunning(reaped + pending) <= |pending|
  {
    CountRunningAppend(reaped, pending);
    NoneRunning(reaped);
    AtMostAllRunning(pending);
  }

  lemma {:induction false} NoneRunning(tasks: seq<Task>)
    requires forall t | t in tasks :: IsComplete(t)
    ensures CountRunning(tasks) == 0
  {
    if tasks != [] {
      assert tasks[0] in tasks;
      NoneRunning(tasks[1..]);
    }
  }

  lemma {:induction false} AtMostAllRunning(tasks: seq<Task>)
    ensures CountRunning(tasks) <= |tasks|
  {
    if tasks != [] {
      AtMostAllRunning(tasks[1..]);
    }
  }

  /** Where `run` stands in its loops: about to dial (top of the outer loop), inside the
      throttling loop, or left by the exception Async\all rethrew. */
  datatype RunPhase = Connecting | Throttling | Aborted

  /** One activation of Worker::run. Its infinite outer loop is modelled one iteration
      at a time: `Connect` is the dial, handshake and task start, `Reap` one round of
      the throttling loop, and `Complete` a task finishing while the loop yields. */
  class RunLoop {
    const worker: Worker
    /** `$pending`. */
    var pending: seq<Task>
    var phase: RunPhase
    /** The connections accepted so far. */
    ghost var accepted: nat
    /** The tasks the throttling loop has taken out of `pending`. */
    ghost var reaped: seq<Task>

    /** The most tasks `pending` may hold: the concurrency level, but never less than
        the one task the first iteration starts before it looks at the level. */
    function Bound(): int {
      if worker.concurrencyLevel < 1 then 1 else worker.concurrencyLevel
    }

    ghost predicate Valid()
      reads this
    {
      && |reaped| + |pending| == accepted
      && (forall t | t in reaped :: IsComplete(t))
      && (phase == Connecting ==> accepted == 0 || |pending| < worker.concurrencyLevel)
      && (phase == Throttling ==> accepted > 0 && |pending| >= worker.concurrencyLevel)
      && |pending| <= Bound()
    }

    constructor (worker: Worker)
      ensures this.worker == worker && Valid()
      ensures pending == [] && phase == Connecting && reaped == []
    {
      this.worker := worker;
      pending, phase := [], Connecting;
      accepted, reaped := 0, [];
    }

    /** The outer loop's body up to the throttling loop: dial the server, read the
        ping, answer pong, start the task and add it to `pending`. */
    method Connect(host: Host) returns (connection: nat)
      requires Valid() && phase == Connecting
      modifies this, host
      ensures Valid() && reaped == old(reaped)
      ensures connection == old(host.nextConnection) && host.nextConnection == connection + 1
      ensures host.log == old(host.log) + [Dialed(connection, worker.serverAddress)]
        + Handshake(connection) + [Started(connection)]
      ensures host.nextPid == old(host.nextPid)
      ensures pending == old(pending) + [Task(connection, Running)]
      ensures phase == if |pending| >= worker.concurrencyLevel then Throttling else Connecting
    {
      connection := host.Dial(worker.serverAddress);
      host.Record(Read(connection, MESSAGE_PING_LENGTH));
      host.Record(Wrote(connection, MESSAGE_PONG));
      host.Record(Started(connection));
      pending := pending + [Task(connection, Running)];
      accepted := accepted + 1;
      phase := if |pending| >= worker.concurrencyLevel then Throttling else Connecting;
    }

    /** One round of the throttling loop: partition `pending` into completed and still
        pending tasks, await the completed ones (which rethrows a failure) and yield.
        The loop is left once fewer than `concurrencyLevel` tasks remain. */
    method Reap()
      requires Valid() && phase == Throttling
      modifies this
      ensures Valid()
      ensures var (completed, rest) := Partition(old(pending), IsComplete);
        && pending == rest
        && reaped == old(reaped) + completed
        && phase == if AnyFailed(completed) then Aborted
                    else if |rest| >= worker.concurrencyLevel then Throttling
                    else Connecting
    {
      var (completed, rest) := Partition(pending, IsComplete);
      pending := rest;
      reaped := reaped + completed;
      if exists t | t in completed :: t.state == Failed {
        phase := Aborted;
      } else if |pending| >= worker.concurrencyLevel {
        phase := Throttling;
      } else {
        phase := Connecting;
      }
    }

    /** The scheduler runs the `k`th pending task to its end while `run` yields. */
    method Complete(k: nat, failed: bool)
      requires Valid()
      modifies this
      ensures Valid() && phase == old(phase) && reaped == old(reaped)
      ensures pending == if k < |old(pending)| && old(pending)[k].state == Running
        then old(pending)[k := Task(old(pending)[k].connection, if failed then Failed else Succeeded)]
        else old(pending)
    {
      if k < |pending| && pending[k].state == Running {
        pending := pending[k := Task(pending[k].connection, if failed then Failed else Succeeded)];
      }
    }

    /** Never more handlers run at once than the concurrency level allows. */
    lemma RunningWithinLevel()
      requires Valid()
      ensures CountRunning(reaped + pending) <= Bound()
    {
      RunningAreAllPending(reaped, pending);
    }
  }

  /** What the worker does on a fresh connection before its task starts: consume the
      ping, answer pong. */
  function Handshake(connection: nat): seq<SysEvent> {
    [Read(connection, MESSAGE_PING_LENGTH), Wrote(connection, MESSAGE_PONG)]
  }
}
