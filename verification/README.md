# A verified model of the `really` process pool

`really` is a PHP process pool. A `Pool` listens on a Unix socket and launches
`workers_count` worker processes. Each worker gets the pool's address, its own id and
a concurrency level through three environment variables. A worker (`Worker::run`)
dials the pool again and again. On every new connection it reads the pool's 4-byte
`"ping"` and answers `"pong"`, then starts a task for the connection. It stops dialling
while `concurrency_level` tasks are still pending. On its side, the pool's `dispatch`
accepts the next worker connection, writes `"ping"`, reads the 4-byte reply and starts
the caller's closure on that connection. `stop` kills every worker process and then
stops listening. A `GenericPayload` carries an array and serialises to that array.

The model is Dafny, one module per source file, plus two support modules:

- `Psl` stands in for the library functions the code calls: `Str\to_int`, PHP's
  int-to-string conversion, `Str\starts_with`, `Str\strip_prefix`, `Str\join`,
  `Dict\merge`, `Vec\partition` and `Network\Address`. `Str\starts_with` and
  `Str\join` have no contract of their own. The ensures of
  `Worker.ParseServerAddress` and `WorkerProcess.CommandLine` state what they give at
  their only call sites.
- `OperatingSystem` is the world outside one PHP process. A `Host` holds the inherited
  environment, `PHP_BINARY`, `PHP_OS_FAMILY` and the set of readable files. It also
  keeps a log of what the process does to the outside: process launches, pipe closes,
  terminations, and socket accept/dial/read/write and listen/stop-listening.
  Sockets and processes are modelled only through this log.
- `Worker` (src/Worker.php) models `Worker::create` as a pure function of the
  environment. `Worker::run` is the class `RunLoop`; its never-ending loop is modelled
  one step at a time. `Connect` is one dial, handshake and task start. `Reap` is one
  round of the throttling loop. `Complete` is the scheduler finishing a task while
  the loop yields. A `phase` field records which loop the activation is in.
- `WorkerProcess` (src/WorkerProcess.php) holds the class with its `process`
  handle (`None` once killed), and the pure command-line and environment
  construction that `spawn` performs. The environment handed to `proc_open` keeps
  the id and level as integers; `proc_open` passes them to the child in decimal and
  drops variables whose text is empty, which `OperatingSystem.ChildEnvironment` models.
- `Pool` (src/Pool.php) holds the pool class: construction, `dispatch`, `stop` and
  `getWorkerProcesses`.
- `Payload` (src/Payload/GenericPayload.php) holds the generic payload.

The model's main results:

- `Str\to_int` accepts exactly the canonical decimal spellings of 64-bit integers.
- `Worker::create` fails at the first missing or unparsable variable, in source order.
  A worker launched by the pool reads back exactly the id, concurrency level and
  Unix address it was launched with.
- `Vec\partition` splits the pending list into complete and incomplete tasks whose
  interleaving, in order, is the old list.
- The worker never dials while `concurrency_level` or more tasks are pending. Every
  running handler is a pending task, so at most `max(concurrency_level, 1)` handlers
  run at once.
- `kill` terminates a live process once and does nothing to a killed one.
- `stop` terminates each live worker exactly once, in index order, before it stops
  listening. A second `stop` terminates nothing.
- Each side of the handshake reads exactly as many bytes as the other side writes.
- A payload survives `__serialize`/`__unserialize` unchanged.

What the code does not do, so neither does the model:

- The code has no length-prefixed frames and no result/exception envelope.
- Neither side checks the handshake bytes it reads.
- `dispatch` has no "closing" state. On a stopped server it fails because
  `nextConnection` throws.
- `stop` does not wait for outstanding jobs.
- The constructor registers no signal handlers.
- `Worker::create` does not check that the concurrency level is positive or the id
  non-negative. With a level below 1, the first task is started and the throttling
  loop is never left; `RunLoop.Bound` accounts for this.
- A failed task makes `Async\all` rethrow, which ends `run` (phase `Aborted`).

`getId`, `getConcurrencyLevel` and `getServerAddress` of a `Worker` are the fields of
an immutable value. The PHP property `$id` of a
`WorkerProcess` is private and no method assigns it after construction, so the model
declares it `const` and `WorkerProcess::getId` returns the constructor's id whatever
the kill state.

## Model

| member | source | states |
|---|---|---|
| `Psl.ToInt` | src/Worker.php:42-43 | `Str\to_int` rejects anything that is not a decimal numeral; a value it returns has the value of the numeral and converts back to exactly the input |
| `Psl.ToIntCanonical` | src/Worker.php:42-43 | `Str\to_int(s)` is `n` exactly when `n` is a 64-bit integer and `s` is its canonical decimal spelling |
| `Psl.Merge` | src/WorkerProcess.php:54-58 | the merged dictionary has every key of both; later values win, other values are kept |
| `Psl.Partition` | src/Worker.php:82 | `Vec\partition`: every element of the first part satisfies the predicate and none of the second does; together they hold exactly the input's elements |
| `Psl.PartitionInterleaves` | src/Worker.php:82 | the two parts of the partition, merged in input order, are exactly the old list |
| `Psl.StripPrefix` | src/Worker.php:50-51 | with the prefix present, prefix + result is the input; otherwise the input is unchanged |
| `Worker.ParseServerAddress` | src/Worker.php:50-56 | a `unix://` string gives the Unix address with exactly that prefix removed; any other gives the TCP address from parse_url's host and port |
| `Worker.UnixAddressRoundTrip` | src/Worker.php:50-52 | parsing the printed form of a Unix address gives that address back |
| `Worker.Create` | src/Worker.php:35-59 | fails with the first failing check (server missing, identifier missing or invalid, concurrency level missing or invalid); succeeds exactly when all checks pass, and then id and level are the integers the variables spell and the address is the parsed server string |
| `Worker.Worker.GetId` | src/Worker.php:61-64 | the worker's id, as fixed when it was created |
| `Worker.Worker.GetServerAddress` | src/Worker.php:90-93 | the worker's server address, as fixed when it was created |
| `Worker.Worker.GetConcurrencyLevel` | src/Worker.php:95-98 | the worker's concurrency level, as fixed when it was created |
| `Worker.CreatedWorkerGetters` | src/Worker.php:58-64 | the created worker's id, level and address are what `Str\to_int` and the address parse give for its environment, fixed for its life |
| `Worker.RunningAreAllPending` | src/Worker.php:80-86 | when every reaped task is complete, the running tasks number at most the pending ones |
| `Worker.RunLoop.constructor` | src/Worker.php:68-69 | `run` starts with an empty pending list, about to dial |
| `Worker.RunLoop.Connect` | src/Worker.php:70-80 | dials the server address, reads `MESSAGE_PING_LENGTH` bytes, writes `"pong"`, then starts the task; appends exactly that one running task to `pending`; enters the throttling loop iff `pending` reached the level; keeps the concurrency invariant |
| `Worker.RunLoop.Reap` | src/Worker.php:81-86 | `pending` becomes the incomplete part of the partition and the complete part is reaped; a failed reaped task aborts the run; otherwise the loop is left exactly when fewer than `concurrency_level` tasks remain |
| `Worker.RunLoop.Complete` | src/Worker.php:85 | while the loop yields, a running pending task may finish; nothing else changes |
| `Worker.RunLoop.RunningWithinLevel` | src/Worker.php:80-86 | in any reachable state at most `max(concurrency_level, 1)` handlers are running |
| `WorkerProcess.CommandLine` | src/WorkerProcess.php:39-42 | the PHP binary and the script joined by one space, wrapped in `cmd /V:ON /E:ON /D /C (`…`)` on Windows |
| `OperatingSystem.ChildEnvironment` | src/WorkerProcess.php:61 | the launched process sees exactly the variables `proc_open` was given whose text is not empty, strings as they are and integers in decimal |
| `WorkerProcess.SpawnEnvironment` | src/WorkerProcess.php:54-58 | the parent environment with the three worker variables set over it: the address as a string, the id and level as integers; every other parent entry unchanged |
| `WorkerProcess.SpawnEnvironmentConfiguresWorker` | src/WorkerProcess.php:54-61 | `Worker::create` on a spawn environment for a Unix address gives back exactly that id, level and address |
| `WorkerProcess.KillTerminatesOnce` | src/WorkerProcess.php:88-99 | killing a live process terminates its pid once; killing a killed one terminates nothing |
| `WorkerProcess.KillAllTerminatesLive` | src/Pool.php:65-67 | killing a list of processes terminates exactly the live ones' pids, once each, in order |
| `WorkerProcess.KillAllOfKilled` | src/WorkerProcess.php:90-92 | killing processes that are all killed takes no action |
| `WorkerProcess.WorkerProcess.constructor` | src/WorkerProcess.php:24-34 | stores the id, process handle and the two pipes |
| `WorkerProcess.WorkerProcess.Spawn` | src/WorkerProcess.php:37-67 | launches one process with `CommandLine` and `SpawnEnvironment`; the new worker has the given id, is alive, and holds the process's pipes 1 and 2 |
| `WorkerProcess.WorkerProcess.GetId` | src/WorkerProcess.php:69-72 | the id the worker was constructed with; alive or killed, it is the same |
| `WorkerProcess.WorkerProcess.GetStdout` | src/WorkerProcess.php:74-79 | the stdout pipe iff the process is alive, the "killed" failure otherwise |
| `WorkerProcess.WorkerProcess.GetStderr` | src/WorkerProcess.php:81-86 | the stderr pipe iff the process is alive, the "killed" failure otherwise |
| `WorkerProcess.WorkerProcess.Kill` | src/WorkerProcess.php:88-99 | a live process gets stdout closed, stderr closed and is terminated, in that order; the handle becomes `None`; a killed one gets nothing |
| `WorkerProcess.KillTwice` | src/WorkerProcess.php:88-99 | two kills act like one: the pid is terminated at most once |
| `Pool.CheckArguments` | src/Pool.php:25-27 | no error iff the script is readable and both counts are at least 1; otherwise the first failing check, in source order |
| `Pool.LaunchesSnoc` | src/Pool.php:32-34 | launching worker `n` as the next process after launches of workers `0 .. n-1` gives the launches of workers `0 .. n` |
| `Pool.SpawnedWorkerIsConfigured` | src/Pool.php:32-34 | the launch of worker `k` runs the pool's script with the PHP binary, as the given process, and its environment, as the child reads it, makes `Worker::create` return id `k`, the pool's level and the pool's address |
| `Pool.HandshakesMatch` | src/Pool.php:48-52 | the pool writes `"ping"` and the worker reads exactly that many bytes; the worker writes `"pong"` and the pool reads exactly that many |
| `Pool.Pool.Create` | src/Pool.php:23-37 | invalid arguments fail with `CheckArguments`' error and touch nothing; otherwise the log gains the listen on `<temporary file>.sock` and after it exactly the launches of workers `0 .. workers_count-1`, the `k`th as the `k`th next process, and the pool holds those `workers_count` newly created live workers with their pipes |
| `Pool.Pool.SpawnWorkers` | src/Pool.php:31-36 | launches workers `0 .. n-1` in order with the same script, address and level; each worker is a new object; worker `k` has id `k`, is process `nextPid + k` and holds its pipes 1 and 2; the log gains exactly those launches |
| `Pool.Pool.Dispatch` | src/Pool.php:46-53 | accepts one connection, writes `"ping"`, reads `MESSAGE_PONG_LENGTH` bytes, then starts the closure on that connection; on a stopped server fails without any action |
| `Pool.Pool.GetWorkerProcesses` | src/Pool.php:58-61 | exactly the stored workers, at least one, index `k` holding id `k` |
| `Pool.Pool.KillWorkers` | src/Pool.php:65-67 | every worker ends killed and the log gains the kill actions of the workers' old states, in index order |
| `Pool.Pool.Stop` | src/Pool.php:63-70 | every worker ends killed; the log gains the kills of all workers in index order, and only then the stop of listening |
| `Pool.StopTwice` | src/Pool.php:63-70 | stopping twice terminates each worker that was alive exactly once |
| `Payload.GenericPayload.constructor` | src/Payload/GenericPayload.php:15-17 | the data is the given array |
| `Payload.GenericPayload.Blank` | src/Payload/GenericPayload.php:35-38 | the object `unserialize()` hands to `__unserialize`, built without the constructor: its readonly `data` is still uninitialised |
| `Payload.GenericPayload.Create` | src/Payload/GenericPayload.php:19-22 | a new payload whose data equals the given array |
| `Payload.GenericPayload.Serialize` | src/Payload/GenericPayload.php:27-30 | exactly the data, changing nothing; fails only when data was never set |
| `Payload.GenericPayload.Unserialize` | src/Payload/GenericPayload.php:35-38 | an uninitialised payload's data becomes the array; an initialised readonly `data` cannot be reassigned |
| `Payload.RoundTrip` | src/Payload/GenericPayload.php:27-38 | unserialising a payload's serialised form into a fresh object gives equal data, which serialises to the same array |

## Left out

- Real sockets, pipes, processes and signals. They appear only as entries in a
  `Host` log: `TCP\connect`, `Unix\connect`, `Unix\Server::create`, `nextConnection`,
  `stopListening`, `readAll`, `writeAll`, `proc_open`, `proc_terminate`, stream `close`.
  Every I/O step is assumed to succeed, except `nextConnection` on a stopped server.
  A failing connect, read or write would end `run` or `dispatch` with an exception;
  the model does not include those failures.
- The working directory and the Windows-only `proc_open` options passed by `spawn`,
  because they do not affect any modelled property.
- Cooperative scheduling (`Async\run`, `Async\all`, `Async\later`): a task is a
  record with a state, and finishing it is the environment step `RunLoop.Complete`.
  What the closures do on their connection is not modelled.
- The library's `Unix\Server::create` and `Address::toString`: the model takes the
  server's local address to be the Unix path it was created with, `<temporary file>.sock`,
  printed as `unix://` followed by the path (`Psl.AddressToString`). The source does not
  show this library behaviour, and `Pool.SpawnedWorkerIsConfigured` relies on it.
- The library's `Str\to_int`: `Psl.ToInt` takes it to return `(int) s` exactly when
  `(string) (int) s` is `s` again, which is how the library implements it. The source does
  not show this, and `WorkerProcess.SpawnEnvironmentConfiguresWorker` and
  `Pool.SpawnedWorkerIsConfigured` rely on it through `Psl.ToIntCanonical`.
- Strings that are not valid UTF-8. PHP strings are byte strings, while the model's
  strings are sequences of Unicode characters, so such environment values and socket
  paths cannot be expressed. The properties stated involve only ASCII prefixes and
  digits, so none of them depends on this.
- `parse_url` is a parameter. Its missing `host`/`port` entries are not handled by the
  code, so they are not modelled either.
- `Filesystem\is_readable` is a set of paths on the `Host`.
  `Filesystem\create_temporary_file` is a string parameter of `Pool.Pool.Create`.
- PHP floats and objects inside payload arrays; the array type keeps integer, string,
  boolean, null and nested array values.
- src/functions.php (a one-line wrapper around `Async\main`) and the example scripts.
