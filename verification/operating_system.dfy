/** The world outside a PHP process, reduced to what the pool and its workers can see
    of it: the inherited environment, the interpreter's binary and OS family, which
    files are readable, and a log of the externally visible actions the process takes
    (launching and terminating processes, closing pipes, socket operations). */
module OperatingSystem {
  import opened Psl

  /** A pipe of a launched process: its pid and the descriptor number it is bound to. */
  datatype Pipe = Pipe(process: nat, descriptor: nat)

  /** A value of the environment array handed to proc_open, which passes strings on as
      they are and spells integers in decimal. */
  datatype EnvValue = EnvString(s: string) | EnvInt(i: int)

  /** The text a launched process reads for an environment value. */
  function EnvText(v: EnvValue): string {
    match v
    case EnvString(s) => s
    case EnvInt(i) => IntToString(i)
  }

  /** Strings taken over as they are, as with the inherited environment. */
  function FromStrings(environment: map<string, string>): (r: map<string, EnvValue>)
    ensures r.Keys == environment.Keys
    ensures forall k | k in environment :: r[k] == EnvString(environment[k])
  {
    map k | k in environment :: EnvString(environment[k])
  }

  /** The environment a launched process reads: every variable proc_open was given, as
      text, except those whose text is empty, which proc_open does not pass on. */
  function ChildEnvironment(environment: map<string, EnvValue>): (r: map<string, string>)
    ensures r.Keys == set k | k in environment && EnvText(environment[k]) != ""
    ensures forall k | k in r :: r[k] == EnvText(environment[k])
  {
    map k | k in environment && EnvText(environment[k]) != "" :: EnvText(environment[k])
  }

  datatype SysEvent =
    | Launched(pid: nat, commandLine: string, environment: map<string, EnvValue>)
    | PipeClosed(pipe: Pipe)
    | Terminated(process: nat)
    | Listening(address: Address)
    | ListeningStopped(address: Address)
    | Accepted(connection: nat)
    | Dialed(connection: nat, address: Address)
    | Wrote(connection: nat, data: string)
    | Read(connection: nat, length: nat)
    | Started(connection: nat)

  class Host {
    /** Env\get_vars(). */
    const environment: map<string, string>
    /** PHP_BINARY. */
    const phpBinary: string
    /** PHP_OS_FAMILY. */
    const osFamily: string
    /** The paths for which Filesystem\is_readable holds. */
    const readable: set<string>

    var nextPid: nat
    var nextConnection: nat
    var log: seq<SysEvent>

    constructor (environment: map<string, string>, phpBinary: string, osFamily: string, readable: set<string>)
      ensures this.environment == environment && this.phpBinary == phpBinary
      ensures this.osFamily == osFamily && this.readable == readable
      ensures log == []
    {
      this.environment := environment;
      this.phpBinary := phpBinary;
      this.osFamily := osFamily;
      this.readable := readable;
      nextPid, nextConnection, log := 0, 0, [];
    }

    /** An action whose only effect the process can observe is that it happened. */
    method Record(e: SysEvent)
      modifies this
      ensures log == old(log) + [e]
      ensures nextPid == old(nextPid) && nextConnection == old(nextConnection)
    {
      log := log + [e];
    }

    /** proc_open: launches a process and hands back a new pid. */
    method ProcOpen(commandLine: string, environment: map<string, EnvValue>) returns (pid: nat)
      modifies this
      ensures pid == old(nextPid) && nextPid == pid + 1
      ensures nextConnection == old(nextConnection)
      ensures log == old(log) + [Launched(pid, commandLine, environment)]
    {
      pid := nextPid;
      nextPid := nextPid + 1;
      log := log + [Launched(pid, commandLine, environment)];
    }

    /** Server::nextConnection: the next connection a peer opened to the listener. */
    method Accept() returns (connection: nat)
      modifies this
      ensures connection == old(nextConnection) && nextConnection == connection + 1
      ensures nextPid == old(nextPid)
      ensures log == old(log) + [Accepted(connection)]
    {
      connection := nextConnection;
      nextConnection := nextConnection + 1;
      log := log + [Accepted(connection)];
    }

    /** TCP\connect / Unix\connect: a new connection to `address`. */
    method Dial(address: Address) returns (connection: nat)
      modifies this
      ensures connection == old(nextConnection) && nextConnection == connection + 1
      ensures nextPid == old(nextPid)
      ensures log == old(log) + [Dialed(connection, address)]
    {
      connection := nextConnection;
      nextConnection := nextConnection + 1;
      log := log + [Dialed(connection, address)];
    }
  }
}
