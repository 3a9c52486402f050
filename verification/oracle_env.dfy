/**
 * The Oracle Instant Client environment check of `oracle_decorator`:
 * a probe of the dynamic-library search path, the update of that path when
 * the probe fails, and the self-relaunch that follows it.  `os.execv` is not
 * executed here: the relaunch is returned as a `Relaunch` value.
 */
module OracleEnvironment {
  import opened Text

  type Environ = map<string, string>

  /** `sys.argv`: the interpreter always provides at least the script name. */
  type Argv = a: seq<string> | |a| > 0 witness [""]

  const Nt := "nt"
  const Posix := "posix"
  const PathVar := "PATH"
  const LibraryPathVar := "LD_LIBRARY_PATH"
  /** The separator the program appends with, on both OS branches. */
  const Separator := ";"

  /** `os.environ.get(name)` taken as a Python truth value: present and not empty. */
  predicate IsSet(env: Environ, name: string)
  {
    name in env && env[name] != ""
  }

  /** The value of `name`, with an absent variable read as the empty string. */
  function Get(env: Environ, name: string): string
  {
    if name in env then env[name] else ""
  }

  /** `ora_check`: the Instant Client path is empty, or the search path of
      this OS family holds it.  Only `nt` and `posix` are recognised. */
  predicate Probe(icPath: string, osName: string, env: Environ)
  {
    || icPath == ""
    || (osName == Nt && IsSet(env, PathVar) && Contains(env[PathVar], icPath))
    || (osName == Posix && IsSet(env, LibraryPathVar) && Contains(env[LibraryPathVar], icPath))
  }

  /** The variable the relaunch branch updates: `PATH` on `nt`, otherwise `LD_LIBRARY_PATH`. */
  function SearchPathVar(osName: string): (name: string)
    ensures name == PathVar <==> osName == Nt
  {
    if osName == Nt then PathVar else LibraryPathVar
  }

  /** The new value of the search-path variable: `old + ";" + icPath` when it was set, else `icPath`. */
  function ExtendedValue(env: Environ, name: string, icPath: string): string
  {
    if IsSet(env, name) then env[name] + Separator + icPath else icPath
  }

  /** What the wrapper does next: run the decorated function, or replace the
      process with `program` run on `argv` under the environment `env`. */
  datatype Decision =
    | Proceed
    | Relaunch(env: Environ, program: string, argv: seq<string>)

  /** The whole `wrapper` of `oracle_decorator`, with `os.execv` turned into data. */
  function Decide(icPath: string, osName: string, env: Environ, executable: string, argv: Argv): Decision
  {
    if Probe(icPath, osName, env) then Proceed
    else
      var name := SearchPathVar(osName);
      var env' := env[name := ExtendedValue(env, name, icPath)];
      if osName == Nt then Relaunch(env', executable, [executable] + argv)
      else Relaunch(env', argv[0], argv)
  }

  // ---------------------------------------------------------------------------
  // The probe

  /** With no Instant Client path configured the probe passes, whatever the environment. */
  lemma ProbeEmptyPath(osName: string, env: Environ)
    ensures Probe("", osName, env)
  {
  }

  /**
   * The probe against an independent reading of "the search path contains the
   * marker": on `nt` and `posix`, for a non-empty path, it passes exactly when
   * the OS's variable has an occurrence of the path, an absent variable read as "".
   */
  lemma ProbeOccurrence(icPath: string, osName: string, env: Environ)
    requires icPath != ""
    requires osName == Nt || osName == Posix
    ensures Probe(icPath, osName, env) <==> exists i :: OccursAt(Get(env, SearchPathVar(osName)), icPath, i)
  {
    var value := Get(env, SearchPathVar(osName));
    if value == "" {
      forall i ensures !OccursAt(value, icPath, i) {
      }
    }
  }

  /** Only the search-path variable of the running OS family is read: changing any other variable leaves the probe as it was. */
  lemma ProbeIgnoresOtherVariable(icPath: string, osName: string, env: Environ, other: string, value: string)
    requires other != SearchPathVar(osName)
    ensures Probe(icPath, osName, env[other := value]) == Probe(icPath, osName, env)
  {
  }

  /** On any OS name other than `nt` and `posix` a configured path never passes. */
  lemma ProbeFailsOnOtherOs(icPath: string, osName: string, env: Environ)
    requires icPath != ""
    requires osName != Nt && osName != Posix
    ensures !Probe(icPath, osName, env)
  {
  }

  // ---------------------------------------------------------------------------
  // The relaunch

  /** The decorated function runs exactly when the probe passes. */
  lemma ProceedIffProbe(icPath: string, osName: string, env: Environ, executable: string, argv: Argv)
    ensures Decide(icPath, osName, env, executable, argv).Proceed? <==> Probe(icPath, osName, env)
  {
  }

  /**
   * On relaunch the selected variable becomes exactly `icPath` if it was absent
   * or empty, and `old + ";" + icPath` otherwise; every other entry is kept.
   */
  lemma RelaunchEnvironment(icPath: string, osName: string, env: Environ, executable: string, argv: Argv)
    requires !Probe(icPath, osName, env)
    ensures var d := Decide(icPath, osName, env, executable, argv);
      var name := SearchPathVar(osName);
      && d.Relaunch?
      && d.env.Keys == env.Keys + {name}
      && (forall k :: k in env && k != name ==> d.env[k] == env[k])
      && (!IsSet(env, name) ==> d.env[name] == icPath)
      && (IsSet(env, name) ==> d.env[name] == env[name] + ";" + icPath)
  {
  }

  /** `nt` relaunches the interpreter on `[executable] + argv`; any other OS runs `argv[0]` on `argv`. */
  lemma RelaunchTarget(icPath: string, osName: string, env: Environ, executable: string, argv: Argv)
    requires !Probe(icPath, osName, env)
    ensures var d := Decide(icPath, osName, env, executable, argv);
      && d.Relaunch?
      && (osName == Nt ==> d.program == executable && d.argv == [executable] + argv)
      && (osName != Nt ==> d.program == argv[0] && d.argv == argv)
  {
  }

  /**
   * Convergence: the relaunched process sees an environment that passes the
   * probe, so it proceeds; there is at most one relaunch per invocation.
   * Only the environment matters here, not the argument vector the new
   * process receives.
   */
  lemma {:induction false} RelaunchConverges(icPath: string, osName: string, env: Environ, executable: string, argv: Argv)
    requires osName == Nt || osName == Posix
    ensures var d := Decide(icPath, osName, env, executable, argv);
      d.Relaunch? ==> Probe(icPath, osName, d.env) && Decide(icPath, osName, d.env, executable, argv) == Proceed
  {
    var d := Decide(icPath, osName, env, executable, argv);
    if d.Relaunch? {
      var name := SearchPathVar(osName);
      if IsSet(env, name) {
        assert d.env[name] == (env[name] + Separator) + icPath;
        ContainsAppended(env[name] + Separator, icPath);
      } else {
        assert d.env[name] == [] + icPath;
        ContainsAppended([], icPath);
      }
    }
  }

  /**
   * Off `nt` and `posix` the relaunch does not converge: the new process,
   * with the extended environment, decides to relaunch again.
   */
  lemma RelaunchRepeatsOnOtherOs(icPath: string, osName: string, env: Environ, executable: string, argv: Argv)
    requires icPath != ""
    requires osName != Nt && osName != Posix
    ensures var d := Decide(icPath, osName, env, executable, argv);
      d.Relaunch? && Decide(icPath, osName, d.env, executable, argv).Relaunch?
  {
  }

  // ---------------------------------------------------------------------------
  // The process environment, updated in place

  /** The running interpreter: `os.environ`, `os.name`, `sys.executable`, `sys.argv`. */
  class Process {
    var environ: Environ
    const osName: string
    const executable: string
    const argv: Argv

    constructor (environ: Environ, osName: string, executable: string, argv: Argv)
      ensures this.environ == environ && this.osName == osName
      ensures this.executable == executable && this.argv == argv
    {
      this.environ := environ;
      this.osName := osName;
      this.executable := executable;
      this.argv := argv;
    }

    /**
     * The body of the wrapper up to `os.execv`: on a failed probe the search
     * path is extended in `os.environ` itself, and the program and argument
     * vector of the relaunch are returned.
     */
    method CheckEnvironment(icPath: string) returns (d: Decision)
      modifies this
      ensures d == Decide(icPath, osName, old(environ), executable, argv)
      ensures environ == if d.Relaunch? then d.env else old(environ)
    {
      var check := Probe(icPath, osName, environ);
      if check {
        return Proceed;
      }
      if osName == Nt {
        if IsSet(environ, PathVar) {
          environ := environ[PathVar := environ[PathVar] + Separator + icPath];
        } else {
          environ := environ[PathVar := icPath];
        }
        d := Relaunch(environ, executable, [executable] + argv);
      } else {
        if IsSet(environ, LibraryPathVar) {
          environ := environ[LibraryPathVar := environ[LibraryPathVar] + Separator + icPath];
        } else {
          environ := environ[LibraryPathVar := icPath];
        }
        d := Relaunch(environ, argv[0], argv);
      }
    }
  }
}
