/**
 * The application object of pybase: its Oracle session fields, the connect
 * and disconnect operations, the database command `cmd3` and the `run`
 * dispatcher with its failure notification.
 *
 * The driver, the process replacement and the mail server are not executed:
 * every call into them is recorded as an `Event` in the trace `App.events`,
 * and how each of them turns out is given by a `World` value.
 */
module PyBase {
  import opened Text
  import opened OracleEnvironment
  import opened Rows

  /** The configuration values the core reads. */
  datatype Config = Config(program: string, mailHost: string, senderMail: string, icPath: string)

  /** The parameters of one `send_mail` call; the message text is not modelled. */
  datatype Mail = Mail(mailHost: string, emailFrom: string, emailTo: string, subject: string, priority: string)

  /** The priority `send_mail` uses when its caller gives none. */
  const DefaultPriority := "3"

  /** The notification `run` sends when a command raises. */
  function NotifyMail(cfg: Config): Mail
  {
    Mail(cfg.mailHost, cfg.senderMail, cfg.senderMail, "EXCEPTION - " + cfg.program, "1")
  }

  /** An opaque driver object: a connection or a cursor. */
  datatype Handle = Handle(id: nat)

  /** What the program does that can be seen from outside. */
  datatype Event =
    | CommandRan(name: string)                  // the body of cmd1 or cmd2
    | Unsupported                               // 'Command not supported'
    | Exec(program: string, argv: seq<string>)  // os.execv replaced the process
    | Connected(con: Handle)                    // cx_Oracle.connect
    | CursorOpened(con: Handle, cur: Handle)    // con.cursor()
    | Fetched(cur: Handle)                      // execute, then fetchone, on the select cursor
    | TestReported(ok: bool)                    // 'Test Oracle - OK' or '- ERROR'
    | Committed(con: Handle)                    // con.commit()
    | Closed(h: Handle)                         // cursor.close() or con.close()
    | MailSent(mail: Mail)                      // send_mail

  /** Which driver call of `oracle_connect` raises, if any. */
  datatype Fault = NoFault | ConnectRaises | FirstCursorRaises | SecondCursorRaises

  /** What the query of `cmd3` gives: an error, no row, or a first row with the cursor description. */
  datatype Fetch = QueryRaises | NoRow | FirstRow(description: seq<ColumnDescription>, values: seq<Value>)

  /** Which driver call of `oracle_disconnect` raises, if any: `con.commit()` or one of the three closes. */
  datatype CloseFault = NoCloseFault | CommitRaises | UpdateCloseRaises | SelectCloseRaises | ConCloseRaises

  /** How the calls outside the program turn out in one run. */
  datatype World = World(execSucceeds: bool, fault: Fault, fetch: Fetch, closeFault: CloseFault)

  /** How a call ends: it returns, it raises, or `os.execv` replaced the process. */
  datatype Step = Returned | Raised | Replaced(program: string, argv: seq<string>)

  /** The events one call produces and how it ends. */
  datatype Attempt = Attempt(events: seq<Event>, step: Step)

  // ---------------------------------------------------------------------------
  // Specification of each operation as a function of its inputs

  /** The body of `oracle_connect`: the connection and the two cursors get the
      handles `base`, `base + 1`, `base + 2`; the call stops at the first driver call that raises. */
  function OpenSession(fault: Fault, base: nat): Attempt
  {
    var con, sel, upd := Handle(base), Handle(base + 1), Handle(base + 2);
    match fault
    case ConnectRaises => Attempt([], Raised)
    case FirstCursorRaises => Attempt([Connected(con)], Raised)
    case SecondCursorRaises => Attempt([Connected(con), CursorOpened(con, sel)], Raised)
    case NoFault => Attempt([Connected(con), CursorOpened(con, sel), CursorOpened(con, upd)], Returned)
  }

  /** `oracle_connect` behind its decorator, after the environment decision `d`. */
  function ConnectAttempt(d: Decision, execSucceeds: bool, fault: Fault, base: nat): Attempt
  {
    match d
    case Relaunch(_, program, argv) =>
      if execSucceeds then Attempt([Exec(program, argv)], Replaced(program, argv))
      else Attempt([], Raised)
    case Proceed => OpenSession(fault, base)
  }

  /** `cmd3` on the select cursor `sel`: `'column1' in res` raises when no row came back. */
  function Cmd3Attempt(sel: Handle, fetch: Fetch): Attempt
  {
    match fetch
    case QueryRaises => Attempt([], Raised)
    case NoRow => Attempt([Fetched(sel)], Raised)
    case FirstRow(description, values) =>
      Attempt([Fetched(sel), TestReported("column1" in RowFactory(description)(values))], Returned)
  }

  /** The driver calls of `oracle_disconnect` when none of them raises. */
  function DisconnectEvents(commit: bool, con: Handle, sel: Handle, upd: Handle): seq<Event>
  {
    (if commit then [Committed(con)] else []) + [Closed(upd), Closed(sel), Closed(con)]
  }

  /** The failing call of `closeFault` is one that `oracle_disconnect(commit)` makes. */
  predicate DisconnectFails(commit: bool, closeFault: CloseFault)
  {
    closeFault != NoCloseFault && (closeFault == CommitRaises ==> commit)
  }

  /** `oracle_disconnect(commit)` on a session: its calls up to the first one that raises. */
  function DisconnectAttempt(commit: bool, con: Handle, sel: Handle, upd: Handle, closeFault: CloseFault): Attempt
  {
    var commits := if commit then [Committed(con)] else [];
    match closeFault
    case NoCloseFault => Attempt(commits + [Closed(upd), Closed(sel), Closed(con)], Returned)
    case CommitRaises =>
      if commit then Attempt([], Raised) else Attempt([Closed(upd), Closed(sel), Closed(con)], Returned)
    case UpdateCloseRaises => Attempt(commits, Raised)
    case SelectCloseRaises => Attempt(commits + [Closed(upd)], Raised)
    case ConCloseRaises => Attempt(commits + [Closed(upd), Closed(sel)], Raised)
  }

  /** The body of the `cmd3` branch of `run`: connect, `cmd3`, disconnect
      without commit, stopping at the first call that raises. */
  function Cmd3Branch(d: Decision, world: World, base: nat): Attempt
  {
    var c := ConnectAttempt(d, world.execSucceeds, world.fault, base);
    if !c.step.Returned? then c
    else
      var r := QueryAndDisconnect(world, base);
      Attempt(c.events + r.events, r.step)
  }

  /** The `cmd3` branch once the session numbered from `base` is open: `cmd3`, then disconnect without commit. */
  function QueryAndDisconnect(world: World, base: nat): Attempt
  {
    var q := Cmd3Attempt(Handle(base + 1), world.fetch);
    if q.step.Raised? then q
    else
      var e := DisconnectAttempt(false, Handle(base), Handle(base + 1), Handle(base + 2), world.closeFault);
      Attempt(q.events + e.events, e.step)
  }

  /** The events of `run` for `command`; handles are numbered from `base`. */
  function RunTrace(cfg: Config, command: string, d: Decision, world: World, base: nat): seq<Event>
  {
    if command == "cmd1" then [CommandRan("cmd1")]
    else if command == "cmd2" then [CommandRan("cmd2")]
    else if command == "cmd3" then
      var b := Cmd3Branch(d, world, base);
      if b.step.Raised? then b.events + [MailSent(NotifyMail(cfg))] else b.events
    else [Unsupported]
  }

  /** How `run` ends: it returns, also after a handled exception, unless the process was replaced. */
  function RunStep(command: string, d: Decision, world: World): Step
  {
    if command == "cmd3" && d.Relaunch? && world.execSucceeds then Replaced(d.program, d.argv)
    else Returned
  }

  /** In the `cmd3` branch, `oracle_connect` or `cmd3` raises, so `oracle_disconnect` is never called. */
  predicate RaisesBeforeDisconnect(d: Decision, world: World)
  {
    || (d.Relaunch? && !world.execSucceeds)
    || (d.Proceed? && world.fault != NoFault)
    || (d.Proceed? && (world.fetch.QueryRaises? || world.fetch.NoRow?))
  }

  /** In the `cmd3` branch, connect and `cmd3` succeed and then a close in `oracle_disconnect` raises. */
  predicate RaisesInDisconnect(d: Decision, world: World)
  {
    d.Proceed? && world.fault == NoFault && world.fetch.FirstRow? && DisconnectFails(false, world.closeFault)
  }

  /** The conditions under which `run` catches an exception: only `cmd3` can raise. */
  predicate RunRaises(command: string, d: Decision, world: World)
  {
    command == "cmd3" && (RaisesBeforeDisconnect(d, world) || RaisesInDisconnect(d, world))
  }

  /** The number of driver objects, connections and cursors, created in `t`. */
  function Opened(t: seq<Event>): nat
  {
    if t == [] then 0
    else (if t[0].Connected? || t[0].CursorOpened? then 1 else 0) + Opened(t[1..])
  }

  // ---------------------------------------------------------------------------
  // Properties of the session and of the dispatcher

  /** `oracle_disconnect` commits exactly when asked and before any close, then
      closes the update cursor, the select cursor and the connection, in that order. */
  lemma DisconnectOrder(commit: bool, con: Handle, sel: Handle, upd: Handle)
    ensures var t := DisconnectEvents(commit, con, sel, upd);
      var k := if commit then 1 else 0;
      && |t| == k + 3
      && (forall i :: 0 <= i < |t| && t[i].Committed? ==> commit && i == 0)
      && (commit ==> t[0] == Committed(con))
      && t[k..] == [Closed(upd), Closed(sel), Closed(con)]
  {
  }

  /**
   * A raising call ends `oracle_disconnect`: the calls before it are made and
   * recorded, the raising call and every later one are not.
   */
  lemma DisconnectStopsAtFault(commit: bool, con: Handle, sel: Handle, upd: Handle, closeFault: CloseFault)
    ensures var a := DisconnectAttempt(commit, con, sel, upd, closeFault);
      var calls := DisconnectEvents(commit, con, sel, upd);
      && a.step == (if DisconnectFails(commit, closeFault) then Raised else Returned)
      && a.events <= calls
      && (a.step.Returned? ==> a.events == calls)
      && (a.step.Raised? ==> |a.events| < |calls|)
      && (a.step.Raised? && closeFault == CommitRaises ==> calls[|a.events|] == Committed(con))
      && (closeFault == UpdateCloseRaises ==> calls[|a.events|] == Closed(upd))
      && (closeFault == SelectCloseRaises ==> calls[|a.events|] == Closed(sel))
      && (closeFault == ConCloseRaises ==> calls[|a.events|] == Closed(con))
  {
  }

  lemma {:induction false} OpenedAppend(a: seq<Event>, b: seq<Event>)
    ensures Opened(a + b) == Opened(a) + Opened(b)
  {
    if a == [] {
      assert a + b == b;
    } else {
      assert (a + b)[0] == a[0] && (a + b)[1..] == a[1..] + b;
      OpenedAppend(a[1..], b);
    }
  }

  lemma OpenedNone(t: seq<Event>)
    requires forall e :: e in t ==> !e.Connected? && !e.CursorOpened?
    ensures Opened(t) == 0
  {
    if t != [] {
      assert forall e :: e in t[1..] ==> e in t;
      OpenedNone(t[1..]);
    }
  }

  lemma OpenedAll(t: seq<Event>)
    requires forall e :: e in t ==> e.Connected? || e.CursorOpened?
    ensures Opened(t) == |t|
  {
    if t != [] {
      assert forall e :: e in t[1..] ==> e in t;
      OpenedAll(t[1..]);
    }
  }

  /** Each successful driver call of `oracle_connect` creates one driver object. */
  lemma SessionOpened(fault: Fault, base: nat)
    ensures Opened(OpenSession(fault, base).events) == |OpenSession(fault, base).events|
  {
    OpenedAll(OpenSession(fault, base).events);
  }

  /** After the session is open, `cmd3` and `oracle_disconnect` only query, report, commit and close. */
  lemma AfterConnectOnlyUses(world: World, base: nat)
    ensures forall e :: e in QueryAndDisconnect(world, base).events ==>
      e.Fetched? || e.TestReported? || e.Committed? || e.Closed?
  {
  }

  /** In the `cmd3` branch only `oracle_connect` creates driver objects. */
  lemma BranchOpened(d: Decision, world: World, base: nat)
    ensures Opened(Cmd3Branch(d, world, base).events) == Opened(ConnectAttempt(d, world.execSucceeds, world.fault, base).events)
  {
    var c := ConnectAttempt(d, world.execSucceeds, world.fault, base);
    if c.step.Returned? {
      var r := QueryAndDisconnect(world, base);
      AfterConnectOnlyUses(world, base);
      OpenedNone(r.events);
      OpenedAppend(c.events, r.events);
    }
  }

  /**
   * `run` creates driver objects only in the `cmd3` branch after a passing
   * probe, one per successful call of `oracle_connect`: three when the session opens.
   */
  lemma TraceOpened(cfg: Config, command: string, d: Decision, world: World, base: nat)
    ensures Opened(RunTrace(cfg, command, d, world, base)) ==
      if command == "cmd3" && d.Proceed? then |OpenSession(world.fault, base).events| else 0
    ensures command == "cmd3" && d.Proceed? && world.fault == NoFault ==> Opened(RunTrace(cfg, command, d, world, base)) == 3
  {
    RunOpened(cfg, command, d, world, base);
    if command == "cmd3" {
      BranchOpened(d, world, base);
      if d.Proceed? {
        SessionOpened(world.fault, base);
      } else {
        OpenedNone(ConnectAttempt(d, world.execSucceeds, world.fault, base).events);
      }
    }
  }

  /** The objects `run` creates are those of its `cmd3` branch: the mail and the other commands create none. */
  lemma RunOpened(cfg: Config, command: string, d: Decision, world: World, base: nat)
    ensures Opened(RunTrace(cfg, command, d, world, base)) ==
      if command == "cmd3" then Opened(Cmd3Branch(d, world, base).events) else 0
  {
    var t := RunTrace(cfg, command, d, world, base);
    if command == "cmd3" {
      var b := Cmd3Branch(d, world, base);
      if b.step.Raised? {
        OpenedAppend(b.events, [MailSent(NotifyMail(cfg))]);
        OpenedNone([MailSent(NotifyMail(cfg))]);
      }
    } else {
      OpenedNone(t);
    }
  }

  /** The fields are assigned exactly when the probe passed and both cursors were opened. */
  lemma ConnectNeedsBothCursors(d: Decision, execSucceeds: bool, fault: Fault, base: nat)
    ensures var a := ConnectAttempt(d, execSucceeds, fault, base);
      a.step.Returned? <==>
        && d.Proceed?
        && CursorOpened(Handle(base), Handle(base + 1)) in a.events
        && CursorOpened(Handle(base), Handle(base + 2)) in a.events
  {
  }

  /** The decorated `oracle_connect` body runs only when the probe passed: a relaunch never connects. */
  lemma RelaunchNeverConnects(d: Decision, execSucceeds: bool, fault: Fault, base: nat)
    requires d.Relaunch?
    ensures var a := ConnectAttempt(d, execSucceeds, fault, base);
      && a.events == (if execSucceeds then [Exec(d.program, d.argv)] else [])
      && (forall e :: e in a.events ==> !e.Connected? && !e.CursorOpened?)
  {
  }

  /** `cmd1` and `cmd2` only run their own bodies; no driver object is touched. */
  lemma PlainCommands(cfg: Config, command: string, d: Decision, world: World, base: nat)
    requires command == "cmd1" || command == "cmd2"
    ensures RunTrace(cfg, command, d, world, base) == [CommandRan(command)]
    ensures RunStep(command, d, world) == Returned
  {
  }

  /** Any other token only reports that the command is not supported. */
  lemma OtherCommands(cfg: Config, command: string, d: Decision, world: World, base: nat)
    requires command != "cmd1" && command != "cmd2" && command != "cmd3"
    ensures RunTrace(cfg, command, d, world, base) == [Unsupported]
    ensures RunStep(command, d, world) == Returned
  {
  }

  /** A successful `cmd3`: connect, two cursors, the query, then disconnect without commit. */
  lemma Cmd3Order(cfg: Config, world: World, base: nat)
    requires world.fault == NoFault && world.fetch.FirstRow? && !DisconnectFails(false, world.closeFault)
    ensures var con, sel, upd := Handle(base), Handle(base + 1), Handle(base + 2);
      var ok := "column1" in RowFactory(world.fetch.description)(world.fetch.values);
      RunTrace(cfg, "cmd3", Proceed, world, base) ==
        [Connected(con), CursorOpened(con, sel), CursorOpened(con, upd), Fetched(sel), TestReported(ok),
         Closed(upd), Closed(sel), Closed(con)]
  {
  }

  /** The notification has the fixed subject, sender, recipient and priority `'1'`, not the default `'3'`. */
  lemma NotifyMailFields(cfg: Config)
    ensures var m := NotifyMail(cfg);
      && m.subject == "EXCEPTION - " + cfg.program
      && m.emailFrom == cfg.senderMail && m.emailTo == cfg.senderMail
      && m.mailHost == cfg.mailHost
      && m.priority == "1" && m.priority != DefaultPriority
  {
  }

  /** A mail goes out exactly when the command raised, and `run` then returns normally. */
  lemma NotifiesExactlyOnRaise(cfg: Config, command: string, d: Decision, world: World, base: nat)
    ensures var t := RunTrace(cfg, command, d, world, base);
      (exists e :: e in t && e.MailSent?) <==> RunRaises(command, d, world)
    ensures RunRaises(command, d, world) ==> RunStep(command, d, world) == Returned
  {
    var t := RunTrace(cfg, command, d, world, base);
    if command == "cmd3" {
      BranchOutcome(d, world, base);
      if RunRaises(command, d, world) {
        assert t[|t| - 1] in t;
      }
    }
  }

  /** The `cmd3` branch itself sends no mail, and it raises exactly under the conditions of `RunRaises`. */
  lemma BranchOutcome(d: Decision, world: World, base: nat)
    ensures var b := Cmd3Branch(d, world, base);
      && (b.step.Raised? <==> RaisesBeforeDisconnect(d, world) || RaisesInDisconnect(d, world))
      && (forall e :: e in b.events ==> !e.MailSent?)
  {
    AfterConnectOnlyUses(world, base);
  }

  /** The mail is the last thing `run` does, and it is sent once. */
  lemma NotificationIsLast(cfg: Config, command: string, d: Decision, world: World, base: nat)
    requires RunRaises(command, d, world)
    ensures var t := RunTrace(cfg, command, d, world, base);
      && t[|t| - 1] == MailSent(NotifyMail(cfg))
      && (forall i :: 0 <= i < |t| - 1 ==> !t[i].MailSent?)
  {
    BranchOutcome(d, world, base);
    var b := Cmd3Branch(d, world, base);
    var t := RunTrace(cfg, command, d, world, base);
    assert t == b.events + [MailSent(NotifyMail(cfg))];
    forall i | 0 <= i < |t| - 1 ensures !t[i].MailSent? {
      assert t[i] in b.events;
    }
  }

  /** No cleanup on failure: when connect or `cmd3` raises, nothing is committed or closed. */
  lemma NoCleanupOnRaise(cfg: Config, d: Decision, world: World, base: nat)
    requires RaisesBeforeDisconnect(d, world)
    ensures RunRaises("cmd3", d, world)
    ensures forall e :: e in RunTrace(cfg, "cmd3", d, world, base) ==> !e.Closed? && !e.Committed?
  {
  }

  /** A close that raises in `oracle_disconnect` leaves the connection open, and the failure is mailed. */
  lemma CloseFailureKeepsConnection(cfg: Config, d: Decision, world: World, base: nat)
    requires RaisesInDisconnect(d, world)
    ensures var t := RunTrace(cfg, "cmd3", d, world, base);
      && RunRaises("cmd3", d, world)
      && Closed(Handle(base)) !in t
      && t[|t| - 1] == MailSent(NotifyMail(cfg))
  {
    BranchOnCloseFailure(d, world, base);
  }

  /** The `cmd3` branch raises when a close raises, and the connection is not among the closed objects. */
  lemma BranchOnCloseFailure(d: Decision, world: World, base: nat)
    requires RaisesInDisconnect(d, world)
    ensures Cmd3Branch(d, world, base).step == Raised
    ensures Closed(Handle(base)) !in Cmd3Branch(d, world, base).events
  {
    var con, sel := Handle(base), Handle(base + 1);
    var c := OpenSession(NoFault, base);
    var q := Cmd3Attempt(sel, world.fetch);
    var e := DisconnectAttempt(false, con, sel, Handle(base + 2), world.closeFault);
    assert Closed(con) !in e.events;
    assert Closed(con) !in q.events;
    var r := QueryAndDisconnect(world, base);
    assert r == Attempt(q.events + e.events, Raised);
    var b := Cmd3Branch(d, world, base);
    assert b == Attempt(c.events + r.events, Raised);
    assert Closed(con) !in b.events;
  }

  /** One run opens at most one connection, and only as its first action. */
  lemma AtMostOneConnection(cfg: Config, command: string, d: Decision, world: World, base: nat)
    ensures var t := RunTrace(cfg, command, d, world, base);
      forall i :: 0 <= i < |t| && t[i].Connected? ==> i == 0
  {
    var t := RunTrace(cfg, command, d, world, base);
    if command == "cmd3" {
      var c := ConnectAttempt(d, world.execSucceeds, world.fault, base);
      var b := Cmd3Branch(d, world, base);
      ConnectFirst(d, world.execSucceeds, world.fault, base);
      AfterConnectOnlyUses(world, base);
      var r := if c.step.Returned? then QueryAndDisconnect(world, base).events else [];
      assert b.events == c.events + r;
      var rest := r + (if b.step.Raised? then [MailSent(NotifyMail(cfg))] else []);
      assert t == c.events + rest;
      assert forall i :: 0 <= i < |c.events| ==> t[i] == c.events[i];
      assert forall i :: |c.events| <= i < |t| ==> t[i] in rest;
    }
  }

  /** `oracle_connect` opens its connection before anything else. */
  lemma ConnectFirst(d: Decision, execSucceeds: bool, fault: Fault, base: nat)
    ensures var c := ConnectAttempt(d, execSucceeds, fault, base);
      forall i :: 0 <= i < |c.events| && c.events[i].Connected? ==> i == 0
  {
  }

  /**
   * A run of `cmd3` whose probe fails relaunches once; the relaunched process,
   * started with the extended environment, proceeds and, with a working
   * driver, opens its session.  Its arguments do not take part.
   */
  lemma {:induction false} RelaunchThenConnect(cfg: Config, osName: string, env: Environ, executable: string,
                                               argv: Argv, world: World, world': World, base: nat, base': nat)
    requires osName == Nt || osName == Posix
    requires !Probe(cfg.icPath, osName, env)
    requires world.execSucceeds && world'.fault == NoFault
    ensures var d := Decide(cfg.icPath, osName, env, executable, argv);
      var d' := Decide(cfg.icPath, osName, d.env, executable, argv);
      && RunTrace(cfg, "cmd3", d, world, base) == [Exec(d.program, d.argv)]
      && RunStep("cmd3", d, world) == Replaced(d.program, d.argv)
      && d' == Proceed
      && RunTrace(cfg, "cmd3", d', world', base')[0] == Connected(Handle(base'))
  {
    RelaunchConverges(cfg.icPath, osName, env, executable, argv);
  }

  // ---------------------------------------------------------------------------
  // The application object

  class App {
    const cfg: Config
    var oraCon: Option<Handle>
    var oraSelectCur: Option<Handle>
    var oraUpdateCur: Option<Handle>
    /** Everything the program has done, oldest first. */
    var events: seq<Event>
    /** The number of driver objects created so far. */
    var nextHandle: nat

    /** The three session fields are set together, to three distinct driver objects. */
    ghost predicate Valid()
      reads this
    {
      && (oraCon.Some? <==> oraSelectCur.Some?)
      && (oraCon.Some? <==> oraUpdateCur.Some?)
      && (oraCon.Some? ==>
            && oraCon.value.id < oraSelectCur.value.id < oraUpdateCur.value.id < nextHandle)
    }

    constructor (cfg: Config)
      ensures Valid()
      ensures this.cfg == cfg && events == [] && nextHandle == 0
      ensures oraCon == None && oraSelectCur == None && oraUpdateCur == None
    {
      this.cfg := cfg;
      oraCon, oraSelectCur, oraUpdateCur := None, None, None;
      events := [];
      nextHandle := 0;
    }

    /**
     * The session fields after a call: the three objects numbered from `base`
     * when `connected`, otherwise the values they had before.
     */
    ghost predicate SessionAfter(connected: bool, base: nat, con: Option<Handle>, sel: Option<Handle>, upd: Option<Handle>)
      reads this
    {
      if connected then
        oraCon == Some(Handle(base)) && oraSelectCur == Some(Handle(base + 1)) && oraUpdateCur == Some(Handle(base + 2))
      else
        oraCon == con && oraSelectCur == sel && oraUpdateCur == upd
    }

    /** A new driver object. */
    method NewHandle() returns (h: Handle)
      modifies this`nextHandle
      ensures h == Handle(old(nextHandle)) && nextHandle == old(nextHandle) + 1
    {
      h := Handle(nextHandle);
      nextHandle := nextHandle + 1;
    }

    /**
     * The body of `oracle_connect`: the connection and both cursors are
     * created, and the three fields are assigned together only once both
     * cursors exist; a driver call that raises leaves the fields as they were.
     */
    method OpenOracleSession(fault: Fault) returns (step: Step)
      requires Valid()
      modifies this
      ensures Valid()
      ensures var a := OpenSession(fault, old(nextHandle));
        step == a.step && events == old(events) + a.events && nextHandle == old(nextHandle) + Opened(a.events)
      ensures step.Returned? ==>
        && oraCon == Some(Handle(old(nextHandle)))
        && oraSelectCur == Some(Handle(old(nextHandle) + 1))
        && oraUpdateCur == Some(Handle(old(nextHandle) + 2))
      ensures !step.Returned? ==>
        oraCon == old(oraCon) && oraSelectCur == old(oraSelectCur) && oraUpdateCur == old(oraUpdateCur)
    {
      SessionOpened(fault, nextHandle);
      if fault == ConnectRaises {
        return Raised;
      }
      var con := NewHandle();
      events := events + [Connected(con)];
      if fault == FirstCursorRaises {
        return Raised;
      }
      var sel := NewHandle();
      events := events + [CursorOpened(con, sel)];
      if fault == SecondCursorRaises {
        return Raised;
      }
      var upd := NewHandle();
      events := events + [CursorOpened(con, upd)];
      oraCon, oraSelectCur, oraUpdateCur := Some(con), Some(sel), Some(upd);
      step := Returned;
    }

    /**
     * `oracle_connect` as decorated by `oracle_decorator`.  On a failed probe
     * the search path of `proc` is extended and `os.execv` replaces the
     * process, or raises; the session is opened only when the probe passed.
     */
    method OracleConnect(proc: Process, world: World) returns (step: Step)
      requires Valid()
      modifies this, proc
      ensures Valid()
      ensures var d := Decide(cfg.icPath, proc.osName, old(proc.environ), proc.executable, proc.argv);
        var a := ConnectAttempt(d, world.execSucceeds, world.fault, old(nextHandle));
        && step == a.step
        && events == old(events) + a.events
        && proc.environ == (if d.Relaunch? then d.env else old(proc.environ))
        && nextHandle == old(nextHandle) + Opened(a.events)
      ensures step.Returned? ==>
        && oraCon == Some(Handle(old(nextHandle)))
        && oraSelectCur == Some(Handle(old(nextHandle) + 1))
        && oraUpdateCur == Some(Handle(old(nextHandle) + 2))
      ensures !step.Returned? ==>
        oraCon == old(oraCon) && oraSelectCur == old(oraSelectCur) && oraUpdateCur == old(oraUpdateCur)
      ensures var d := Decide(cfg.icPath, proc.osName, old(proc.environ), proc.executable, proc.argv);
        SessionAfter(d.Proceed? && world.fault == NoFault, old(nextHandle), old(oraCon), old(oraSelectCur), old(oraUpdateCur))
    {
      var d := proc.CheckEnvironment(cfg.icPath);
      if d.Relaunch? {
        if world.execSucceeds {
          events := events + [Exec(d.program, d.argv)];
          return Replaced(d.program, d.argv);
        }
        return Raised;
      }
      step := OpenOracleSession(world.fault);
    }

    /**
     * `oracle_disconnect(commit)`: commit first when asked, then close the
     * update cursor, the select cursor and the connection, stopping at the
     * driver call that `closeFault` makes raise.  With no session the first
     * call on `None` raises.  The fields keep their values.
     */
    method OracleDisconnect(commit: bool, closeFault: CloseFault) returns (step: Step)
      requires Valid()
      modifies this`events
      ensures oraCon.None? ==> step == Raised && events == old(events)
      ensures oraCon.Some? ==>
        var a := DisconnectAttempt(commit, oraCon.value, oraSelectCur.value, oraUpdateCur.value, closeFault);
        step == a.step && events == old(events) + a.events
    {
      if commit {
        if oraCon.None? || closeFault == CommitRaises {
          return Raised;
        }
        events := events + [Committed(oraCon.value)];
      }
      if oraUpdateCur.None? || closeFault == UpdateCloseRaises {
        return Raised;
      }
      events := events + [Closed(oraUpdateCur.value)];
      if oraSelectCur.None? || closeFault == SelectCloseRaises {
        return Raised;
      }
      events := events + [Closed(oraSelectCur.value)];
      if oraCon.None? || closeFault == ConCloseRaises {
        return Raised;
      }
      events := events + [Closed(oraCon.value)];
      step := Returned;
    }

    /** `cmd3`: run the test query on the select cursor and report whether the row has `column1`. */
    method Cmd3(fetch: Fetch) returns (step: Step)
      modifies this`events
      ensures oraSelectCur.None? ==> step == Raised && events == old(events)
      ensures oraSelectCur.Some? ==>
        var a := Cmd3Attempt(oraSelectCur.value, fetch);
        step == a.step && events == old(events) + a.events
    {
      if oraSelectCur.None? {
        return Raised;
      }
      var sel := oraSelectCur.value;
      if fetch.QueryRaises? {
        return Raised;
      }
      events := events + [Fetched(sel)];
      if fetch.NoRow? {
        return Raised;
      }
      var createRow := RowFactory(fetch.description);
      var res := createRow(fetch.values);
      events := events + [TestReported("column1" in res)];
      step := Returned;
    }

    /** The `cmd3` branch of `run` once the session numbered from `base` is open: `cmd3`, then `oracle_disconnect()`. */
    method QueryThenDisconnect(world: World, ghost base: nat) returns (step: Step)
      requires Valid()
      requires oraCon == Some(Handle(base)) && oraSelectCur == Some(Handle(base + 1)) && oraUpdateCur == Some(Handle(base + 2))
      modifies this`events
      ensures var r := QueryAndDisconnect(world, base);
        step == r.step && events == old(events) + r.events
    {
      step := Cmd3(world.fetch);
      if step.Raised? {
        return;
      }
      step := OracleDisconnect(false, world.closeFault);
    }

    /** The `cmd3` branch of `run`, up to the exception handler. */
    method RunCmd3(proc: Process, world: World) returns (step: Step)
      requires Valid()
      modifies this, proc
      ensures Valid()
      ensures var d := Decide(cfg.icPath, proc.osName, old(proc.environ), proc.executable, proc.argv);
        var b := Cmd3Branch(d, world, old(nextHandle));
        && events == old(events) + b.events
        && step == b.step
        && proc.environ == (if d.Relaunch? then d.env else old(proc.environ))
        && nextHandle == old(nextHandle) + Opened(b.events)
      ensures var d := Decide(cfg.icPath, proc.osName, old(proc.environ), proc.executable, proc.argv);
        SessionAfter(d.Proceed? && world.fault == NoFault, old(nextHandle), old(oraCon), old(oraSelectCur), old(oraUpdateCur))
    {
      BranchOpened(Decide(cfg.icPath, proc.osName, proc.environ, proc.executable, proc.argv), world, nextHandle);
      step := OracleConnect(proc, world);
      if !step.Returned? {
        return;
      }
      step := QueryThenDisconnect(world, old(nextHandle));
    }

    /**
     * `run`: dispatch on the command token; an exception from the command is
     * caught and reported by mail, and `run` then returns normally.  There is
     * no `finally`: a failing `cmd3` leaves the session open.
     */
    method Run(command: string, proc: Process, world: World) returns (step: Step)
      requires Valid()
      modifies this, proc
      ensures Valid()
      ensures var d := Decide(cfg.icPath, proc.osName, old(proc.environ), proc.executable, proc.argv);
        && events == old(events) + RunTrace(cfg, command, d, world, old(nextHandle))
        && step == RunStep(command, d, world)
        && proc.environ == (if command == "cmd3" && d.Relaunch? then d.env else old(proc.environ))
        && nextHandle == old(nextHandle) + Opened(RunTrace(cfg, command, d, world, old(nextHandle)))
      ensures var d := Decide(cfg.icPath, proc.osName, old(proc.environ), proc.executable, proc.argv);
        SessionAfter(command == "cmd3" && d.Proceed? && world.fault == NoFault,
                     old(nextHandle), old(oraCon), old(oraSelectCur), old(oraUpdateCur))
    {
      RunOpened(cfg, command, Decide(cfg.icPath, proc.osName, proc.environ, proc.executable, proc.argv), world, nextHandle);
      var raised := false;
      if command == "cmd1" {
        events := events + [CommandRan("cmd1")];
      } else if command == "cmd2" {
        events := events + [CommandRan("cmd2")];
      } else if command == "cmd3" {
        var s := RunCmd3(proc, world);
        if s.Replaced? {
          return s;
        }
        raised := s.Raised?;
      } else {
        events := events + [Unsupported];
      }
      if raised {
        events := events + [MailSent(NotifyMail(cfg))];
      }
      step := Returned;
    }
  }

  /**
   * `cmd3` started with the Instant Client missing from the search path.  The
   * first process extends its environment and replaces itself; the second,
   * started with that environment, opens its session.  The second process is
   * given the first one's `sys.argv`, which is what a relaunch passes on
   * `posix`; on `nt` the arguments can be split differently.
   */
  method RelaunchScenario(cfg: Config, environ: Environ, osName: string, executable: string, argv: Argv, world: World)
    returns (first: seq<Event>, second: seq<Event>)
    requires osName == Nt || osName == Posix
    requires !Probe(cfg.icPath, osName, environ)
    requires world.execSucceeds && world.fault == NoFault
    ensures first == if osName == Nt then [Exec(executable, [executable] + argv)] else [Exec(argv[0], argv)]
    ensures |second| > 0 && second[0] == Connected(Handle(0))
  {
    RelaunchThenConnect(cfg, osName, environ, executable, argv, world, world, 0, 0);
    var proc := new Process(environ, osName, executable, argv);
    var app := new App(cfg);
    var step := app.Run("cmd3", proc, world);
    first := app.events;
    var proc' := new Process(proc.environ, osName, executable, argv);
    var app' := new App(cfg);
    step := app'.Run("cmd3", proc', world);
    second := app'.events;
  }
}
