# pybase: Oracle bootstrap, session and dispatch, in Dafny

pybase is a skeleton command-line application. This project models its decision logic, all of it in `pybase.py`:

- **Environment check and self-relaunch** (`oracle_decorator`). The probe `ora_check` asks whether the Oracle Instant Client path `ic_path` appears in `PATH` (on `nt`) or in `LD_LIBRARY_PATH` (on `posix`). When it does not, the program extends that variable in `os.environ` and replaces itself with `os.execv`.
  - `OracleEnvironment.Decide` is that decision as a function. Its result is `Proceed` or `Relaunch(env, program, argv)`, so the `execv` call becomes data.
  - `OracleEnvironment.Process.CheckEnvironment` performs the same steps on a `Process` object whose `environ` field is updated in place, as `os.environ` is.
- **Row factory** (`oracle_row_factory` / `create_row`). `Rows.RowFactory` builds, from a cursor description, the function that turns a fetched tuple into a name-keyed record.
  - It follows `dict(zip(...))`: the record is truncated to the shorter input, a later duplicate name wins, and `None` becomes `''`.
- **Session lifecycle** (`oracle_connect` / `oracle_disconnect`). `PyBase.App` holds the three fields `ora_con`, `ora_select_cur` and `ora_update_cur` as `oraCon`, `oraSelectCur` and `oraUpdateCur`.
  - Every driver call is appended to the trace `events`.
  - Driver objects are opaque `Handle`s.
- **Dispatch** (`run`). `PyBase.App.Run` dispatches on the command token and mails a notification when the command raises.
  - Its new trace is given by the specification function `PyBase.RunTrace`.
  - The lemmas next to `RunTrace` state the orderings.

Nothing outside the program is executed: the driver, `os.execv` and SMTP are not run. How each of them turns out in one run is an input, a `World` value: whether `execv` starts the program, which driver call of `oracle_connect` raises, what the query of `cmd3` returns, and which call of `oracle_disconnect` (the commit or one of the closes) raises.

Behaviour of the code worth noting, which the model follows:

- The code appends with `;` on both OS branches, not with the platform's path-list separator. On `posix` this still works with glibc's loader, which accepts both `:` and `;` in `LD_LIBRARY_PATH`.
- The probe recognises only `nt` and `posix`. On any other `os.name` a configured path never passes, so the relaunch repeats (`RelaunchRepeatsOnOtherOs`). CPython 3 reports only `nt` or `posix`.
- `run` catches the exception, sends the mail and then returns normally. It does not end the process with a non-zero status.
- Nothing guarantees that the session is released. When `oracle_connect` or `cmd3` raises, `oracle_disconnect` is not called (`NoCleanupOnRaise`). When one of its closes raises, the objects after it, the connection among them, stay open (`CloseFailureKeepsConnection`).
- `oracle_disconnect` leaves the three fields set after closing them.

## Model

| member | source | states |
|---|---|---|
| Text.Find | pybase.py:236-239 | `str.find`: -1 exactly when the substring occurs nowhere; otherwise an index where it occurs, with no occurrence before it |
| OracleEnvironment.Probe | pybase.py:235-239 | `ora_check`, with `find` as `Text.Find` and `os.environ.get` read as a truth value; its meaning is stated by `ProbeEmptyPath`, `ProbeOccurrence`, `ProbeIgnoresOtherVariable` and `ProbeFailsOnOtherOs` |
| OracleEnvironment.Decide | pybase.py:232-266 | the whole `wrapper`, with `os.execv` as a `Relaunch` value; stated by `ProceedIffProbe`, `RelaunchEnvironment`, `RelaunchTarget`, `RelaunchConverges` and `RelaunchRepeatsOnOtherOs` |
| OracleEnvironment.ProbeEmptyPath | pybase.py:235 | an empty `ic_path` passes the probe whatever the environment holds |
| OracleEnvironment.ProbeOccurrence | pybase.py:235-239 | for a non-empty path on `nt`/`posix`, the probe passes iff the OS's variable (absent read as "") has an occurrence of the path |
| OracleEnvironment.ProbeIgnoresOtherVariable | pybase.py:235-239 | on every OS name, changing any variable other than the search path of that OS (`PATH` on `nt`, else `LD_LIBRARY_PATH`) leaves the probe unchanged |
| OracleEnvironment.ProbeFailsOnOtherOs | pybase.py:235-239 | on any OS name other than `nt` and `posix` a non-empty path never passes |
| OracleEnvironment.ProceedIffProbe | pybase.py:241-250 | the decorated function is run exactly when the probe passes |
| OracleEnvironment.RelaunchEnvironment | pybase.py:254-265 | on relaunch only the selected variable changes: it becomes `ic_path` if absent or empty, else `old + ";" + ic_path`; all other entries are kept |
| OracleEnvironment.RelaunchTarget | pybase.py:259-266 | `nt` relaunches `sys.executable` on `[sys.executable] + sys.argv`; otherwise `sys.argv[0]` on `sys.argv` |
| OracleEnvironment.RelaunchConverges | pybase.py:219-225 | on `nt`/`posix` the relaunched environment passes the probe, so the second process proceeds: at most one relaunch |
| OracleEnvironment.RelaunchRepeatsOnOtherOs | pybase.py:236-266 | on another OS name the relaunched process decides to relaunch again |
| OracleEnvironment.Process.CheckEnvironment | pybase.py:233-266 | the in-place update of `os.environ` equals the environment of the relaunch decision, and the environment is untouched when the probe passes |
| Rows.ColumnNames | pybase.py:314 | one name per column of the description, in order, each the column's name lower-cased |
| Rows.Normalized | pybase.py:318 | one value per fetched value, in order: `None` becomes `''`, every other value is kept |
| Rows.CreateRow | pybase.py:316-318 | `create_row`: `dict(zip(names, normalized args))`; stated by `RowKeys`, `RowValues`, `RowHasNoNull` and `DuplicateLastWins` |
| Rows.RowFactory | pybase.py:297-320 | `oracle_row_factory` applied to a description, giving `create_row` over that description's names; stated by `TwoColumnExample` and `DuplicateLastWins` |
| Rows.Dict | pybase.py:317-318 | `dict` of pairs: keys are exactly the names, the value of a name is that of its last occurrence, every value is one of the values given |
| Rows.RowKeys | pybase.py:314-318 | a record's keys are exactly the lower-cased names of the columns paired with a value, up to the shorter length |
| Rows.RowValues | pybase.py:316-318 | each paired column whose name does not recur later holds its fetched value, `None` read as `''` |
| Rows.RowHasNoNull | pybase.py:318 | no record holds `None` |
| Rows.DuplicateLastWins | pybase.py:314-318 | two columns whose names lower-case alike give one key, holding the value of the later column (`None` read as `''`) |
| Rows.TwoColumnExample | pybase.py:314-318 | columns `COL1`, `COL2` with `(None, "x")` give `{"col1": "", "col2": "x"}` |
| PyBase.App.constructor | pybase.py:39-42 | a new application has no connection and no cursors |
| PyBase.App.OpenOracleSession | pybase.py:278-286 | connect, then two cursors; the three fields are assigned together only when both cursors exist, and are unchanged when a driver call raises; one new driver object per successful call |
| PyBase.App.OracleConnect | pybase.py:241-286 | runs the environment decision on the process, then either relaunches (or raises when `execv` fails) without touching the session, or opens it; the fields hold the three new objects exactly when the probe passed and no driver call raised |
| PyBase.App.OracleDisconnect | pybase.py:288-295 | commit when asked, then close update cursor, select cursor, connection, stopping at the call that raises; raises on a missing session; fields keep their values |
| PyBase.App.Cmd3 | pybase.py:340-354 | query on the select cursor, record built by the row factory, `'column1' in res` reported; raises when the query fails or returns no row |
| PyBase.App.QueryThenDisconnect | pybase.py:73-74 | on an open session, `cmd3` and then `oracle_disconnect()` without commit, stopping at the first call that raises |
| PyBase.App.RunCmd3 | pybase.py:71-74 | connect, `cmd3`, disconnect without commit, stopping at the first call that raises; afterwards the fields hold the three new objects when the session opened (also after disconnect) and are unchanged otherwise; the object counter grows by the objects created |
| PyBase.App.Run | pybase.py:64-92 | new trace equals the dispatch specification; the session fields are the new objects exactly when `cmd3` opened a session, else unchanged; the object counter grows by the connections and cursors in the trace; the environment changes only on a relaunch |
| PyBase.NotifyMail | pybase.py:79-91 | the parameters of the notification's `send_mail` call; stated by `NotifyMailFields` |
| PyBase.DisconnectEvents | pybase.py:288-295 | the calls of `oracle_disconnect` when none raises; their order is stated by `DisconnectOrder` |
| PyBase.DisconnectAttempt | pybase.py:288-295 | `oracle_disconnect` when one of its driver calls may raise; stated by `DisconnectStopsAtFault` |
| PyBase.RunTrace | pybase.py:64-92 | the events of one `run`; stated by `PlainCommands`, `OtherCommands`, `Cmd3Order`, `NotifiesExactlyOnRaise`, `NotificationIsLast`, `NoCleanupOnRaise`, `CloseFailureKeepsConnection`, `AtMostOneConnection` and `TraceOpened` |
| PyBase.DisconnectOrder | pybase.py:288-295 | commit happens iff `commit` is true and comes first; the closes follow in the order update cursor, select cursor, connection |
| PyBase.DisconnectStopsAtFault | pybase.py:288-295 | `oracle_disconnect` raises exactly when the failing call is one it makes (the commit only when asked); the calls before it are made, the failing one and all later ones are not; with no failure all calls are made |
| PyBase.ConnectNeedsBothCursors | pybase.py:283-286 | `oracle_connect` returns (and assigns the fields) iff the probe passed and both cursors were opened |
| PyBase.RelaunchNeverConnects | pybase.py:241-266 | on the relaunch path no connection or cursor is ever opened; the only event is the `execv` |
| PyBase.PlainCommands | pybase.py:67-70 | `cmd1` and `cmd2` run their bodies and touch no driver object |
| PyBase.OtherCommands | pybase.py:75-76 | any other token only reports `Command not supported` |
| PyBase.Cmd3Order | pybase.py:71-74 | a successful `cmd3` run is connect, two cursors, query, report, then close update, select, connection, with no commit |
| PyBase.TraceOpened | pybase.py:71-74 | driver objects are created only by `oracle_connect` in the `cmd3` branch after a passing probe, one per successful call: three when the session opens |
| PyBase.NotifyMailFields | pybase.py:79-91 | the mail's subject is `"EXCEPTION - " + program`, From = To = `sender_mail`, host `mail_host`, priority `'1'`, not the default `'3'` (pybase.py:183) |
| PyBase.NotifiesExactlyOnRaise | pybase.py:77-92 | a mail is sent iff the command raised, and `run` then returns normally |
| PyBase.NotificationIsLast | pybase.py:77-92 | after an exception the mail is the last event and is sent once |
| PyBase.NoCleanupOnRaise | pybase.py:71-74 | when `oracle_connect` or `cmd3` raises, the exception is caught and nothing is committed or closed |
| PyBase.CloseFailureKeepsConnection | pybase.py:71-92 | when a close in `oracle_disconnect` raises, the exception is caught, the connection is never closed and the mail is the last event |
| PyBase.AtMostOneConnection | pybase.py:64-92 | one run opens at most one connection, and only as its first action |
| PyBase.RelaunchThenConnect | pybase.py:219-225 | a failed probe gives exactly one relaunch; the relaunched process proceeds and opens its session |
| PyBase.RelaunchScenario | pybase.py:64-74 | two runs of `cmd3`: the first replaces the process with the computed target; the second, under the extended environment, starts by connecting |

## Left out

- Argument parsing and logger construction (pybase.py:97-162): library configuration with file and syslog output. The command token and `os.name` are inputs.
- The logging calls and the printed console text. `cmd1`, `cmd2`, `Command not supported` and the `cmd3` test result are recorded as events, without their text.
- SMTP sending (pybase.py:191-200): only the parameters of the `send_mail` call are modelled. A failure of the mail server, which would escape `run`, is not modelled.
- The mail body: the `maildata.NOTIFY_TEXT` template and the traceback. `maildata` and `oradata`, including the SQL text, are not part of this model.
- The root/administrator check (pybase.py:203-211): a foreign OS call.
- `timer_decorator` (pybase.py:166-180): it works on wall-clock time.
- The `cx_Oracle` import and the driver calls `connect`, `cursor`, `execute`, `fetchone`, `commit` and `close`. They are opaque handles and events; whether a call raises is an input. The import is taken to succeed whenever the probe passes.
- The process replacement itself. `os.execv` is the `Exec` event. In `RelaunchScenario` the relaunched process is a new `Process` and `App` with the extended environment and the first process's `sys.argv`.
- The argument vector the relaunched process actually receives. On `posix` it is the `sys.argv` passed to `execv`. On `nt`, the C runtime joins the arguments of `execv` with spaces without quoting them, so an interpreter path or an argument that contains a space reaches the new process split differently. `RelaunchTarget` states only what is passed to `execv`, and `RelaunchConverges` does not depend on the arguments.
- The driver's reaction to closing an already-closed cursor or connection. Calling `oracle_disconnect` twice records the closes twice.
- Text.Lower: lower-cases ASCII letters only. Python's `str.lower` also maps non-ASCII letters.
- On `nt`, `os.environ` is case-insensitive in its keys. The model treats `PATH` as an exact key.
