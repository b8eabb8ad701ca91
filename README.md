# server-bot in Dafny

A Dafny model of the logic inside server-bot, a Telegram bot that lets the
administrators of a small server look at its disks, services, uptime and
processes, and run shell commands. The model leaves the Telegram transport
aside and keeps the logic the bot wraps around it:

- the command runner (`commands.py`):
  - the choice between a shell and a word-split argument vector;
  - the mapping of every run outcome to the text the user sees;
  - the catalog of fifteen predefined commands;
- the report builders (`monitoring.py`):
  - the `df -h -T` table, with its psutil fallback and the probe of three external mount points;
  - the `lsblk -r` device tree;
  - the service report;
  - the uptime split;
  - the top-processes table, a stable descending sort by CPU cut to `top_n` rows;
- the bot (`bot.py`):
  - truncation of command output;
  - the memory view and the fifteen-line status view;
  - the dispatch of button callbacks, including the `quick_` commands;
  - the per-user `awaiting_command` flag and the map of each user's last menu message;
  - the administrator gates;
- the `ADMIN_IDS` parsing loop and the constant settings (`config.py`);
- the HTTP status classification and the game-server address parsing (`services.py`).

## Modules

| File | Module | What it holds |
|---|---|---|
| `wrappers.dfy` | `Wrappers` | `Option` and `Result`, and `Present`, the values kept from a sequence of `Option`s. |
| `text.dfy` | `Text` | The Python `str` operations the source relies on, with their laws. |
| `config.dfy` | `Config` | Settings and the admin-ID loop (`ParseAdminIds`). |
| `commands.dfy` | `Commands` | `execute_command` and the catalog. |
| `services.dfy` | `Services` | `check_service_status` and `check_minecraft_server`. |
| `monitoring.dfy` | `Monitoring` | The report builders. |
| `bot.dfy` | `Bot` | The text pipeline, the dispatch, and the class `BotState`. |

`Text` covers these Python `str` operations: `strip`, `split(c)`, `split()`, `join`, `in`, `startswith`, `lower`, `int()`, `str()` of an integer, and padding in format specifiers.

The environment enters as inputs.
- A run of a command is a `Runner` returning an outcome: exited with a code and streams, timed out, or raised.
- `shlex.split` is a `WordSplitter` that may fail.
- A socket connect is a `Connect` that returns a code or raises.
- An HTTP GET is an `HttpGet` that returns a status or raises.
- The output of `df` or `lsblk` is a `Result<string>`.
- A `systemctl is-active` query is a `UnitQuery`, which gives the unit's state as an `Option<string>`: `None` where the call raises.
- psutil's lists are sequences.
- `auth.is_admin` is the predicate `BotState.isAdmin`.

Each loop of the source is a method, proved equal to a function that specifies it. The lsblk loop is the one exception: it is proved equal to the corrected positional reader (see "## Findings"), and what the source's own loop computes is shown only by `Monitoring.LsblkDiskDropped` and `Monitoring.LsblkPartitionShifted`. The loops are:
- the admin-ID loop;
- the df, partition and mount-probe loops, and the device search;
- the lsblk loop;
- the port, unit and configured-service loops;
- the process collection and rendering loops;
- the memory-keyword filter.

The state that `bot.py` mutates is the class `Bot.BotState`: the `user_messages` map and the per-user `awaiting_command` flag. A ghost field records the commands run.

## Model

| member | source | states |
|---|---|---|
| Config.ParseAdminIds | config.py:19-28 | The loop returns the ids of the pieces that parse, in input order, and the rejected pieces. Together they account for every comma-separated piece. |
| Config.AdminIdsOf | config.py:19-28 | No more ids than pieces. A missing or empty `ADMIN_IDS` gives no ids. |
| Config.Rejected | config.py:25-26 | Accepted and rejected pieces together number the pieces. |
| Config.AdminIdsStep | config.py:22-24 | One loop step appends the piece's id when the piece parses, and adds nothing otherwise. |
| Config.RejectedStep | config.py:25-26 | One loop step records the piece as invalid exactly when it does not parse, and the loop goes on. |
| Wrappers.PresentSnoc | config.py:24 | Keeping the parsed values is compositional over appending. |
| Config.RejectedSnoc | config.py:25-26 | Recording invalid pieces is compositional over appending. |
| Config.ParsedPiecesSnoc | config.py:22-24 | Parsing one more piece extends the parsed list by that piece's result. |
| Wrappers.Present | config.py:24 | Keeping the values of the successful parses never lengthens the list. |
| Wrappers.PresentMembership | config.py:24 | An id is kept exactly when some piece parsed to it. |
| Config.AdminIdsMembership | config.py:22-26 | An id is an admin exactly when some piece parses to it. |
| Wrappers.PresentOfAllSome | config.py:24 | When every piece parses, the ids are all the parsed values, in order. |
| Config.AdminIdsOfPrinted | config.py:22-26 | Printed ids parse back to themselves. |
| Config.AdminIdsRoundTrip | config.py:19-26 | Ids joined with commas parse back to the same list, one piece per id. |
| Commands.LaunchChoice | commands.py:9-26 | The shell is used exactly when one of `\|`, `&&`, `>`, `sudo` occurs in the command. Otherwise the command is word-split, and a failing split reports "⚠️ Ошибка: " and its message. |
| Commands.ExitedReport | commands.py:28-33 | The shown output is stdout when non-empty, else stderr. Exit code 0 shows it, or the success marker when both streams are empty. A nonzero code is prefixed with "❌ Ошибка (код". |
| Commands.ExitReportDecodes | commands.py:32-33 | The failure report gives back the exit code and the output. |
| Commands.SplitFirstAt | commands.py:33 | Splitting at the first separator recovers the two parts. |
| Commands.Report | commands.py:28-38 | Every outcome, including a timeout and any other exception, becomes a non-empty text. |
| Commands.ExecuteCommand | commands.py:5-38 | `execute_command` always returns a non-empty text and never raises. |
| Commands.LookupIn | commands.py:41-102 | A found entry is in the catalog under that key. When nothing is found, no entry has the key. |
| Commands.CatalogWellFormed | commands.py:41-102 | Fifteen entries, each with a command and a description. Keys are distinct, so each key finds its own entry. |
| Commands.CatalogFilled | commands.py:41-102 | Fifteen entries, each with a non-empty command and description. |
| Commands.CatalogKeysDistinct | commands.py:41-102 | No key is used twice. |
| Commands.LookupFindsDistinct | commands.py:41-102 | When keys are distinct, looking up an entry's key finds that entry. |
| Commands.CatalogKeysLong | commands.py:41-102 | Every key is at least six characters long. |
| Commands.ManagementNamesAbsent | commands.py:41-102 | No key is "reboot", "shutdown" or "logs". |
| Services.ServiceStatusClassification | services.py:8-18 | "🟢 Онлайн" exactly for a 2xx response. "🔴 Офлайн" exactly when the request raises. Any other status gives "🟡 Ошибка " followed by the code. |
| Services.GameServerTargetRoundTrip | services.py:23-28 | `host:port` splits into the host and the integer port. A bare host gets port 25565. |
| Services.GameServerTooManyColons | services.py:23-43 | An address with two colons makes the unpack raise, so for every timeout and every connect the check reports "🔴 Ошибка" without connecting. |
| Services.GameServerBadPort | services.py:23-43 | A host:port address whose port `int()` rejects raises too, and the check reports "🔴 Ошибка" for every timeout and connect. |
| Services.GameServerOnline | services.py:20-43 | "🟢 Онлайн" exactly when the address parses and the connect returns 0. |
| Monitoring.GetDiskInfo | monitoring.py:50-122 | The text is the df entries, or the partition fallback when df fails, followed by the probed external mounts. It is the fixed "no information" text when there are no entries. |
| Monitoring.ReadDfRows | monitoring.py:63-81 | The loop renders exactly the rows that `DfEntries` selects. |
| Monitoring.ReadPartitions | monitoring.py:84-95 | The fallback loop renders each partition whose usage query succeeds. |
| Monitoring.ProbeMounts | monitoring.py:98-117 | The mounts are probed in order. Each mountpoint with readable usage is appended as an external entry. |
| Monitoring.FindDevice | monitoring.py:104-108 | The search loop returns `DeviceAt`: the first partition mounted there, else "Unknown". |
| Monitoring.DeviceAtSpec | monitoring.py:104-108 | The device is the first partition with that mountpoint, or "Unknown" when none matches. |
| Monitoring.DfEntries | monitoring.py:63-81 | No more entries than table rows. |
| Monitoring.DfLineRoundTrip | monitoring.py:64-72 | A row of seven fields, with any extra fields, reads back as those seven fields in order. |
| Monitoring.ParseDfWords | monitoring.py:64-72 | A line with at least seven fields reads as its first seven, in order. |
| Monitoring.TableHeaderSkipped | monitoring.py:60-63 | For any output whose stripped text is the table's lines, only the header line is skipped and every other line is read, in order. |
| Monitoring.TableOutputRows | monitoring.py:60-63 | The same holds for a table printed with a final newline, as utilities print it. |
| Monitoring.GetDetailedDiskInfo | monitoring.py:124-153 | The text is the lsblk tree built with the positional row reader, or the error text. |
| Monitoring.BlockEntries | monitoring.py:136-149 | At most one entry per row. |
| Monitoring.BlockRowRoundTrip | monitoring.py:136-143 | A row reads back field by field, also when the empty mountpoint and fstype columns were stripped from the end. |
| Monitoring.BlockRowAsWrittenOnFullRows | monitoring.py:137-143 | When all five columns are non-empty, `split()` and the positional reader agree. |
| Monitoring.LsblkDiskDropped | monitoring.py:136-147 | As written, a disk row with empty mountpoint and fstype is dropped. The positional reader keeps it as a disk heading. |
| Monitoring.LsblkPartitionShifted | monitoring.py:136-149 | As written, an unmounted partition with a filesystem is listed with its fstype as the mountpoint. The positional reader does not list it. |
| Monitoring.WordsAfterBlanks | monitoring.py:137 | Leading blanks before a field are skipped by `split()`. |
| Monitoring.GetServicesStatus | monitoring.py:189-242 | The text is the header, then the port lines, the unit lines and the configured-service lines. |
| Monitoring.CheckPorts | monitoring.py:200-203 | The port loop renders every check, in order. |
| Monitoring.CheckUnits | monitoring.py:206-221 | The systemctl loop renders every unit whose query succeeded. |
| Monitoring.CheckConfigured | monitoring.py:224-240 | The configured-service loop renders every service, in order. |
| Monitoring.PortOnline | monitoring.py:277-290 | The port status contains ✅ exactly when the connect returns 0. |
| Monitoring.ServiceLineClassification | monitoring.py:224-240 | A configured line starts with ✅ exactly for an HTTP 2xx or a port that answers. It is empty exactly for an address that is neither a URL nor `host:port`. |
| Monitoring.ConfiguredProbes | monitoring.py:224-234 | The two URLs are checked by HTTP and the game server by its port. |
| Monitoring.GameServerAddress | monitoring.py:232-234 | The game-server address splits into host and port 25565. |
| Monitoring.HostPortProbe | monitoring.py:226-234 | An address `host:port` that does not start with "http" is checked by port, on that host and port. |
| Monitoring.UptimeOfBounds | monitoring.py:297-299 | Hours are below 24 and minutes below 60. What is left over is under a minute. |
| Monitoring.UptimeOfRoundTrip | monitoring.py:297-299 | A duration built from days, hours, minutes and seconds splits back into the same days, hours and minutes. |
| Monitoring.UptimeShowsDays | monitoring.py:301-304 | The days part appears exactly when days > 0. |
| Monitoring.NoLetterInNumber | monitoring.py:302-304 | A printed number contains no unit letter. |
| Monitoring.InsertByCpu | monitoring.py:325 | Insertion adds exactly one process. |
| Monitoring.SortByCpu | monitoring.py:325 | Sorting keeps the length. |
| Monitoring.InsertByCpuPermutes | monitoring.py:325 | Insertion adds exactly the inserted process. |
| Monitoring.InsertByCpuSorted | monitoring.py:325 | Insertion keeps the list in descending CPU order. |
| Monitoring.InsertByCpuStable | monitoring.py:325 | Insertion keeps processes of equal CPU in their original order. |
| Monitoring.SortByCpuSorted | monitoring.py:325 | The sorted list is in descending CPU order. |
| Monitoring.SortByCpuPermutes | monitoring.py:325 | The sorted list is a permutation of the input. |
| Monitoring.SortByCpuStable | monitoring.py:325 | Processes with equal CPU keep their enumeration order. |
| Monitoring.WithCpuAppend | monitoring.py:325 | Selecting by CPU value distributes over concatenation. |
| Monitoring.WithCpuNone | monitoring.py:325 | Selecting a CPU value above every element gives nothing. |
| Monitoring.SliceEnd | monitoring.py:331 | `[:top_n]` never reaches past the list, for negative `top_n` too. |
| Monitoring.TopProcessesSpec | monitoring.py:325-331 | The rows shown are as many as the slice allows and are taken from the processes. No process left out has more CPU than one shown. |
| Monitoring.DefaultTopRows | monitoring.py:314-331 | With the default `top_n=10` the view shows ten processes, or all when fewer, none using less CPU than one left out. |
| Monitoring.ShownName | monitoring.py:332 | The name column is a prefix of the name, at most 15 characters. It is the whole name when the name is shorter. |
| Monitoring.ProcessRowName | monitoring.py:332 | After the pid column, a row holds the cut name padded to exactly 15 characters. |
| Monitoring.GetProcessesInfo | monitoring.py:314-336 | The text is the header and the rows of the top processes, or the error text. |
| Monitoring.CollectProcesses | monitoring.py:317-322 | The loop keeps the processes whose info could be read, in order. |
| Monitoring.RenderProcessRows | monitoring.py:331-332 | The loop renders one row per shown process, in order. |
| Bot.TruncateSpec | bot.py:354-355 | On both the awaiting path and the `/cmd` path (bot.py:377-378), output up to 3500 characters is unchanged. Longer output becomes its first 3500 characters followed by the note. The result is bounded. |
| Bot.TruncateIdempotent | bot.py:354-355 | Truncating twice changes nothing more. |
| Bot.FilterMemoryLines | bot.py:150-155 | The loop keeps the lines `MemoryLines` selects. |
| Bot.MemoryLines | bot.py:150-155 | The memory view never has more lines than the input. |
| Bot.MemoryLinesMembership | bot.py:150-155 | A line is kept exactly when it is an input line whose lower-cased text contains one of the seven keywords. |
| Bot.MemoryLinesAppend | bot.py:152-155 | The filter keeps the original order. |
| Bot.StatusViewSpec | bot.py:430-431 | The short status is a prefix of the full text and consists of its first lines, at most fifteen. It is the whole text when that has no more than fifteen lines. |
| Bot.QuickDispatch | bot.py:178-180 | A press runs a catalog command exactly when its data is `quick_` followed by a catalog key and is not `quick_cmds`. The command run is that key's entry. |
| Bot.NotFixedButton | bot.py:83-197 | Data starting with `q` other than `quick_cmds` passes every fixed button before the `quick_` branch. |
| Bot.QuickNameDispatch | bot.py:178-180 | `quick_` followed by a name other than `cmds` is decided by the catalog alone. |
| Bot.UnknownQuickIgnored | bot.py:178-180 | A `quick_` name that no catalog key matches does nothing. |
| Bot.ManagementButtonsIgnored | bot.py:283-290 | The reboot, shutdown and logs buttons of the management menu do nothing. |
| Bot.CatalogReachable | bot.py:248-257 | Each button of the quick-commands menu runs its own catalog entry. |
| Bot.QuickOutputWhole | bot.py:182-195 | A quick command's message holds its whole output. A typed command's reply holds the truncated output. |
| Bot.BotState.constructor | bot.py:31 | No menus are recorded and no flags are set. |
| Bot.BotState.SendMenu | bot.py:386-418 | For `/menu`, and likewise for `/start` (bot.py:33-69): non-admins get the denial and nothing changes. For an admin, any previous menu is deleted and the new message id is recorded for that user alone. |
| Bot.BotState.ButtonPress | bot.py:72-209 | Non-admins get the denial and nothing changes. Otherwise the output is what `Dispatch` selects. Only `custom_command` sets the flag, and a quick command runs once. |
| Bot.BotState.HandleMessage | bot.py:331-384 | Non-admins get nothing. With the flag set, a cancel word clears it without running anything. Any other text, even one starting with `/cmd `, runs once as a whole and then clears the flag. Without the flag, only `/cmd ` text runs. |
| Bot.BotState.Status | bot.py:420-439 | An admin gets the fifteen-line view. Anyone else gets the denial. |

## Left out

- The Telegram transport is not modelled: handlers, `query.answer`, keyboards, Markdown parse mode, and `Application` setup with polling. Sends, edits and deletions appear as a list of outgoing actions.
- The fixed texts of the menus and of `/help` are not modelled. `help_command` sends a constant text and has no administrator check.
- Floating-point work is not modelled. This covers `bytes_to_gb`/`bytes_to_mb` and the `.1f` usage figures, which arrive as preformatted strings. It also covers the `5.1f`/`6.2f` CPU and memory columns, which a `FixedFormat` parameter renders, and the CPU temperature.
- `cpu_percent` is an abstract `real` key.
- `get_system_info` and `get_network_info` are not modelled. The memory and status views take the system information as an input text.
- `Monitoring.GetProcessesInfo`: a process whose `info` holds `None` in the CPU column would make the sort raise. The model takes the listing's failure as an input instead of deriving it.
- `shlex.split`, process spawning, sockets, HTTP requests and `psutil` are inputs. The timeout's concurrency is left out; only its outcome is modelled.
- `Text.ParseInt` accepts the ASCII digits only. Python's `int()` also accepts other Unicode decimal digits, such as full-width or Arabic-Indic ones, which the model rejects.
- `Text.Lower` lower-cases ASCII and basic Cyrillic letters only, not the whole of Unicode.
- `Bot.BotState.HandleMessage`: after a cancel, the source calls `show_terminal_menu` with the update instead of a callback query. The model stops after the cancel reply.
- `Bot.BotState.ButtonPress`: the report texts are a `ReportSource` input. Nothing ties them to the `Monitoring` functions, for instance the processes report to `Monitoring.GetProcessesInfo` with `Monitoring.DefaultTopN`.
- `.env` loading, the token check and its printing, and logging are not modelled.
- `Monitoring.GetDiskInfo`: the source calls `psutil.disk_partitions` once in the df fallback and once more for each special mount that `os.path.ismount` accepts, up to four times. The model reads it once, so all of these reads see the same list.

## Findings

| source | as written | input that shows it | evidently intended | confidence | as-written member | corrected member |
|---|---|---|---|---|---|---|
| monitoring.py:136-149 | `line.split()` collapses the empty columns that `lsblk -r` prints, so fields are matched by count, not by position | `sda 20G disk  ` (a disk with neither mountpoint nor fstype) has three fields and is dropped. `sdb1 100G part  ext4` is listed with `ext4` as its mountpoint. | read the five columns by position, so unmounted disks keep their heading and unmounted partitions are not listed | not executed | Monitoring.LsblkDiskDropped, Monitoring.LsblkPartitionShifted | Monitoring.BlockRowOf with Monitoring.BlockRowRoundTrip, used by Monitoring.GetDetailedDiskInfo |
