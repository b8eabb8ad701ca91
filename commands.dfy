/** The command runner of commands.py: the choice between a shell and a
    direct argument vector, and the mapping of every way a run can end to the
    text shown to the operator; and the catalog of predefined commands.
    Spawning the process and shell-style word splitting are inputs. */
module Commands {
  import opened Wrappers
  import opened Text
  import Config

  /** How the command is started: a command line handed to the shell, or an
      argument vector run without one. */
  datatype Invocation = ThroughShell(line: string) | Direct(argv: seq<string>)

  /** How subprocess.run ended: the process exited with a return code and
      its two captured streams, the timeout expired, or some other exception
      was raised (its text is str(e)). */
  datatype RunOutcome =
    | Exited(returncode: int, stdout: string, stderr: string)
    | TimedOut
    | Raised(message: string)

  /** Word splitting of a command line (shlex.split): the words, or the text
      of the ValueError it raises, e.g. on an unbalanced quote. */
  type WordSplitter = string -> Result<seq<string>>

  /** Starting the invocation and waiting for it for at most the timeout. */
  type Runner = (Invocation, nat) -> RunOutcome

  /** The timeout used when the caller gives none: Config.COMMAND_TIMEOUT. */
  const DefaultTimeout: nat := Config.CommandTimeout

  /** The substrings that send a command through the shell. */
  const ShellMarkers: seq<string> := ["|", "&&", ">", "sudo"]

  /** The heuristic: a pipe, a logical and, an output redirection or sudo
      anywhere in the text means the shell runs it. */
  predicate NeedsShell(command: string)
  {
    Contains(command, "|") || Contains(command, "&&") || Contains(command, ">") || Contains(command, "sudo")
  }

  /** What is started for the command, or the splitter's error. */
  function Launch(command: string, split: WordSplitter): Result<Invocation>
  {
    if NeedsShell(command) then Ok(ThroughShell(command))
    else
      match split(command)
      case Ok(argv) => Ok(Direct(argv))
      case Err(message) => Err(message)
  }

  /** The text reported for a finished process: stdout when it has any,
      stderr otherwise. */
  function Output(stdout: string, stderr: string): string
  {
    if stdout != [] then stdout else stderr
  }

  const SuccessMarker: string := "✅ Команда выполнена успешно"
  const TimeoutMarker: string := "⏰ Таймаут выполнения команды"
  const ExitCodePrefix: string := "❌ Ошибка (код "
  const ExitCodeSuffix: string := "):\n"
  const ErrorPrefix: string := "⚠️ Ошибка: "

  /** The text shown for an outcome. It is never empty, so the operator
      always gets an answer. */
  function Report(outcome: RunOutcome): (text: string)
    ensures text != []
  {
    match outcome
    case Exited(code, stdout, stderr) =>
      var output := Output(stdout, stderr);
      if code == 0 then (if output != [] then output else SuccessMarker)
      else ExitCodePrefix + IntToString(code) + ExitCodeSuffix + output
    case TimedOut => TimeoutMarker
    case Raised(message) => ErrorPrefix + message
  }

  /** execute_command: every way of failing, the splitter's error included,
      ends in a (non-empty) text; nothing escapes as an exception. */
  function ExecuteCommand(command: string, timeout: nat, split: WordSplitter, run: Runner): (text: string)
    ensures text != []
  {
    match Launch(command, split)
    case Ok(invocation) => Report(run(invocation, timeout))
    case Err(message) => ErrorPrefix + message
  }

  /** The command goes to the shell exactly when its text contains one of the
      four markers at some position; otherwise the splitter's words are run
      directly, and a splitter error is reported as an error text. */
  lemma LaunchChoice(command: string, timeout: nat, split: WordSplitter, run: Runner)
    ensures NeedsShell(command) <==> exists m, i :: m in ShellMarkers && OccursAt(command, m, i)
    ensures NeedsShell(command) ==> Launch(command, split) == Ok(ThroughShell(command))
    ensures !NeedsShell(command) && split(command).Ok? ==>
      Launch(command, split) == Ok(Direct(split(command).value))
    ensures !NeedsShell(command) && split(command).Err? ==>
      ExecuteCommand(command, timeout, split, run) == ErrorPrefix + split(command).message
  {
    ContainsIff(command, "|");
    ContainsIff(command, "&&");
    ContainsIff(command, ">");
    ContainsIff(command, "sudo");
  }

  /** The part of s before the first c, and the part after it (s and nothing
      when c does not occur). */
  function SplitFirst(s: string, c: char): (string, string)
  {
    if s == [] then ([], [])
    else if s[0] == c then ([], s[1..])
    else var (before, after) := SplitFirst(s[1..], c); ([s[0]] + before, after)
  }

  lemma {:induction false} SplitFirstAt(a: string, c: char, b: string)
    requires c !in a
    ensures SplitFirst(a + [c] + b, c) == (a, b)
  {
    if a == [] {
      assert (a + [c] + b)[1..] == b;
    } else {
      SplitFirstAt(a[1..], c, b);
      assert (a + [c] + b)[1..] == a[1..] + [c] + b;
      assert [a[0]] + a[1..] == a;
    }
  }

  /** Reads the exit code and the output back out of a failure report. */
  function DecodeExitReport(text: string): Option<(int, string)>
  {
    if !StartsWith(text, ExitCodePrefix) then None
    else
      var (codeText, after) := SplitFirst(text[|ExitCodePrefix|..], ')');
      if !StartsWith(after, ":\n") then None
      else
        match ParseInt(codeText)
        case Some(code) => Some((code, after[2..]))
        case None => None
  }

  /** A nonzero exit is reported with its code and its output, both of which
      can be read back from the text. */
  lemma ExitReportDecodes(code: int, stdout: string, stderr: string)
    requires code != 0
    ensures DecodeExitReport(Report(Exited(code, stdout, stderr))) == Some((code, Output(stdout, stderr)))
  {
    var output := Output(stdout, stderr);
    var digits := IntToString(code);
    var text := Report(Exited(code, stdout, stderr));
    assert text == ExitCodePrefix + (digits + [')'] + (":\n" + output));
    assert text[|ExitCodePrefix|..] == digits + [')'] + (":\n" + output);
    IntToStringIsWord(code);
    SplitFirstAt(digits, ')', ":\n" + output);
    ParseIntToString(code);
    assert (":\n" + output)[2..] == output;
  }

  /** The report of a finished process: the output itself on success (stderr
      when stdout is empty, the success marker only when both are empty), and
      a report that carries the exit code otherwise. */
  lemma ExitedReport(code: int, stdout: string, stderr: string)
    ensures Output(stdout, stderr) == [] <==> stdout == [] && stderr == []
    ensures code == 0 && stdout != [] ==> Report(Exited(code, stdout, stderr)) == stdout
    ensures code == 0 && stdout == [] && stderr != [] ==> Report(Exited(code, stdout, stderr)) == stderr
    ensures code == 0 && stdout == [] && stderr == [] ==> Report(Exited(code, stdout, stderr)) == SuccessMarker
    ensures code != 0 ==> StartsWith(Report(Exited(code, stdout, stderr)), ExitCodePrefix)
  {
  }

  /** One predefined command: its key, its command line and its label. */
  datatype CatalogEntry = CatalogEntry(key: string, command: string, description: string)

  /** predefined_commands, in the dict's insertion order. */
  const PredefinedCommands: seq<CatalogEntry> := [
      CatalogEntry("disk_usage",
        "df -h -T",
        "💾 Использование дисков (с типами)"),
      CatalogEntry("disk_detailed",
        "lsblk -o NAME,SIZE,TYPE,MOUNTPOINT,FSTYPE,LABEL,UUID",
        "💽 Детальная информация о дисках"),
      CatalogEntry("memory",
        "free -h",
        "🧠 Использование памяти"),
      CatalogEntry("memory_detailed",
        "cat /proc/meminfo | head -20",
        "🧠 Детальная информация о памяти"),
      CatalogEntry("uptime",
        "uptime",
        "⏱️ Время работы"),
      CatalogEntry("top_processes",
        "ps aux --sort=-%cpu | head -15",
        "📈 Топ процессов (CPU)"),
      CatalogEntry("top_memory",
        "ps aux --sort=-%mem | head -15",
        "📈 Топ процессов (память)"),
      CatalogEntry("network_stats",
        "ss -tulpn",
        "🌐 Сетевые соединения"),
      CatalogEntry("mount_info",
        "mount | grep -E \"/dev/sd|/dev/mmc\"",
        "📌 Информация о монтировании"),
      CatalogEntry("check_disks",
        "ls -la /dev/sd* /dev/mmcblk*",
        "🔍 Проверить дисковые устройства"),
      CatalogEntry("external_disk",
        "df -h /mnt/cloud 2>/dev/null || echo \"Диск не найден\"",
        "🗂️ Проверить внешний HDD (/mnt/cloud)"),
      CatalogEntry("system_logs",
        "journalctl -n 20 --no-pager",
        "📋 Последние логи"),
      CatalogEntry("service_status",
        "systemctl list-units --type=service --state=running | head -20",
        "🔄 Запущенные сервисы"),
      CatalogEntry("cpu_info",
        "lscpu | grep -E \"Model name|CPU\\(s\\)|Architecture\"",
        "⚙️ Информация о CPU"),
      CatalogEntry("temperature",
        "cat /sys/class/thermal/thermal_zone*/temp 2>/dev/null | head -1",
        "🌡️ Температура CPU")
  ]

  function LookupIn(entries: seq<CatalogEntry>, key: string): (r: Option<CatalogEntry>)
    ensures r.Some? ==> r.value in entries && r.value.key == key
    ensures r.None? ==> forall k :: 0 <= k < |entries| ==> entries[k].key != key
  {
    if entries == [] then None
    else if entries[0].key == key then Some(entries[0])
    else LookupIn(entries[1..], key)
  }

  /** `key in predefined_commands` and the entry it names. */
  function Lookup(key: string): Option<CatalogEntry>
  {
    LookupIn(PredefinedCommands, key)
  }

  /** Every key has at least six characters, so none of them is "cmds". */
  lemma CatalogKeysLong()
    ensures forall k :: 0 <= k < |PredefinedCommands| ==> |PredefinedCommands[k].key| >= 6
  {
  }

  /** The management menu offers reboot, shutdown and logs buttons, but the
      catalog has no entry under any of those names. */
  lemma ManagementNamesAbsent()
    ensures forall k :: 0 <= k < |PredefinedCommands| ==> PredefinedCommands[k].key !in ["reboot", "shutdown", "logs"]
  {
  }

  /** Every entry has a command and a description, and no key is used twice,
      so a key names exactly one entry. */
  lemma CatalogWellFormed()
    ensures |PredefinedCommands| == 15
    ensures forall k :: 0 <= k < |PredefinedCommands| ==>
      PredefinedCommands[k].command != [] && PredefinedCommands[k].description != []
    ensures forall j, k :: 0 <= j < k < |PredefinedCommands| ==> PredefinedCommands[j].key != PredefinedCommands[k].key
    ensures forall k :: 0 <= k < |PredefinedCommands| ==> Lookup(PredefinedCommands[k].key) == Some(PredefinedCommands[k])
  {
    CatalogFilled();
    CatalogKeysDistinct();
    forall k | 0 <= k < |PredefinedCommands|
      ensures Lookup(PredefinedCommands[k].key) == Some(PredefinedCommands[k])
    {
      LookupFindsDistinct(PredefinedCommands, k);
    }
  }

  /** Every entry has a command and a description. */
  lemma CatalogFilled()
    ensures |PredefinedCommands| == 15
    ensures forall k :: 0 <= k < |PredefinedCommands| ==>
      PredefinedCommands[k].command != [] && PredefinedCommands[k].description != []
  {
  }

  /** No key is used twice. */
  lemma CatalogKeysDistinct()
    ensures forall j, k :: 0 <= j < k < |PredefinedCommands| ==> PredefinedCommands[j].key != PredefinedCommands[k].key
  {
  }

  /** In a list with distinct keys, looking up an entry's key finds that entry. */
  lemma {:induction false} LookupFindsDistinct(entries: seq<CatalogEntry>, k: nat)
    requires k < |entries|
    requires forall i, j :: 0 <= i < j < |entries| ==> entries[i].key != entries[j].key
    ensures LookupIn(entries, entries[k].key) == Some(entries[k])
  {
    if k > 0 {
      assert entries[0].key != entries[k].key;
      LookupFindsDistinct(entries[1..], k - 1);
    }
  }
}
