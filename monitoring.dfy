/** The report builders of monitoring.py that carry logic: the disk table
    read from df (with its psutil fallback and the probe of external mounts),
    the block-device tree read from lsblk, the service checks, the uptime
    split, and the top-processes table. Every operating-system query is an
    input: the output of a utility, a list psutil would return, or a
    function standing for a query that may raise. */
module Monitoring {
  import opened Wrappers
  import opened Text
  import Config
  import Services

  // ================================================================ disks

  const DiskHeader: string := "💾 *Информация о дисках:*\n\n"
  const NoDiskInfo: string := "Нет информации о дисках"

  /** The seven leading columns of one `df -h -T` row. */
  datatype DfRow = DfRow(filesystem: string, fstype: string, size: string, used: string,
                         avail: string, usePercent: string, mountpoint: string)

  /** One row of the df table: its whitespace-separated fields, read only
      when there are at least seven of them; further fields are ignored. */
  function ParseDfLine(line: string): Option<DfRow>
  {
    var parts := Words(line);
    if |parts| >= 7 then Some(DfRow(parts[0], parts[1], parts[2], parts[3], parts[4], parts[5], parts[6]))
    else None
  }

  function RenderDfRow(r: DfRow): string
  {
    "*" + r.filesystem + "* (`" + r.mountpoint + "`)\n" +
    "• Тип: " + r.fstype + "\n" +
    "• Размер: " + r.size + "\n" +
    "• Использовано: " + r.used + " (" + r.usePercent + ")\n" +
    "• Свободно: " + r.avail + "\n"
  }

  /** The entries made from the rows, in order; short rows are dropped. */
  function DfEntries(rows: seq<string>): (entries: seq<string>)
    ensures |entries| <= |rows|
  {
    if rows == [] then []
    else
      var front := DfEntries(rows[..|rows| - 1]);
      match ParseDfLine(rows[|rows| - 1])
      case Some(r) => front + [RenderDfRow(r)]
      case None => front
  }

  /** The rows of a table a utility printed, below its header line:
      `stdout.strip().split('\n')[1:]`. */
  function TableRows(stdout: string): seq<string>
  {
    SplitOn(Strip(stdout), '\n')[1..]
  }

  /** A partition as psutil.disk_partitions lists it. */
  datatype Partition = Partition(device: string, mountpoint: string, fstype: string)

  /** psutil.disk_usage of a path, its numbers already rendered as the report
      shows them (sizes in GB with one decimal, and the percentage). */
  datatype Usage = Usage(total: string, used: string, free: string, percent: string)

  /** disk_usage of a path; None where it raises. */
  type UsageQuery = string -> Option<Usage>

  function RenderPartition(p: Partition, u: Usage): string
  {
    "*" + p.device + "* (`" + p.mountpoint + "`)\n" +
    "• Тип: " + p.fstype + "\n" +
    "• Размер: " + u.total + " GB\n" +
    "• Использовано: " + u.used + " GB (" + u.percent + "%)\n" +
    "• Свободно: " + u.free + " GB\n"
  }

  /** The fallback entries: one per partition whose usage query succeeds. */
  function PartitionEntries(parts: seq<Partition>, usage: UsageQuery): seq<string>
  {
    if parts == [] then []
    else
      var front := PartitionEntries(parts[..|parts| - 1], usage);
      var p := parts[|parts| - 1];
      match usage(p.mountpoint)
      case Some(u) => front + [RenderPartition(p, u)]
      case None => front
  }

  /** The entries before the external mounts: from df's table when df ran,
      from the partition list when running it raised. */
  function MainEntries(df: Result<string>, parts: seq<Partition>, usage: UsageQuery): seq<string>
  {
    match df
    case Ok(stdout) => DfEntries(TableRows(stdout))
    case Err(_) => PartitionEntries(parts, usage)
  }

  /** The mount points probed after the main entries, in this order. */
  const SpecialMounts: seq<string> := ["/mnt/cloud", "/media", "/mnt"]

  /** The device of the first partition mounted at the path, or "Unknown". */
  function DeviceAt(parts: seq<Partition>, mount: string): string
  {
    if parts == [] then "Unknown"
    else if parts[0].mountpoint == mount then parts[0].device
    else DeviceAt(parts[1..], mount)
  }

  function RenderExternal(device: string, mount: string, u: Usage): string
  {
    "*" + device + "* (`" + mount + "`) [External]\n" +
    "• Размер: " + u.total + " GB\n" +
    "• Использовано: " + u.used + " GB (" + u.percent + "%)\n" +
    "• Свободно: " + u.free + " GB\n"
  }

  /** One entry per probed path that is a mount point with a readable usage,
      in probing order, whether or not it was listed already. */
  function ExternalEntries(mounts: seq<string>, isMount: string -> bool, usage: UsageQuery,
                           parts: seq<Partition>): seq<string>
  {
    if mounts == [] then []
    else
      var front := ExternalEntries(mounts[..|mounts| - 1], isMount, usage, parts);
      var m := mounts[|mounts| - 1];
      if isMount(m) && usage(m).Some? then front + [RenderExternal(DeviceAt(parts, m), m, usage(m).value)]
      else front
  }

  /** The text of the disk report for its entries. */
  function DiskReport(entries: seq<string>): string
  {
    if entries == [] then DiskHeader + NoDiskInfo else DiskHeader + Join(entries, "\n")
  }

  /** get_disk_info. `df` is df's standard output, or the exception running
      it raised; `partitions` is psutil.disk_partitions(all=True); `usage` is
      psutil.disk_usage; `isMount` is os.path.ismount. */
  method GetDiskInfo(df: Result<string>, partitions: seq<Partition>, usage: UsageQuery,
                     isMount: string -> bool) returns (text: string)
    ensures text == DiskReport(MainEntries(df, partitions, usage) +
                               ExternalEntries(SpecialMounts, isMount, usage, partitions))
  {
    var disks: seq<string>;
    match df {
      case Ok(stdout) =>
        disks := ReadDfRows(TableRows(stdout));
      case Err(_) =>
        disks := ReadPartitions(partitions, usage);
    }
    var external := ProbeMounts(SpecialMounts, isMount, usage, partitions);
    disks := disks + external;
    if disks == [] {
      text := DiskHeader + NoDiskInfo;
    } else {
      text := DiskHeader + Join(disks, "\n");
    }
  }

  /** The loop of get_disk_info over the rows of df's table. */
  method ReadDfRows(rows: seq<string>) returns (disks: seq<string>)
    ensures disks == DfEntries(rows)
  {
    disks := [];
    for i := 0 to |rows|
      invariant disks == DfEntries(rows[..i])
    {
      assert rows[..i + 1][..i] == rows[..i];
      var parsed := ParseDfLine(rows[i]);
      if parsed.Some? {
        disks := disks + [RenderDfRow(parsed.value)];
      }
    }
    assert rows[..|rows|] == rows;
  }

  /** The fallback loop of get_disk_info over the partitions. */
  method ReadPartitions(partitions: seq<Partition>, usage: UsageQuery) returns (disks: seq<string>)
    ensures disks == PartitionEntries(partitions, usage)
  {
    disks := [];
    for i := 0 to |partitions|
      invariant disks == PartitionEntries(partitions[..i], usage)
    {
      assert partitions[..i + 1][..i] == partitions[..i];
      var u := usage(partitions[i].mountpoint);
      if u.Some? {
        disks := disks + [RenderPartition(partitions[i], u.value)];
      }
    }
    assert partitions[..|partitions|] == partitions;
  }

  /** The loop of get_disk_info over the probed mount points. */
  method ProbeMounts(mounts: seq<string>, isMount: string -> bool, usage: UsageQuery,
                     partitions: seq<Partition>) returns (disks: seq<string>)
    ensures disks == ExternalEntries(mounts, isMount, usage, partitions)
  {
    disks := [];
    for j := 0 to |mounts|
      invariant disks == ExternalEntries(mounts[..j], isMount, usage, partitions)
    {
      assert mounts[..j + 1][..j] == mounts[..j];
      var mount := mounts[j];
      if isMount(mount) {
        var u := usage(mount);
        if u.Some? {
          var device := FindDevice(partitions, mount);
          disks := disks + [RenderExternal(device, mount, u.value)];
        }
      }
    }
    assert mounts[..|mounts|] == mounts;
  }

  /** The device lookup loop of get_disk_info: the first partition mounted at
      the path, or "Unknown". */
  method FindDevice(partitions: seq<Partition>, mount: string) returns (device: string)
    ensures device == DeviceAt(partitions, mount)
  {
    device := "Unknown";
    var i := 0;
    while i < |partitions|
      invariant 0 <= i <= |partitions|
      invariant DeviceAt(partitions, mount) == DeviceAt(partitions[i..], mount)
    {
      if partitions[i].mountpoint == mount {
        device := partitions[i].device;
        return;
      }
      assert partitions[i..][1..] == partitions[i + 1..];
      i := i + 1;
    }
  }

  /** The device reported for an external mount is that of the first
      partition mounted there, and "Unknown" when none is. */
  lemma {:induction false} DeviceAtSpec(parts: seq<Partition>, mount: string, k: nat)
    requires k <= |parts|
    requires forall j :: 0 <= j < k ==> parts[j].mountpoint != mount
    ensures k < |parts| && parts[k].mountpoint == mount ==> DeviceAt(parts, mount) == parts[k].device
    ensures k == |parts| ==> DeviceAt(parts, mount) == "Unknown"
  {
    if k > 0 {
      DeviceAtSpec(parts[1..], mount, k - 1);
    }
  }

  /** A df row written as its seven fields, and possibly more, separated by
      blanks reads back as those seven fields. */
  lemma DfLineRoundTrip(r: DfRow, extra: seq<string>)
    requires IsWord(r.filesystem) && IsWord(r.fstype) && IsWord(r.size) && IsWord(r.used)
    requires IsWord(r.avail) && IsWord(r.usePercent) && IsWord(r.mountpoint)
    requires forall k :: 0 <= k < |extra| ==> IsWord(extra[k])
    ensures ParseDfLine(Join(DfFields(r) + extra, " ")) == Some(r)
  {
    var fields := DfFields(r);
    DfFieldsAreWords(r);
    AllWordsAppend(fields, extra);
    WordsOfJoin(fields + extra);
    ParseDfWords(Join(fields + extra, " "), fields, extra);
  }

  /** The seven columns of a row of words are words. */
  lemma DfFieldsAreWords(r: DfRow)
    requires IsWord(r.filesystem) && IsWord(r.fstype) && IsWord(r.size) && IsWord(r.used)
    requires IsWord(r.avail) && IsWord(r.usePercent) && IsWord(r.mountpoint)
    ensures forall k :: 0 <= k < |DfFields(r)| ==> IsWord(DfFields(r)[k])
  {
  }

  /** A line whose fields start with seven given ones reads as those seven. */
  lemma ParseDfWords(line: string, fields: seq<string>, extra: seq<string>)
    requires |fields| == 7 && Words(line) == fields + extra
    ensures ParseDfLine(line) == Some(DfRow(fields[0], fields[1], fields[2], fields[3], fields[4], fields[5], fields[6]))
    ensures forall r :: fields == DfFields(r) ==> ParseDfLine(line) == Some(r)
  {
  }

  /** Fields that are all words stay so when more words follow. */
  lemma AllWordsAppend(a: seq<string>, b: seq<string>)
    requires forall k :: 0 <= k < |a| ==> IsWord(a[k])
    requires forall k :: 0 <= k < |b| ==> IsWord(b[k])
    ensures forall k :: 0 <= k < |a + b| ==> IsWord((a + b)[k])
  {
    forall k | 0 <= k < |a + b|
      ensures IsWord((a + b)[k])
    {
      if k >= |a| {
        assert (a + b)[k] == b[k - |a|];
      }
    }
  }

  /** The seven columns of a df row, in order. */
  function DfFields(r: DfRow): (fields: seq<string>)
    ensures |fields| == 7
  {
    [r.filesystem, r.fstype, r.size, r.used, r.avail, r.usePercent, r.mountpoint]
  }

  /** The first line of a table is taken as its header and never read as a
      row; every other line is, in order, whatever whitespace surrounds the
      table. */
  lemma TableHeaderSkipped(stdout: string, lines: seq<string>)
    requires lines != []
    requires forall k :: 0 <= k < |lines| ==> '\n' !in lines[k]
    requires Strip(stdout) == Join(lines, "\n")
    ensures TableRows(stdout) == lines[1..]
  {
    SplitOnJoin(lines, '\n');
  }

  /** A utility's output ends its last line with a newline: the table is
      still read from its second line on. */
  lemma TableOutputRows(lines: seq<string>)
    requires lines != []
    requires forall k :: 0 <= k < |lines| ==> '\n' !in lines[k]
    requires Strip(Join(lines, "\n")) == Join(lines, "\n")
    ensures TableRows(Join(lines, "\n") + "\n") == lines[1..]
  {
    StripFinalNewline(Join(lines, "\n"));
    TableHeaderSkipped(Join(lines, "\n") + "\n", lines);
  }

  // =============================================================== lsblk

  const DetailedHeader: string := "💽 *Детальная информация о дисках:*\n"
  const DetailedFailurePrefix: string := "💽 *Информация о дисках:*\n\nНе удалось получить детальную информацию: "

  /** One row of `lsblk -o NAME,SIZE,TYPE,MOUNTPOINT,FSTYPE -r`. */
  datatype BlockRow = BlockRow(name: string, size: string, devType: string, mountpoint: string, fstype: string)

  /** The row as get_detailed_disk_info reads it: the fields of str.split(),
      at least four of them, the fifth optional. */
  function BlockRowAsWritten(line: string): Option<BlockRow>
  {
    var parts := Words(line);
    if |parts| >= 4 then Some(BlockRow(parts[0], parts[1], parts[2], parts[3], if |parts| > 4 then parts[4] else ""))
    else None
  }

  /** The row read by position: lsblk -r separates columns by one blank,
      escapes blanks inside a value, and leaves an empty column empty, so
      the columns are the pieces between single blanks. Name, size and type
      are always there; the mount point and file system may be empty. */
  function BlockRowOf(line: string): Option<BlockRow>
  {
    var fields := SplitOn(line, ' ');
    if |fields| >= 3 then
      Some(BlockRow(fields[0], fields[1], fields[2],
                    if |fields| > 3 then fields[3] else "",
                    if |fields| > 4 then fields[4] else ""))
    else None
  }

  /** A disk opens a heading; a mounted partition is listed under it;
      anything else adds nothing. */
  function BlockEntry(r: BlockRow): Option<string>
  {
    if r.devType == "disk" then Some("\n*Диск " + r.name + ":* " + r.size)
    else if r.devType == "part" && r.mountpoint != "" then
      Some("  └─ " + r.name + ": " + r.size + " → `" + r.mountpoint + "` (" + r.fstype + ")")
    else None
  }

  /** The entries made from the rows, in order, with the given row reading. */
  function BlockEntries(rows: seq<string>, parse: string -> Option<BlockRow>): (entries: seq<string>)
    ensures |entries| <= |rows|
  {
    if rows == [] then []
    else
      var front := BlockEntries(rows[..|rows| - 1], parse);
      var row := parse(rows[|rows| - 1]);
      if row.Some? && BlockEntry(row.value).Some? then front + [BlockEntry(row.value).value] else front
  }

  /** The text of get_detailed_disk_info: the entries joined by newlines, or
      the failure text when running lsblk raised. */
  function DetailedReport(lsblk: Result<string>, parse: string -> Option<BlockRow>): string
  {
    match lsblk
    case Ok(stdout) => DetailedHeader + Join(BlockEntries(TableRows(stdout), parse), "\n")
    case Err(message) => DetailedFailurePrefix + message
  }

  /** get_detailed_disk_info, reading its rows by position. `lsblk` is
      lsblk's standard output, or the exception running it raised. */
  method GetDetailedDiskInfo(lsblk: Result<string>) returns (text: string)
    ensures text == DetailedReport(lsblk, BlockRowOf)
  {
    match lsblk {
      case Err(message) =>
        text := DetailedFailurePrefix + message;
      case Ok(stdout) =>
        var rows := TableRows(stdout);
        var devices: seq<string> := [];
        for i := 0 to |rows|
          invariant devices == BlockEntries(rows[..i], BlockRowOf)
        {
          assert rows[..i + 1][..i] == rows[..i];
          var row := BlockRowOf(rows[i]);
          if row.Some? {
            var entry := BlockEntry(row.value);
            if entry.Some? {
              devices := devices + [entry.value];
            }
          }
        }
        assert rows[..|rows|] == rows;
        text := DetailedHeader + Join(devices, "\n");
    }
  }

  /** A row written with its five columns separated by single blanks reads
      back as those columns, empty ones included; a row whose last two
      columns are empty and were cut off by strip() reads back the same. */
  lemma BlockRowRoundTrip(r: BlockRow)
    requires ' ' !in r.name && ' ' !in r.size && ' ' !in r.devType
    requires ' ' !in r.mountpoint && ' ' !in r.fstype
    ensures BlockRowOf(Join([r.name, r.size, r.devType, r.mountpoint, r.fstype], " ")) == Some(r)
    ensures r.mountpoint == "" && r.fstype == "" ==>
      BlockRowOf(Join([r.name, r.size, r.devType], " ")) == Some(r)
  {
    SplitOnJoin([r.name, r.size, r.devType, r.mountpoint, r.fstype], ' ');
    SplitOnJoin([r.name, r.size, r.devType], ' ');
  }

  /** Where every column is filled, str.split() reads the row as the
      positional reading does. */
  lemma BlockRowAsWrittenOnFullRows(r: BlockRow)
    requires IsWord(r.name) && IsWord(r.size) && IsWord(r.devType)
    requires IsWord(r.mountpoint) && IsWord(r.fstype)
    ensures BlockRowAsWritten(Join([r.name, r.size, r.devType, r.mountpoint, r.fstype], " ")) == Some(r)
    ensures BlockRowOf(Join([r.name, r.size, r.devType, r.mountpoint, r.fstype], " ")) == Some(r)
  {
    WordsOfJoin([r.name, r.size, r.devType, r.mountpoint, r.fstype]);
    BlockRowRoundTrip(r);
  }

  /** Where a column is empty, str.split() shifts the later ones left. A
      whole disk, with neither mount point nor file system, has only three
      fields and is dropped, so it gets no heading; the positional reading
      keeps it and opens its heading. */
  lemma LsblkDiskDropped(name: string, size: string)
    requires IsWord(name) && IsWord(size)
    ensures var line := Join([name, size, "disk"], " ") + "  ";
      BlockRowAsWritten(line) == None &&
      BlockRowOf(line) == Some(BlockRow(name, size, "disk", "", "")) &&
      BlockEntry(BlockRowOf(line).value).Some?
  {
    var ws := [name, size, "disk"];
    assert IsWord("disk");
    assert |Words(Join(ws, " ") + "  ")| == 3 by {
      WordsOfJoinThen(ws, "  ");
      BlanksHaveNoWords();
    }
    assert Join(ws + ["", ""], " ") == Join(ws, " ") + "  " by {
      JoinSnoc(ws, "", " ");
      JoinSnoc(ws + [""], "", " ");
      assert ws + [""] + [""] == ws + ["", ""];
    }
    assert ws + ["", ""] == [name, size, "disk", "", ""];
    BlockRowRoundTrip(BlockRow(name, size, "disk", "", ""));
  }

  /** An unmounted formatted partition is read with its file system in the
      mount point column and listed as mounted there; the positional reading
      sees that it is not mounted and lists nothing. */
  lemma LsblkPartitionShifted(name: string, size: string, fstype: string)
    requires IsWord(name) && IsWord(size) && IsWord(fstype)
    ensures var line := Join([name, size, "part"], " ") + "  " + fstype;
      BlockRowAsWritten(line) == Some(BlockRow(name, size, "part", fstype, "")) &&
      BlockEntry(BlockRowAsWritten(line).value).Some? &&
      BlockRowOf(line) == Some(BlockRow(name, size, "part", "", fstype)) &&
      BlockEntry(BlockRowOf(line).value).None?
  {
    var ws := [name, size, "part"];
    assert IsWord("part");
    var line := Join(ws, " ") + "  " + fstype;
    assert Words(line) == ws + [fstype] by {
      assert line == Join(ws, " ") + ([' '] + ([' '] + fstype));
      WordsOfJoinThen(ws, [' '] + ([' '] + fstype));
      WordsAfterBlanks(fstype);
    }
    assert Join(ws + ["", fstype], " ") == line by {
      JoinSnoc(ws, "", " ");
      JoinSnoc(ws + [""], fstype, " ");
      assert ws + [""] + [fstype] == ws + ["", fstype];
    }
    assert ws + ["", fstype] == [name, size, "part", "", fstype];
    BlockRowRoundTrip(BlockRow(name, size, "part", "", fstype));
  }

  lemma BlanksHaveNoWords()
    ensures Words("  ") == []
  {
    WordsSkipSpace(' ', " ");
    WordsSkipSpace(' ', "");
  }

  lemma WordsAfterBlanks(w: string)
    requires IsWord(w)
    ensures Words([' '] + ([' '] + w)) == [w]
  {
    WordsSkipSpace(' ', [' '] + w);
    WordsSkipSpace(' ', w);
    WordsOfJoin([w]);
  }

  // ============================================================ services

  const ServicesHeader: string := "📡 *Статус сервисов*\n\n"
  const PortUp: string := "✅"
  const PortDown: string := "❌"
  const PortError: string := "⚠️"

  /** The local ports checked first: display name, host and port. */
  const PortChecks: seq<(string, string, int)> := [
    ("SSH (22)", "localhost", 22),
    ("HTTP (80)", "localhost", 80),
    ("HTTPS (443)", "localhost", 443)
  ]

  /** The systemd units asked about next. */
  const SystemdUnits: seq<string> := ["ssh", "apache2", "mysql"]

  /** check_port: a mark for a TCP connect to the port. */
  function CheckPort(host: string, port: int, timeout: nat, connect: Services.Connect): string
  {
    match connect(host, port, timeout)
    case Returned(code) => if code == 0 then PortUp else PortDown
    case SocketRaised(_) => PortError
  }

  /** The line of one local port: its mark, and "Онлайн" when the mark holds
      the check mark, "Офлайн" otherwise. */
  function PortLine(name: string, status: string): string
  {
    status + " *" + name + "*: " + (if Contains(status, PortUp) then "Онлайн" else "Офлайн") + "\n"
  }

  function PortLines(checks: seq<(string, string, int)>, connect: Services.Connect): string
  {
    if checks == [] then ""
    else
      var c := checks[|checks| - 1];
      PortLines(checks[..|checks| - 1], connect) + PortLine(c.0, CheckPort(c.1, c.2, 3, connect))
  }

  /** `systemctl is-active <unit>`: its standard output, or None where
      running it raised. */
  type UnitQuery = string -> Option<string>

  /** The line of one unit: running when the stripped output is exactly
      "active"; no line at all when the query raised. */
  function UnitLine(unit: string, output: Option<string>): string
  {
    match output
    case None => ""
    case Some(out) =>
      if Strip(out) == "active" then "✅ *" + unit + "*: Запущен\n" else "❌ *" + unit + "*: Не запущен\n"
  }

  function UnitLines(units: seq<string>, query: UnitQuery): string
  {
    if units == [] then ""
    else
      var u := units[|units| - 1];
      UnitLines(units[..|units| - 1], query) + UnitLine(u, query(u))
  }

  /** How a configured address is checked: by an HTTP request when it starts
      with "http", by a TCP connect when it holds a colon (host and port as
      check_minecraft_server reads them, the reading failing as it does
      there), not at all otherwise. */
  datatype Probe = ByHttp(url: string) | ByPort(host: string, port: int) | Unreadable | NotProbed

  function ProbeOf(address: string): Probe
  {
    if StartsWith(address, "http") then ByHttp(address)
    else if ':' in address then
      match Services.GameServerTarget(address)
      case Ok((host, port)) => ByPort(host, port)
      case Err(_) => Unreadable
    else NotProbed
  }

  function ProbeFailedLine(name: string): string
  {
    "⚠️ *" + name + "*: Ошибка проверки\n"
  }

  /** The line of one configured service. A request that raises, like an
      address whose port cannot be read, gives the failure line. */
  function ServiceLine(name: string, address: string, get: Services.HttpGet, connect: Services.Connect): string
  {
    match ProbeOf(address)
    case ByHttp(url) =>
      (match get(url, 3)
       case Response(code) =>
         if Services.IsSuccessStatus(code) then "✅ *" + name + "*: Онлайн (" + IntToString(code) + ")\n"
         else "⚠️ *" + name + "*: Ошибка " + IntToString(code) + "\n"
       case RequestFailed(_) => ProbeFailedLine(name))
    case ByPort(host, port) =>
      if CheckPort(host, port, 2, connect) == PortUp then "✅ *" + name + "*: Онлайн\n"
      else "❌ *" + name + "*: Офлайн\n"
    case Unreadable => ProbeFailedLine(name)
    case NotProbed => ""
  }

  function ServiceLines(services: seq<(string, string)>, get: Services.HttpGet, connect: Services.Connect): string
  {
    if services == [] then ""
    else
      var sv := services[|services| - 1];
      ServiceLines(services[..|services| - 1], get, connect) + ServiceLine(sv.0, sv.1, get, connect)
  }

  /** The whole text of get_services_status. */
  function ServicesReport(connect: Services.Connect, query: UnitQuery, get: Services.HttpGet): string
  {
    ServicesHeader + PortLines(PortChecks, connect) + UnitLines(SystemdUnits, query) +
    ServiceLines(Config.Services, get, connect)
  }

  /** get_services_status. `connect` is the socket connect of check_port,
      `query` runs systemctl, `get` is requests.get. */
  method GetServicesStatus(connect: Services.Connect, query: UnitQuery, get: Services.HttpGet)
    returns (text: string)
    ensures text == ServicesReport(connect, query, get)
  {
    var ports := CheckPorts(PortChecks, connect);
    var units := CheckUnits(SystemdUnits, query);
    var configured := CheckConfigured(Config.Services, get, connect);
    text := ServicesHeader + ports + units + configured;
  }

  /** The port loop of get_services_status. */
  method CheckPorts(checks: seq<(string, string, int)>, connect: Services.Connect) returns (lines: string)
    ensures lines == PortLines(checks, connect)
  {
    lines := "";
    for i := 0 to |checks|
      invariant lines == PortLines(checks[..i], connect)
    {
      assert checks[..i + 1][..i] == checks[..i];
      var (name, host, port) := checks[i];
      var status := CheckPort(host, port, 3, connect);
      lines := lines + PortLine(name, status);
    }
    assert checks[..|checks|] == checks;
  }

  /** The systemctl loop of get_services_status. */
  method CheckUnits(units: seq<string>, query: UnitQuery) returns (lines: string)
    ensures lines == UnitLines(units, query)
  {
    lines := "";
    for i := 0 to |units|
      invariant lines == UnitLines(units[..i], query)
    {
      assert units[..i + 1][..i] == units[..i];
      lines := lines + UnitLine(units[i], query(units[i]));
    }
    assert units[..|units|] == units;
  }

  /** The loop over the configured services of get_services_status. */
  method CheckConfigured(services: seq<(string, string)>, get: Services.HttpGet, connect: Services.Connect)
    returns (lines: string)
    ensures lines == ServiceLines(services, get, connect)
  {
    lines := "";
    for i := 0 to |services|
      invariant lines == ServiceLines(services[..i], get, connect)
    {
      assert services[..i + 1][..i] == services[..i];
      var (name, address) := services[i];
      lines := lines + ServiceLine(name, address, get, connect);
    }
    assert services[..|services|] == services;
  }

  /** A local port is reported "Онлайн" exactly when the connect to it
      returned 0: neither the cross nor the warning sign holds the check mark. */
  lemma PortOnline(host: string, port: int, timeout: nat, connect: Services.Connect)
    ensures Contains(CheckPort(host, port, timeout, connect), PortUp) <==> connect(host, port, timeout) == Services.Returned(0)
  {
    assert PortUp == ['✅'];
    ContainsChar(PortDown, '✅');
    ContainsChar(PortError, '✅');
  }

  /** The addresses of the configuration: the two sites are requested over
      HTTP, the game server is connected to at its host and port. */
  lemma ConfiguredProbes()
    ensures ProbeOf(Config.Services[0].1) == ByHttp("https://onex01.ru")
    ensures ProbeOf(Config.Services[1].1) == ByHttp("https://cloud.onex01.ru")
    ensures ProbeOf(Config.Services[2].1) == ByPort("onex01.ddns.net", 25565)
  {
    assert StartsWith("https://onex01.ru", "http") by {
      assert "https://onex01.ru"[..4] == "http";
    }
    assert StartsWith("https://cloud.onex01.ru", "http") by {
      assert "https://cloud.onex01.ru"[..4] == "http";
    }
    GameServerAddress();
  }

  lemma GamePortText()
    ensures IntToString(25565) == "25565"
  {
    assert NatToString(2) == "2";
    assert NatToString(25) == "25";
    assert NatToString(255) == "255";
    assert NatToString(2556) == "2556";
  }

  lemma GameServerAddress()
    ensures ProbeOf("onex01.ddns.net:25565") == ByPort("onex01.ddns.net", 25565)
  {
    var host := "onex01.ddns.net";
    assert host[..4] == "onex";
    assert ':' !in host;
    GamePortText();
    HostPortProbe(host, 25565);
    assert host + ":" + IntToString(25565) == "onex01.ddns.net:25565";
  }

  /** An address `host:port` that does not start with "http" is checked by
      port, on that host and port. */
  lemma HostPortProbe(host: string, port: int)
    requires !StartsWith(host, "http") && ':' !in host
    ensures ProbeOf(host + ":" + IntToString(port)) == ByPort(host, port)
  {
    NotUrlWithPort(host, IntToString(port));
    Services.GameServerTargetRoundTrip(host, port);
  }

  /** A colon-free host that does not start with "http" still does not once
      ":port" follows it. */
  lemma NotUrlWithPort(host: string, rest: string)
    requires !StartsWith(host, "http") && ':' !in host
    ensures !StartsWith(host + ":" + rest, "http")
  {
    var address := host + ":" + rest;
    if |host| < 4 {
      assert address[|host|] == ':';
    } else {
      assert address[..4] == host[..4];
    }
  }

  /** A configured service is reported with the check mark exactly when it
      answered an HTTP request with a 2xx status, or when it is checked by
      port and the connect returned 0; it gets no line exactly when its
      address is neither a URL nor host:port. */
  lemma ServiceLineClassification(name: string, address: string, get: Services.HttpGet, connect: Services.Connect)
    ensures var line := ServiceLine(name, address, get, connect);
      (StartsWith(line, PortUp) <==>
        (ProbeOf(address).ByHttp? && get(address, 3).Response? && Services.IsSuccessStatus(get(address, 3).status)) ||
        (ProbeOf(address).ByPort? && connect(ProbeOf(address).host, ProbeOf(address).port, 2) == Services.Returned(0))) &&
      (line == "" <==> ProbeOf(address).NotProbed?)
  {
    var line := ServiceLine(name, address, get, connect);
    match ProbeOf(address)
    case ByHttp(url) =>
      match get(url, 3) {
        case Response(code) =>
          if Services.IsSuccessStatus(code) {
            MarkedLine("✅ *", name + "*: Онлайн (" + IntToString(code) + ")\n");
          } else {
            MarkedLine("⚠️ *", name + "*: Ошибка " + IntToString(code) + "\n");
          }
        case RequestFailed(_) =>
          MarkedLine("⚠️ *", name + "*: Ошибка проверки\n");
      }
    case ByPort(host, port) =>
      assert CheckPort(host, port, 2, connect) == PortUp <==> connect(host, port, 2) == Services.Returned(0);
      if CheckPort(host, port, 2, connect) == PortUp {
        MarkedLine("✅ *", name + "*: Онлайн\n");
      } else {
        MarkedLine("❌ *", name + "*: Офлайн\n");
      }
    case Unreadable =>
      MarkedLine("⚠️ *", name + "*: Ошибка проверки\n");
    case NotProbed =>
  }

  /** A line made of a mark and a text starts with the check mark exactly
      when the mark does, and is never empty. */
  lemma MarkedLine(mark: string, rest: string)
    requires mark != []
    ensures mark + rest != []
    ensures StartsWith(mark + rest, PortUp) <==> mark[0] == '✅'
  {
    assert PortUp == ['✅'];
    assert (mark + rest)[0] == mark[0];
  }

  // ============================================================== uptime

  /** Time since boot as timedelta normalises it: whole days, then hours and
      minutes of the remaining seconds. */
  datatype Uptime = Uptime(days: int, hours: int, minutes: int)

  /** The split of get_uptime for an uptime of `elapsed` whole seconds (the
      microseconds of the timedelta play no part). Python's divmod by a
      positive number floors, as Dafny's division does. */
  function UptimeOf(elapsed: int): Uptime
  {
    var days := elapsed / 86400;
    var seconds := elapsed % 86400;
    Uptime(days, seconds / 3600, seconds % 3600 / 60)
  }

  /** get_uptime: days are shown only when there is at least one. */
  function UptimeText(elapsed: int): string
  {
    var u := UptimeOf(elapsed);
    var hm := IntToString(u.hours) + "ч " + IntToString(u.minutes) + "м";
    if u.days > 0 then IntToString(u.days) + "д " + hm else hm
  }

  /** The parts are in range and add back up to the uptime, up to the
      seconds that are not shown. */
  lemma UptimeOfBounds(elapsed: int)
    ensures var u := UptimeOf(elapsed);
      0 <= u.hours < 24 && 0 <= u.minutes < 60 &&
      0 <= elapsed - (u.days * 86400 + u.hours * 3600 + u.minutes * 60) < 60
  {
  }

  /** The split is the only one with parts in range: an uptime built from
      days, hours, minutes and seconds in range splits back into them. */
  lemma UptimeOfRoundTrip(days: int, hours: int, minutes: int, seconds: int)
    requires 0 <= hours < 24 && 0 <= minutes < 60 && 0 <= seconds < 60
    ensures UptimeOf(days * 86400 + hours * 3600 + minutes * 60 + seconds) == Uptime(days, hours, minutes)
  {
    var r := hours * 3600 + minutes * 60 + seconds;
    assert (days * 86400 + r) / 86400 == days && (days * 86400 + r) % 86400 == r;
    var m := minutes * 60 + seconds;
    assert r / 3600 == hours && r % 3600 == m;
    assert m / 60 == minutes;
  }

  /** The text names days exactly when there is at least one. */
  lemma UptimeShowsDays(elapsed: int)
    ensures 'д' in UptimeText(elapsed) <==> UptimeOf(elapsed).days > 0
  {
    var u := UptimeOf(elapsed);
    var hm := IntToString(u.hours) + "ч " + IntToString(u.minutes) + "м";
    NoLetterInNumber(u.hours, 'д');
    NoLetterInNumber(u.minutes, 'д');
    assert 'д' !in hm;
    if u.days > 0 {
      var text := IntToString(u.days) + "д " + hm;
      assert text[|IntToString(u.days)|] == 'д';
    }
  }

  lemma NoLetterInNumber(n: int, c: char)
    requires !IsDigit(c) && c != '-'
    ensures c !in IntToString(n)
  {
  }

  // =========================================================== processes

  /** The fields of proc.info the table reads. */
  datatype ProcInfo = ProcInfo(pid: int, name: string, cpu: real, memory: real)

  /** A float rendered with a given number of decimals (the `.Nf` format). */
  type FixedFormat = (real, nat) -> string

  const ProcessesHeader: string :=
    "📈 *Топ процессов по CPU:*\n\n" + "PID | Имя | CPU% | Память%\n" + "----------------------------------------\n"
  const ProcessesFailurePrefix: string := "❌ Ошибка получения процессов: "

  /** Insert a process after every process whose CPU share is at least its own. */
  function InsertByCpu(p: ProcInfo, sorted: seq<ProcInfo>): (r: seq<ProcInfo>)
    ensures |r| == |sorted| + 1
  {
    if sorted == [] then [p]
    else if sorted[0].cpu >= p.cpu then [sorted[0]] + InsertByCpu(p, sorted[1..])
    else [p] + sorted
  }

  /** `processes.sort(key=cpu_percent, reverse=True)`: Python's sort is
      stable, also in reverse, so processes with equal CPU share keep their
      order of enumeration. */
  function SortByCpu(ps: seq<ProcInfo>): (r: seq<ProcInfo>)
    ensures |r| == |ps|
  {
    if ps == [] then [] else InsertByCpu(ps[|ps| - 1], SortByCpu(ps[..|ps| - 1]))
  }

  predicate SortedByCpu(s: seq<ProcInfo>)
  {
    forall i, j :: 0 <= i < j < |s| ==> s[i].cpu >= s[j].cpu
  }

  /** The processes with the given CPU share, in order. */
  function WithCpu(s: seq<ProcInfo>, c: real): seq<ProcInfo>
  {
    if s == [] then [] else (if s[0].cpu == c then [s[0]] else []) + WithCpu(s[1..], c)
  }

  lemma {:induction false} WithCpuAppend(a: seq<ProcInfo>, b: seq<ProcInfo>, c: real)
    ensures WithCpu(a + b, c) == WithCpu(a, c) + WithCpu(b, c)
  {
    if a != [] {
      WithCpuAppend(a[1..], b, c);
      assert (a + b)[0] == a[0];
      assert (a + b)[1..] == a[1..] + b;
    } else {
      assert a + b == b;
    }
  }

  lemma {:induction false} WithCpuNone(s: seq<ProcInfo>, c: real)
    requires forall k :: 0 <= k < |s| ==> s[k].cpu < c
    ensures WithCpu(s, c) == []
  {
    if s != [] {
      WithCpuNone(s[1..], c);
    }
  }

  /** Inserting adds the process once and loses nothing. */
  lemma {:induction false} InsertByCpuPermutes(p: ProcInfo, sorted: seq<ProcInfo>)
    ensures multiset(InsertByCpu(p, sorted)) == multiset(sorted) + multiset{p}
  {
    if sorted != [] && sorted[0].cpu >= p.cpu {
      InsertByCpuPermutes(p, sorted[1..]);
      assert sorted == [sorted[0]] + sorted[1..];
    }
  }

  /** Inserting into a sorted sequence keeps it sorted. */
  lemma {:induction false} InsertByCpuSorted(p: ProcInfo, sorted: seq<ProcInfo>)
    requires SortedByCpu(sorted)
    ensures SortedByCpu(InsertByCpu(p, sorted))
  {
    if sorted == [] {
    } else if sorted[0].cpu >= p.cpu {
      var rest := sorted[1..];
      SortedTail(sorted);
      InsertByCpuSorted(p, rest);
      InsertByCpuBelow(p, rest, sorted[0].cpu);
      SortedCons(sorted[0], InsertByCpu(p, rest));
    } else {
      SortedCons(p, sorted);
    }
  }

  /** What a sorted sequence's tail holds: it is sorted, and no element of it
      exceeds the head. */
  lemma SortedTail(s: seq<ProcInfo>)
    requires s != [] && SortedByCpu(s)
    ensures SortedByCpu(s[1..])
    ensures forall k :: 0 <= k < |s[1..]| ==> s[1..][k].cpu <= s[0].cpu
  {
    forall k | 0 <= k < |s[1..]|
      ensures s[1..][k].cpu <= s[0].cpu
    {
      assert s[1..][k] == s[k + 1];
    }
  }

  /** A process at least as busy as every element of a sorted sequence can
      lead it. */
  lemma SortedCons(x: ProcInfo, s: seq<ProcInfo>)
    requires SortedByCpu(s)
    requires s == [] || s[0].cpu <= x.cpu
    ensures SortedByCpu([x] + s)
  {
    forall i, j | 0 <= i < j < |[x] + s|
      ensures ([x] + s)[i].cpu >= ([x] + s)[j].cpu
    {
      assert ([x] + s)[j] == s[j - 1];
      if i > 0 {
        assert ([x] + s)[i] == s[i - 1];
      }
    }
  }

  /** Inserting a process under a bound into a sequence under that bound
      stays under it. */
  lemma {:induction false} InsertByCpuBelow(p: ProcInfo, s: seq<ProcInfo>, bound: real)
    requires p.cpu <= bound
    requires forall k :: 0 <= k < |s| ==> s[k].cpu <= bound
    ensures forall k :: 0 <= k < |InsertByCpu(p, s)| ==> InsertByCpu(p, s)[k].cpu <= bound
  {
    if s != [] && s[0].cpu >= p.cpu {
      var rest := s[1..];
      assert forall k :: 0 <= k < |rest| ==> rest[k] == s[k + 1];
      InsertByCpuBelow(p, rest, bound);
      var r := InsertByCpu(p, rest);
      assert InsertByCpu(p, s) == [s[0]] + r;
      assert forall k :: 0 < k <= |r| ==> ([s[0]] + r)[k] == r[k - 1];
    }
  }

  /** The inserted process comes after those with the same CPU share. */
  lemma {:induction false} InsertByCpuStable(p: ProcInfo, sorted: seq<ProcInfo>, c: real)
    requires SortedByCpu(sorted)
    ensures WithCpu(InsertByCpu(p, sorted), c) == WithCpu(sorted, c) + (if p.cpu == c then [p] else [])
  {
    if sorted == [] {
    } else if sorted[0].cpu >= p.cpu {
      var rest := sorted[1..];
      SortedTail(sorted);
      InsertByCpuStable(p, rest, c);
      var r := InsertByCpu(p, rest);
      assert InsertByCpu(p, sorted) == [sorted[0]] + r;
      WithCpuCons(sorted[0], r, c);
      WithCpuCons(sorted[0], rest, c);
      assert sorted == [sorted[0]] + rest;
    } else {
      assert InsertByCpu(p, sorted) == [p] + sorted;
      WithCpuCons(p, sorted, c);
      if p.cpu == c {
        SortedTail(sorted);
        WithCpuNone(sorted, c);
      }
    }
  }

  /** Selecting by CPU share looks at the head, then at the rest. */
  lemma WithCpuCons(x: ProcInfo, s: seq<ProcInfo>, c: real)
    ensures WithCpu([x] + s, c) == (if x.cpu == c then [x] else []) + WithCpu(s, c)
  {
    assert ([x] + s)[1..] == s;
  }

  /** The sort orders by CPU share, highest first. */
  lemma {:induction false} SortByCpuSorted(ps: seq<ProcInfo>)
    ensures SortedByCpu(SortByCpu(ps))
  {
    if ps != [] {
      SortByCpuSorted(ps[..|ps| - 1]);
      InsertByCpuSorted(ps[|ps| - 1], SortByCpu(ps[..|ps| - 1]));
    }
  }

  /** The sort is a permutation. */
  lemma {:induction false} SortByCpuPermutes(ps: seq<ProcInfo>)
    ensures multiset(SortByCpu(ps)) == multiset(ps)
  {
    if ps != [] {
      var front, last := ps[..|ps| - 1], ps[|ps| - 1];
      SortByCpuPermutes(front);
      InsertByCpuPermutes(last, SortByCpu(front));
      assert SortByCpu(ps) == InsertByCpu(last, SortByCpu(front));
      MultisetSnoc(ps);
    }
  }

  /** The sort keeps the enumeration order among processes with equal share. */
  lemma {:induction false} SortByCpuStable(ps: seq<ProcInfo>, c: real)
    ensures WithCpu(SortByCpu(ps), c) == WithCpu(ps, c)
  {
    if ps != [] {
      var front, last := ps[..|ps| - 1], ps[|ps| - 1];
      SortByCpuStable(front, c);
      SortByCpuSorted(front);
      InsertByCpuStable(last, SortByCpu(front), c);
      WithCpuAppend(front, [last], c);
      assert ps == front + [last];
    }
  }

  /** How many rows `processes[:top_n]` keeps: a negative bound counts from
      the end. */
  function SliceEnd(n: int, len: nat): (k: nat)
    ensures k <= len
  {
    if n >= 0 then (if n < len then n else len)
    else if len + n > 0 then len + n else 0
  }

  /** The name column: the process name cut to fifteen characters. */
  function ShownName(name: string): (shown: string)
    ensures |shown| <= 15 && StartsWith(name, shown)
    ensures |shown| == 15 || shown == name
  {
    if |name| <= 15 then name else name[..15]
  }

  /** One row of the table: pid right-aligned in 5, name cut to 15 and
      left-aligned in 15, CPU share with one decimal in 5, memory share with
      two decimals in 6. */
  function ProcessRow(p: ProcInfo, fixed: FixedFormat): string
  {
    (PadLeft(IntToString(p.pid), 5) + " | ") + PadRight(ShownName(p.name), 15) +
    (" | " + PadLeft(fixed(p.cpu, 1), 5) + " | " + PadLeft(fixed(p.memory, 2), 6) + "\n")
  }

  /** After the pid column and its separator, a row holds the cut name in a
      column exactly fifteen characters wide. */
  lemma ProcessRowName(p: ProcInfo, fixed: FixedFormat)
    ensures var start := |PadLeft(IntToString(p.pid), 5)| + 3;
      var row := ProcessRow(p, fixed);
      |row| >= start + 15 && row[start..start + 15] == PadRight(ShownName(p.name), 15)
  {
    var pid := PadLeft(IntToString(p.pid), 5) + " | ";
    var name := PadRight(ShownName(p.name), 15);
    var rest := " | " + PadLeft(fixed(p.cpu, 1), 5) + " | " + PadLeft(fixed(p.memory, 2), 6) + "\n";
    MiddleOf(pid, name, rest);
  }

  /** The middle piece of a concatenation sits right after the first. */
  lemma MiddleOf<T>(a: seq<T>, b: seq<T>, c: seq<T>)
    ensures (a + b + c)[|a|..|a| + |b|] == b
  {
  }

  function ProcessRows(ps: seq<ProcInfo>, fixed: FixedFormat): string
  {
    if ps == [] then "" else ProcessRows(ps[..|ps| - 1], fixed) + ProcessRow(ps[|ps| - 1], fixed)
  }

  /** top_n when the caller gives none: the processes button shows ten rows. */
  const DefaultTopN: int := 10

  /** The processes shown: the sorted list cut to top_n. */
  function TopProcesses(ps: seq<ProcInfo>, topN: int): seq<ProcInfo>
  {
    SortByCpu(ps)[..SliceEnd(topN, |ps|)]
  }

  /** The text of get_processes_info. `listing` is what process_iter yields,
      each process's info or None where reading it raised, or the exception
      that ended the whole listing. */
  function ProcessesReport(listing: Result<seq<Option<ProcInfo>>>, topN: int, fixed: FixedFormat): string
  {
    match listing
    case Ok(items) => ProcessesHeader + ProcessRows(TopProcesses(Present(items), topN), fixed)
    case Err(message) => ProcessesFailurePrefix + message
  }

  /** get_processes_info. The processes button calls it without an
      argument, so with `topN == DefaultTopN`. */
  method GetProcessesInfo(listing: Result<seq<Option<ProcInfo>>>, topN: int, fixed: FixedFormat)
    returns (info: string)
    ensures info == ProcessesReport(listing, topN, fixed)
  {
    match listing {
      case Err(message) =>
        info := ProcessesFailurePrefix + message;
      case Ok(items) =>
        var processes := CollectProcesses(items);
        var sorted := SortByCpu(processes);
        var rows := RenderProcessRows(sorted[..SliceEnd(topN, |sorted|)], fixed);
        info := ProcessesHeader + rows;
    }
  }

  /** The enumeration loop of get_processes_info: the processes whose info
      could be read, in order. */
  method CollectProcesses(items: seq<Option<ProcInfo>>) returns (processes: seq<ProcInfo>)
    ensures processes == Present(items)
  {
    processes := [];
    for i := 0 to |items|
      invariant processes == Present(items[..i])
    {
      assert items[..i + 1][..i] == items[..i];
      if items[i].Some? {
        processes := processes + [items[i].value];
      }
    }
    assert items[..|items|] == items;
  }

  /** The row loop of get_processes_info. */
  method RenderProcessRows(shown: seq<ProcInfo>, fixed: FixedFormat) returns (rows: string)
    ensures rows == ProcessRows(shown, fixed)
  {
    rows := "";
    for i := 0 to |shown|
      invariant rows == ProcessRows(shown[..i], fixed)
    {
      ProcessRowsSnoc(shown, i, fixed);
      rows := rows + ProcessRow(shown[i], fixed);
    }
    assert shown[..|shown|] == shown;
  }

  /** One more process adds its row at the end. */
  lemma ProcessRowsSnoc(shown: seq<ProcInfo>, i: nat, fixed: FixedFormat)
    requires i < |shown|
    ensures ProcessRows(shown[..i + 1], fixed) == ProcessRows(shown[..i], fixed) + ProcessRow(shown[i], fixed)
  {
    assert shown[..i + 1][..i] == shown[..i];
  }

  /** With the default top_n the table shows ten processes, or all of them
      when fewer were read, and none of those left out uses more CPU. */
  lemma DefaultTopRows(ps: seq<ProcInfo>)
    ensures |TopProcesses(ps, DefaultTopN)| == if |ps| < 10 then |ps| else 10
    ensures forall i, j :: 0 <= i < |TopProcesses(ps, DefaultTopN)| <= j < |ps| ==>
      TopProcesses(ps, DefaultTopN)[i].cpu >= SortByCpu(ps)[j].cpu
  {
    TopProcessesSpec(ps, DefaultTopN);
  }

  /** The table shows min(top_n, count) processes, every one of them using
      at least as much CPU as every process left out. */
  lemma TopProcessesSpec(ps: seq<ProcInfo>, topN: int)
    ensures |TopProcesses(ps, topN)| == SliceEnd(topN, |ps|)
    ensures multiset(TopProcesses(ps, topN)) <= multiset(ps)
    ensures forall i, j :: 0 <= i < SliceEnd(topN, |ps|) <= j < |ps| ==>
      TopProcesses(ps, topN)[i].cpu >= SortByCpu(ps)[j].cpu
  {
    var sorted := SortByCpu(ps);
    var k := SliceEnd(topN, |ps|);
    assert multiset(sorted[..k]) <= multiset(ps) by {
      SortByCpuPermutes(ps);
      PrefixSubMultiset(sorted, k);
    }
    assert forall i, j :: 0 <= i < k <= j < |ps| ==> sorted[..k][i].cpu >= sorted[j].cpu by {
      SortByCpuSorted(ps);
    }
  }

  /** The elements of a non-empty sequence are those before its last one, and the last. */
  lemma MultisetSnoc<T>(s: seq<T>)
    requires s != []
    ensures multiset(s) == multiset(s[..|s| - 1]) + multiset{s[|s| - 1]}
  {
    assert s == s[..|s| - 1] + [s[|s| - 1]];
  }

  /** A prefix holds no more of anything than the whole sequence. */
  lemma PrefixSubMultiset<T>(s: seq<T>, k: nat)
    requires k <= |s|
    ensures multiset(s[..k]) <= multiset(s)
  {
    assert s == s[..k] + s[k..];
  }
}
