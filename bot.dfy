/** The logic of bot.py around the Telegram transport: the text pipeline
    (truncation of command output, the memory view, the short status view),
    the dispatch of button callbacks, and the per-user state (the last menu
    message of each user and the flag that the next text is a command).
    Sending, editing and deleting messages become a list of outgoing
    actions; keyboards are left out. */
module Bot {
  import opened Wrappers
  import opened Text
  import Commands

  // ===================================================== output truncation

  const TruncationLimit: nat := 3500
  const TruncationNote: string := "\n... (вывод обрезан)"

  /** The output shown for a typed command: cut to 3500 characters and
      marked when it is longer. */
  function Truncate(result: string): string
  {
    if |result| > TruncationLimit then result[..TruncationLimit] + TruncationNote else result
  }

  /** The shown output is bounded, starts with the output itself (whole when
      short, its first 3500 characters otherwise) and is marked exactly where
      something was cut. */
  lemma TruncateSpec(result: string)
    ensures |Truncate(result)| <= TruncationLimit + |TruncationNote|
    ensures |result| <= TruncationLimit ==> Truncate(result) == result
    ensures |result| > TruncationLimit ==>
      StartsWith(Truncate(result), result[..TruncationLimit]) &&
      Truncate(result)[TruncationLimit..] == TruncationNote
  {
  }

  /** Truncating twice is truncating once. */
  lemma TruncateIdempotent(result: string)
    ensures Truncate(Truncate(result)) == Truncate(result)
  {
    if |result| > TruncationLimit {
      var once := result[..TruncationLimit] + TruncationNote;
      assert once[..TruncationLimit] == result[..TruncationLimit];
    }
  }

  // ========================================================== memory view

  const MemoryKeywords: seq<string> := ["память", "memory", "оператив", "swap", "свободно", "использовано", "доступно"]
  const MemoryHeader: string := "🧠 *Детальная информация о памяти:*\n\n"
  const NoMemoryInfo: string := "Информация о памяти не найдена"

  /** A line whose lower-cased text contains one of the keywords. */
  predicate MentionsMemory(line: string)
  {
    exists k :: 0 <= k < |MemoryKeywords| && Contains(Lower(line), MemoryKeywords[k])
  }

  /** The lines that mention memory, in their original order. */
  function MemoryLines(lines: seq<string>): (kept: seq<string>)
    ensures |kept| <= |lines|
  {
    if lines == [] then []
    else
      var front := MemoryLines(lines[..|lines| - 1]);
      if MentionsMemory(lines[|lines| - 1]) then front + [lines[|lines| - 1]] else front
  }

  /** The text of the memory view of the system information. */
  function MemoryView(info: string): string
  {
    var kept := MemoryLines(SplitOn(info, '\n'));
    MemoryHeader + (if kept == [] then NoMemoryInfo else Join(kept, "\n"))
  }

  /** The filter loop of the memory_status branch. */
  method FilterMemoryLines(lines: seq<string>) returns (kept: seq<string>)
    ensures kept == MemoryLines(lines)
  {
    kept := [];
    for i := 0 to |lines|
      invariant kept == MemoryLines(lines[..i])
    {
      assert lines[..i + 1][..i] == lines[..i];
      var lowerLine := Lower(lines[i]);
      var k := 0;
      var found := false;
      while k < |MemoryKeywords| && !found
        invariant 0 <= k <= |MemoryKeywords|
        invariant found <==> exists j :: 0 <= j < k && Contains(lowerLine, MemoryKeywords[j])
      {
        found := Contains(lowerLine, MemoryKeywords[k]);
        k := k + 1;
      }
      assert found <==> MentionsMemory(lines[i]);
      if found {
        kept := kept + [lines[i]];
      }
    }
    assert lines[..|lines|] == lines;
  }

  /** A line is kept exactly when it is one of the lines and mentions memory. */
  lemma {:induction false} MemoryLinesMembership(lines: seq<string>, line: string)
    ensures line in MemoryLines(lines) <==> line in lines && MentionsMemory(line)
  {
    if lines != [] {
      var front := lines[..|lines| - 1];
      MemoryLinesMembership(front, line);
      assert lines == front + [lines[|lines| - 1]];
    }
  }

  /** The filter keeps order: the lines of two pieces are kept piece by piece. */
  lemma {:induction false} MemoryLinesAppend(a: seq<string>, b: seq<string>)
    ensures MemoryLines(a + b) == MemoryLines(a) + MemoryLines(b)
  {
    if b == [] {
      assert a + b == a;
    } else {
      var front := b[..|b| - 1];
      MemoryLinesAppend(a, front);
      assert (a + b)[..|a + b| - 1] == a + front;
      assert (a + b)[|a + b| - 1] == b[|b| - 1];
    }
  }

  // ========================================================== status view

  const StatusLineLimit: nat := 15

  /** The text of /status: the first fifteen lines of the system information. */
  function StatusView(info: string): string
  {
    var lines := SplitOn(info, '\n');
    Join(lines[..if |lines| < StatusLineLimit then |lines| else StatusLineLimit], "\n")
  }

  /** The short status is a prefix of the full text made of its first lines,
      at most fifteen of them, and is the full text when that has no more. */
  lemma StatusViewSpec(info: string)
    ensures StartsWith(info, StatusView(info))
    ensures var lines := SplitOn(info, '\n');
      SplitOn(StatusView(info), '\n') == lines[..if |lines| < StatusLineLimit then |lines| else StatusLineLimit]
    ensures |SplitOn(StatusView(info), '\n')| <= StatusLineLimit
    ensures |SplitOn(info, '\n')| <= StatusLineLimit ==> StatusView(info) == info
  {
    var lines := SplitOn(info, '\n');
    var k := if |lines| < StatusLineLimit then |lines| else StatusLineLimit;
    SplitOnSpec(info, '\n');
    JoinPrefix(lines, k, "\n");
    SplitOnJoin(lines[..k], '\n');
    assert lines[..|lines|] == lines;
  }

  // ============================================================= dispatch

  /** The fixed menus and prompts the bot shows. */
  datatype Menu = Welcome | ShortMainMenu | MonitoringMenu | QuickCommandsMenu | TerminalMenu
                | ManagementMenu | HelpMenu | CommandPrompt

  /** The monitoring reports a button can ask for. */
  datatype Report = SystemInfo | DiskInfo | NetworkInfo | ServicesInfo | DetailedDiskInfo | ProcessesInfo

  /** The text of each report at the time of the press. */
  type ReportSource = Report -> string

  /** What a button press does. */
  datatype Action = ShowMenu(menu: Menu) | ShowReport(report: Report) | ShowMemory
                  | RunQuick(entry: Commands.CatalogEntry) | AwaitCommand | Ignore

  const QuickPrefix: string := "quick_"

  /** The branch of button_handler that the callback data selects. */
  function Dispatch(data: string): Action
  {
    if data == "main_menu" then ShowMenu(Welcome)
    else if data == "monitoring" then ShowMenu(MonitoringMenu)
    else if data == "quick_cmds" then ShowMenu(QuickCommandsMenu)
    else if data == "terminal" then ShowMenu(TerminalMenu)
    else if data == "management" then ShowMenu(ManagementMenu)
    else if data == "help_menu" then ShowMenu(HelpMenu)
    else if data == "system_status" then ShowReport(SystemInfo)
    else if data == "disk_status" then ShowReport(DiskInfo)
    else if data == "network_status" then ShowReport(NetworkInfo)
    else if data == "services_status" then ShowReport(ServicesInfo)
    else if data == "disk_detailed" then ShowReport(DetailedDiskInfo)
    else if data == "memory_status" then ShowMemory
    else if data == "processes_status" then ShowReport(ProcessesInfo)
    else if StartsWith(data, QuickPrefix) then
      match Commands.Lookup(data[|QuickPrefix|..])
      case Some(entry) => RunQuick(entry)
      case None => Ignore
    else if data == "custom_command" then AwaitCommand
    else Ignore
  }

  /** Callback data that starts with 'q' and is not "quick_cmds" is none of
      the fixed buttons compared before the quick-command prefix. */
  lemma NotFixedButton(data: string)
    requires |data| > 0 && data[0] == 'q' && data != "quick_cmds"
    ensures Dispatch(data) == (if StartsWith(data, QuickPrefix) then
                                 match Commands.Lookup(data[|QuickPrefix|..])
                                 case Some(entry) => RunQuick(entry)
                                 case None => Ignore
                               else if data == "custom_command" then AwaitCommand
                               else Ignore)
  {
    assert data != "main_menu" && data != "monitoring" && data != "terminal" && data != "management";
    assert data != "help_menu" && data != "system_status" && data != "disk_status";
    assert data != "network_status" && data != "services_status" && data != "disk_detailed";
    assert data != "memory_status" && data != "processes_status";
  }

  /** A press runs a catalog command exactly when its data is "quick_"
      followed by a catalog key other than "cmds", and then runs the entry of
      that key. */
  lemma QuickDispatch(data: string)
    ensures Dispatch(data).RunQuick? <==>
      StartsWith(data, QuickPrefix) && data != "quick_cmds" && Commands.Lookup(data[|QuickPrefix|..]).Some?
    ensures Dispatch(data).RunQuick? ==> Dispatch(data).entry == Commands.Lookup(data[|QuickPrefix|..]).value
  {
    if StartsWith(data, QuickPrefix) && data != "quick_cmds" {
      assert data[0] == data[..|QuickPrefix|][0] == 'q';
      NotFixedButton(data);
    }
  }

  /** The three buttons of the management menu (reboot, shutdown, logs)
      run nothing: the catalog has no entry for them. */
  lemma ManagementButtonsIgnored()
    ensures forall name :: name in ManagementButtons ==> Dispatch(QuickPrefix + name) == Ignore
  {
    Commands.ManagementNamesAbsent();
    forall name | name in ManagementButtons
      ensures Dispatch(QuickPrefix + name) == Ignore
    {
      UnknownQuickIgnored(name);
    }
  }

  /** The command names behind the management menu's buttons. */
  const ManagementButtons: seq<string> := ["reboot", "shutdown", "logs"]

  /** A quick-command button whose name the catalog lacks runs nothing. */
  lemma UnknownQuickIgnored(name: string)
    requires name != "cmds"
    requires forall k :: 0 <= k < |Commands.PredefinedCommands| ==> Commands.PredefinedCommands[k].key != name
    ensures Dispatch(QuickPrefix + name) == Ignore
  {
    if Commands.Lookup(name).Some? { assert false; }
    QuickNameDispatch(name);
  }

  /** "quick_" followed by a name other than "cmds" is decided by the
      catalog alone. */
  lemma QuickNameDispatch(name: string)
    requires name != "cmds"
    ensures Dispatch(QuickPrefix + name) ==
      match Commands.Lookup(name)
      case Some(entry) => RunQuick(entry)
      case None => Ignore
  {
    var data := QuickPrefix + name;
    assert data[..|QuickPrefix|] == QuickPrefix && data[|QuickPrefix|..] == name;
    assert "quick_cmds"[|QuickPrefix|..] == "cmds";
    assert data[0] == 'q';
    NotFixedButton(data);
  }

  /** Every catalog entry is run by the button that the quick-commands menu
      makes for it. */
  lemma CatalogReachable(k: nat)
    requires k < |Commands.PredefinedCommands|
    ensures Dispatch(QuickPrefix + Commands.PredefinedCommands[k].key) == RunQuick(Commands.PredefinedCommands[k])
  {
    Commands.CatalogWellFormed();
    Commands.CatalogKeysLong();
    QuickNameDispatch(Commands.PredefinedCommands[k].key);
  }

  // ===================================================== replies and state

  /** A message the bot sends, an edit of the message holding the pressed
      button, or a deletion. */
  datatype Outgoing = Reply(text: string) | Edit(text: string) | ReplyMenu(menu: Menu) | EditMenu(menu: Menu)
                    | Delete(messageId: int)

  const Denied: string := "⛔ Доступ запрещен"
  const Running: string := "⏳ Выполняю команду..."
  const Cancelled: string := "❌ Команда отменена"
  const CommandPrefix: string := "/cmd "
  const CancelWords: seq<string> := ["отмена", "cancel", "❌"]

  /** execute_command with the catalog's default timeout. */
  function Execute(command: string, split: Commands.WordSplitter, run: Commands.Runner): string
  {
    Commands.ExecuteCommand(command, Commands.DefaultTimeout, split, run)
  }

  /** The reply to a typed command: the command and its (truncated) output. */
  function CommandReply(command: string, output: string): string
  {
    "*Команда:* `" + command + "`\n\n*Результат:*\n```\n" + output + "\n```"
  }

  /** The message of a quick command: description, command and the whole
      output. */
  function QuickReply(entry: Commands.CatalogEntry, output: string): string
  {
    "*" + entry.description + "*\n\n```\n" + entry.command + "\n```\n\n*Результат:*\n```\n" + output + "\n```"
  }

  /** A quick command's output is shown whole, however long; a typed
      command's output is shown truncated. */
  lemma QuickOutputWhole(entry: Commands.CatalogEntry, command: string, output: string)
    ensures var text := QuickReply(entry, output);
      |text| >= |output| + 4 && text[|text| - |output| - 4..|text| - 4] == output
    ensures var text := CommandReply(command, Truncate(output));
      |text| >= |Truncate(output)| + 4 && text[|text| - |Truncate(output)| - 4..|text| - 4] == Truncate(output)
  {
  }

  /** What a press shows, for an administrator. */
  function ButtonOutput(action: Action, report: ReportSource, split: Commands.WordSplitter, run: Commands.Runner): seq<Outgoing>
  {
    match action
    case ShowMenu(menu) => [EditMenu(menu)]
    case ShowReport(r) => [Edit(report(r))]
    case ShowMemory => [Edit(MemoryView(report(SystemInfo)))]
    case RunQuick(entry) => [Edit(Running), Edit(QuickReply(entry, Execute(entry.command, split, run)))]
    case AwaitCommand => [EditMenu(CommandPrompt)]
    case Ignore => []
  }

  /** The deletion of the user's previous menu, when one is recorded. */
  function DeleteOldMenu(userMessages: map<int, int>, userId: int): seq<Outgoing>
  {
    if userId in userMessages then [Delete(userMessages[userId])] else []
  }

  /** A cancel word, compared after lower-casing. */
  predicate IsCancel(text: string)
  {
    Lower(text) in CancelWords
  }

  /** The bot's state: the id of the last menu message sent to each user,
      and each user's awaiting_command flag. `executed` records the commands
      run, in order. */
  class BotState {
    var userMessages: map<int, int>
    var awaitingCommand: map<int, bool>
    ghost var executed: seq<string>
    const isAdmin: int -> bool

    constructor (isAdmin: int -> bool)
      ensures this.isAdmin == isAdmin
      ensures userMessages == map[] && awaitingCommand == map[] && executed == []
    {
      this.isAdmin := isAdmin;
      userMessages := map[];
      awaitingCommand := map[];
      executed := [];
    }

    /** `context.user_data.get('awaiting_command')` */
    predicate Awaiting(userId: int)
      reads this
    {
      userId in awaitingCommand && awaitingCommand[userId]
    }

    /** start (with `menu` Welcome) and menu_command (with ShortMainMenu):
        an administrator's previous menu is deleted and the id of the new one,
        which Telegram assigns, is recorded for that user alone. */
    method SendMenu(userId: int, menu: Menu, newMessageId: int) returns (out: seq<Outgoing>)
      modifies this
      ensures !isAdmin(userId) ==> out == [Reply(Denied)] && unchanged(this)
      ensures isAdmin(userId) ==>
        out == DeleteOldMenu(old(userMessages), userId) + [ReplyMenu(menu)] &&
        userMessages == old(userMessages)[userId := newMessageId] &&
        awaitingCommand == old(awaitingCommand) && executed == old(executed)
    {
      if !isAdmin(userId) {
        out := [Reply(Denied)];
        return;
      }
      out := [];
      if userId in userMessages {
        out := [Delete(userMessages[userId])];
      }
      out := out + [ReplyMenu(menu)];
      userMessages := userMessages[userId := newMessageId];
    }

    /** button_handler: a non-administrator gets the denial; otherwise the
        branch the data selects. Only custom_command changes the state, by
        setting the user's flag; a quick command is run once. */
    method ButtonPress(userId: int, data: string, report: ReportSource,
                       split: Commands.WordSplitter, run: Commands.Runner) returns (out: seq<Outgoing>)
      modifies this
      ensures !isAdmin(userId) ==> out == [Edit(Denied)] && unchanged(this)
      ensures isAdmin(userId) ==>
        out == ButtonOutput(Dispatch(data), report, split, run) &&
        userMessages == old(userMessages) &&
        awaitingCommand == (if Dispatch(data).AwaitCommand? then old(awaitingCommand)[userId := true] else old(awaitingCommand)) &&
        executed == old(executed) + (if Dispatch(data).RunQuick? then [Dispatch(data).entry.command] else [])
    {
      if !isAdmin(userId) {
        out := [Edit(Denied)];
        return;
      }
      var action := Dispatch(data);
      match action {
        case ShowMenu(menu) =>
          out := [EditMenu(menu)];
        case ShowReport(r) =>
          out := [Edit(report(r))];
        case ShowMemory =>
          var info := report(SystemInfo);
          var kept := FilterMemoryLines(SplitOn(info, '\n'));
          var memoryInfo := if kept == [] then NoMemoryInfo else Join(kept, "\n");
          out := [Edit(MemoryHeader + memoryInfo)];
        case RunQuick(entry) =>
          var result := Execute(entry.command, split, run);
          executed := executed + [entry.command];
          out := [Edit(Running), Edit(QuickReply(entry, result))];
        case AwaitCommand =>
          awaitingCommand := awaitingCommand[userId := true];
          out := [EditMenu(CommandPrompt)];
        case Ignore =>
          out := [];
      }
    }

    /** handle_message. While the flag is set, a cancel word clears it and
        runs nothing, and any other text is run once as a whole, even when it
        starts with "/cmd ", and clears the flag. Otherwise "/cmd " text runs
        what follows the prefix, and other text is ignored. */
    method HandleMessage(userId: int, text: string, split: Commands.WordSplitter, run: Commands.Runner)
      returns (out: seq<Outgoing>)
      modifies this
      ensures !isAdmin(userId) ==> out == [] && unchanged(this)
      ensures userMessages == old(userMessages)
      ensures isAdmin(userId) && old(Awaiting(userId)) && IsCancel(text) ==>
        out == [Reply(Cancelled)] &&
        awaitingCommand == old(awaitingCommand)[userId := false] && executed == old(executed)
      ensures isAdmin(userId) && old(Awaiting(userId)) && !IsCancel(text) ==>
        out == [Reply(Running), Reply(CommandReply(text, Truncate(Execute(text, split, run))))] &&
        awaitingCommand == old(awaitingCommand)[userId := false] && executed == old(executed) + [text]
      ensures isAdmin(userId) && !old(Awaiting(userId)) && StartsWith(text, CommandPrefix) ==>
        var command := text[|CommandPrefix|..];
        out == [Reply(Running), Reply(CommandReply(command, Truncate(Execute(command, split, run))))] &&
        awaitingCommand == old(awaitingCommand) && executed == old(executed) + [command]
      ensures isAdmin(userId) && !old(Awaiting(userId)) && !StartsWith(text, CommandPrefix) ==>
        out == [] && unchanged(this)
    {
      if !isAdmin(userId) {
        out := [];
        return;
      }
      if Awaiting(userId) {
        if Lower(text) in CancelWords {
          awaitingCommand := awaitingCommand[userId := false];
          out := [Reply(Cancelled)];
          return;
        }
        var result := Execute(text, split, run);
        executed := executed + [text];
        if |result| > TruncationLimit {
          result := result[..TruncationLimit] + TruncationNote;
        }
        out := [Reply(Running), Reply(CommandReply(text, result))];
        awaitingCommand := awaitingCommand[userId := false];
      } else if StartsWith(text, CommandPrefix) {
        var command := text[|CommandPrefix|..];
        var result := Execute(command, split, run);
        executed := executed + [command];
        if |result| > TruncationLimit {
          result := result[..TruncationLimit] + TruncationNote;
        }
        out := [Reply(Running), Reply(CommandReply(command, result))];
      } else {
        out := [];
      }
    }

    /** status_command: the short status for an administrator, the denial
        for anyone else. */
    method Status(userId: int, info: string) returns (out: seq<Outgoing>)
      ensures isAdmin(userId) ==> out == [Reply(StatusView(info))]
      ensures !isAdmin(userId) ==> out == [Reply(Denied)]
    {
      if !isAdmin(userId) {
        out := [Reply(Denied)];
        return;
      }
      var lines := SplitOn(info, '\n');
      var shown := if |lines| < StatusLineLimit then |lines| else StatusLineLimit;
      out := [Reply(Join(lines[..shown], "\n"))];
    }
  }
}
