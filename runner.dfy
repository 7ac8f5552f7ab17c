/** What importing main.py registers with bot.py: the `!log`, `!src` and
    `!help` commands and the logging handlers, in the order the decorators
    run; and what that configuration then does with a few typical lines. */
module Runner {
  import opened Outcomes
  import opened Strings
  import opened Wire
  import opened Registry
  import opened Commands
  import opened Connection

  const TermbinLogHandler: string := "termbin_log"
  const TermbinSourceHandler: string := "termbin_source"
  const InfoHandlerName: string := "info_handler"
  const KickHandlerName: string := "kick_handler"
  const PrivmsgHandlerName: string := "privmsg_handler"

  const LogDoc: string := "Termbin the log of the channel."
  const SrcDoc: string := "Pastebin the source code for this bot."

  /** `termbin_log(event, channel=None)` and `termbin_source(event)`. */
  const LogSignature: seq<Param> := [Param("event", false), Param("channel", true)]
  const SrcSignature: seq<Param> := [Param("event", false)]
  const HelpSignature: seq<Param> := [Param("event", false), Param("command", true)]

  /** `event_handlers` once main.py is imported. The stacked decorators on
      `info_handler` run bottom-up: QUIT, then PART, then JOIN. */
  const MainHandlers: map<string, seq<string>> := map[
    "PRIVMSG" := [CommandDispatcher, PrivmsgHandlerName],
    "QUIT" := [InfoHandlerName],
    "PART" := [InfoHandlerName],
    "JOIN" := [InfoHandlerName],
    "KICK" := [KickHandlerName]]

  /** The descriptors `command` builds for `!log`, `!src` and `!help`. */
  const LogCommand: Command := Command(TermbinLogHandler, Some(LogDoc), "!log [CHANNEL]", 0, 1)
  const SrcCommand: Command := Command(TermbinSourceHandler, Some(SrcDoc), "!src", 0, 0)
  const HelpCommand: Command := Command(HelpHandler, Some(HelpDoc), "!help [COMMAND]", 0, 1)

  /** `_commands` once main.py is imported, and its key order. */
  const MainCommands: map<string, Command> := map["!log" := LogCommand, "!src" := SrcCommand, "!help" := HelpCommand]
  const MainOrder: seq<string> := ["!log", "!src", "!help"]

  /** The registrations main.py performs at import, in source order. */
  method Setup() returns (reg: Registry)
    ensures fresh(reg) && reg.Valid()
    ensures reg.eventHandlers == MainHandlers
    ensures reg.commands == MainCommands && reg.order == MainOrder
  {
    reg := new Registry();
    LogDescribed();
    SrcDescribed();
    HelpDescribed();
    reg.Register("!log", TermbinLogHandler, LogSignature, Some(LogDoc));
    assert "!src" !in reg.commands by { assert reg.commands.Keys == {"!log"}; }
    assert [] + ["!log"] + ["!src"] == ["!log", "!src"];
    reg.Register("!src", TermbinSourceHandler, SrcSignature, Some(SrcDoc));
    assert "!help" !in reg.commands by { assert reg.commands.Keys == {"!log", "!src"}; }
    assert ["!log", "!src"] + ["!help"] == MainOrder;
    reg.AddHelpCommand("!help");
    AddLogHandlers(reg);
  }

  /** The decorators on main.py's logging handlers, in the order they run. */
  method AddLogHandlers(reg: Registry)
    requires reg.Valid() && reg.eventHandlers == map["PRIVMSG" := [CommandDispatcher]]
    modifies reg
    ensures reg.Valid() && reg.eventHandlers == MainHandlers
    ensures reg.commands == old(reg.commands) && reg.order == old(reg.order)
  {
    reg.On("QUIT", InfoHandlerName);
    reg.On("PART", InfoHandlerName);
    reg.On("JOIN", InfoHandlerName);
    reg.On("KICK", KickHandlerName);
    reg.On("PRIVMSG", PrivmsgHandlerName);
    HandlersBuilt();
  }

  /** The five appends give MainHandlers. */
  lemma HandlersBuilt()
    ensures
      var m := Appended(map["PRIVMSG" := [CommandDispatcher]], "QUIT", InfoHandlerName);
      var m := Appended(m, "PART", InfoHandlerName);
      var m := Appended(m, "JOIN", InfoHandlerName);
      var m := Appended(m, "KICK", KickHandlerName);
      Appended(m, "PRIVMSG", PrivmsgHandlerName) == MainHandlers
  {
    var info := [InfoHandlerName];
    assert [] + info == info && [] + [KickHandlerName] == [KickHandlerName];
    var m := Appended(map["PRIVMSG" := [CommandDispatcher]], "QUIT", InfoHandlerName);
    assert m == map["PRIVMSG" := [CommandDispatcher], "QUIT" := info];
    m := Appended(m, "PART", InfoHandlerName);
    assert m == map["PRIVMSG" := [CommandDispatcher], "QUIT" := info, "PART" := info];
    m := Appended(m, "JOIN", InfoHandlerName);
    assert m == map["PRIVMSG" := [CommandDispatcher], "QUIT" := info, "PART" := info, "JOIN" := info];
    m := Appended(m, "KICK", KickHandlerName);
    HandlersCompleted(m);
  }

  lemma HandlersCompleted(m: map<string, seq<string>>)
    requires m == map["PRIVMSG" := [CommandDispatcher], "QUIT" := [InfoHandlerName], "PART" := [InfoHandlerName],
                      "JOIN" := [InfoHandlerName]][ "KICK" := HandlersOf(map["PRIVMSG" := [CommandDispatcher], "QUIT" := [InfoHandlerName],
                      "PART" := [InfoHandlerName], "JOIN" := [InfoHandlerName]], "KICK") + [KickHandlerName]]
    ensures Appended(m, "PRIVMSG", PrivmsgHandlerName) == MainHandlers
  {
    assert [] + [KickHandlerName] == [KickHandlerName];
    assert m == map["PRIVMSG" := [CommandDispatcher], "QUIT" := [InfoHandlerName], "PART" := [InfoHandlerName],
                    "JOIN" := [InfoHandlerName], "KICK" := [KickHandlerName]];
    assert [CommandDispatcher] + [PrivmsgHandlerName] == [CommandDispatcher, PrivmsgHandlerName];
  }

  /** `!log` takes an optional channel: its usage is `!log [CHANNEL]` and it
      accepts zero or one argument. */
  lemma LogDescribed()
    ensures Describe("!log", TermbinLogHandler, LogSignature, Some(LogDoc)) == LogCommand
  {
    OneOptional("!log", TermbinLogHandler, "channel", Some(LogDoc));
    assert Upper("channel") == "CHANNEL" by {
      var u := Upper("channel");
      assert u[0] == 'C' && u[1] == 'H' && u[2] == 'A' && u[3] == 'N' && u[4] == 'N' && u[5] == 'E' && u[6] == 'L';
    }
    assert "!log" + " " + "[" + "CHANNEL" + "]" == "!log [CHANNEL]";
  }

  /** `!src` takes nothing: its usage is the bare name and it accepts no
      argument. */
  lemma SrcDescribed()
    ensures Describe("!src", TermbinSourceHandler, SrcSignature, Some(SrcDoc)) == SrcCommand
  {
    assert SrcSignature[1..] == [];
    assert Join(["!src"], " ") == "!src";
  }

  /** `!help` takes an optional command name: `!help [COMMAND]`, zero or one
      argument. */
  lemma HelpDescribed()
    ensures Describe("!help", HelpHandler, HelpSignature, Some(HelpDoc)) == HelpCommand
  {
    OneOptional("!help", HelpHandler, "command", Some(HelpDoc));
    assert Upper("command") == "COMMAND" by {
      var u := Upper("command");
      assert u[0] == 'C' && u[1] == 'O' && u[2] == 'M' && u[3] == 'M' && u[4] == 'A' && u[5] == 'N' && u[6] == 'D';
    }
    assert "!help" + " " + "[" + "COMMAND" + "]" == "!help [COMMAND]";
  }

  /** A command whose handler takes the event and one optional parameter. */
  lemma OneOptional(name: string, handler: string, param: string, doc: Option<string>)
    ensures var c := Describe(name, handler, [Param("event", false), Param(param, true)], doc);
      c.usage == name + " " + "[" + Upper(param) + "]" && c.minArgs == 0 && c.maxArgs == 1
  {
    var ps := [Param("event", false), Param(param, true)][1..];
    var word := "[" + Upper(param) + "]";
    assert ps == [Param(param, true)] && ps[..0] == [];
    assert UsageWords(ps) == [word] && RequiredCount(ps) == 0;
    assert [name] + [word] == [name, word];
    JoinTwo(name, word);
    assert name + " " + word == name + " " + "[" + Upper(param) + "]";
  }

  lemma JoinTwo(a: string, b: string)
    ensures Join([a, b], " ") == a + " " + b
  {
    assert [a, b][1..] == [b];
  }

  /** `!log #chan` runs termbin_log on the channel, and `!log` alone runs it
      without one. */
  lemma LogDispatch(channel: string)
    requires channel != [] && NoSpace(channel)
    ensures Dispatch(MainCommands, Join(["!log", channel], " ")) == Ok(Invoke("!log", TermbinLogHandler, [channel]))
    ensures Dispatch(MainCommands, Join(["!log"], " ")) == Ok(Invoke("!log", TermbinLogHandler, []))
  {
    assert NoSpace("!log");
    assert MainCommands["!log"] == LogCommand;
    DispatchTyped(MainCommands, "!log", [channel]);
    DispatchTyped(MainCommands, "!log", []);
    assert ["!log"] + [] == ["!log"];
  }

  /** `!src` with any argument only gets its usage. */
  lemma SrcDispatch(extra: string)
    requires extra != [] && NoSpace(extra)
    ensures Dispatch(MainCommands, Join(["!src", extra], " ")) == Ok(Reply(["Usage:", "!src"]))
  {
    assert NoSpace("!src");
    assert MainCommands["!src"] == SrcCommand;
    TooManyArguments(MainCommands, "!src", [extra]);
  }

  /** `!help log` finds `!log` by ignoring the punctuation. */
  lemma HelpFindsLog()
    ensures Resolve(MainCommands, MainOrder, "log") == Some("!log")
  {
    assert "!log"[1..] == "log";
    assert StripLeft("!log", Punctuation) == "log";
    assert StripRight("log", Punctuation) == "log";
    assert StripLeft("log", Punctuation) == "log";
    assert LooseMatch("!log", "log");
    assert "log" !in MainCommands;
  }

  /** A user's channel message is answered by the command dispatcher and
      then logged, in that order. */
  lemma PrivmsgRunsBoth(nick: string, user: string, host: string, channel: string, text: string)
    requires '!' !in nick && '@' !in user && NoBlank(nick) && NoBlank(user) && NoBlank(host)
    requires NoBlank(channel) && Clean(channel) && Clean(text)
    ensures var line := ":" + nick + "!" + user + "@" + host + " PRIVMSG " + channel + " :" + text;
      var ev := Event(User(nick, user, host), "PRIVMSG", [channel, text], Message(channel, text));
      LineStep(MainHandlers, line) == Ok(Step([], [Spawn(CommandDispatcher, ev), Spawn(PrivmsgHandlerName, ev)]))
  {
    var line := ":" + nick + "!" + user + "@" + host + " PRIVMSG " + channel + " :" + text;
    var ev := Event(User(nick, user, host), "PRIVMSG", [channel, text], Message(channel, text));
    PrivmsgLine(nick, user, host, channel, text);
    assert line[0] == ':';
    FirstCharDiffers(line, "PING");
    PrivmsgDispatched(line, ev);
  }

  /** MainHandlers spawns both PRIVMSG handlers for any parsed PRIVMSG. */
  lemma PrivmsgDispatched(line: string, ev: Event)
    requires ev.command == "PRIVMSG" && !StartsWith(line, "PING") && ParseMessage(line) == Ok(ev)
    ensures LineStep(MainHandlers, line) == Ok(Step([], [Spawn(CommandDispatcher, ev), Spawn(PrivmsgHandlerName, ev)]))
  {
    EventDispatched(MainHandlers, line, ev);
    var hs := HandlersOf(MainHandlers, "PRIVMSG");
    assert hs == [CommandDispatcher, PrivmsgHandlerName];
    var r := LineStep(MainHandlers, line);
    var spawned := [Spawn(CommandDispatcher, ev), Spawn(PrivmsgHandlerName, ev)];
    assert r.value.spawned == spawned by {
      assert |r.value.spawned| == 2;
      assert r.value.spawned[0] == spawned[0] && r.value.spawned[1] == spawned[1];
    }
    assert r == Ok(Step([], spawned));
  }
}
