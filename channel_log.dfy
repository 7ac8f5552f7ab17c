/** The channel logs of main.py: `logs` maps a channel to a deque of at most
    LOG_LEN formatted lines, `log_msg` appends to it (first loading what the
    channel's log file holds), the join/part/quit, kick and privmsg handlers
    choose what line to log where, and `!log` chooses its reply. */
module ChannelLog {
  import opened Outcomes
  import opened Strings
  import opened Wire

  /** `LOG_LEN`: the `maxlen` of every channel's deque. */
  const LogLen: nat := 1000

  // ---------------------------------------------------------------------
  // The bounded deque

  /** The newest LogLen entries of a history, oldest first. */
  function Recent(history: seq<string>): (r: seq<string>)
    ensures |r| <= LogLen && |r| <= |history|
    ensures |r| == |history| || |r| == LogLen
  {
    if |history| <= LogLen then history else history[|history| - LogLen..]
  }

  /** What is kept is the newest part of the history: a suffix of it. */
  lemma RecentIsSuffix(history: seq<string>)
    ensures Recent(history) == history[|history| - |Recent(history)|..]
  {
  }

  /** `deque.append` on a deque with `maxlen=LOG_LEN`: the entry becomes the
      newest one, and the oldest is dropped when the deque is full. */
  function Push(log: seq<string>, entry: string): (r: seq<string>)
    requires |log| <= LogLen
    ensures |r| <= LogLen && |r| > 0 && r[|r| - 1] == entry
    ensures |log| < LogLen ==> r[..|r| - 1] == log
    ensures |log| == LogLen ==> r[..|r| - 1] == log[1..]
  {
    if |log| < LogLen then log + [entry] else log[1..] + [entry]
  }

  /** Appending to a deque that holds the newest entries of a history gives
      the newest entries of the history extended by one: the deque never
      loses a recent entry and never keeps an old one. */
  lemma PushRecent(history: seq<string>, entry: string)
    ensures Push(Recent(history), entry) == Recent(history + [entry])
  {
    var h := history + [entry];
    if |history| >= LogLen {
      var n := |history| - LogLen;
      assert Recent(history) == history[n..];
      assert history[n..][1..] == history[n + 1..];
      assert h[n + 1..] == history[n + 1..] + [entry];
    }
  }

  /** `_format_msg`: the message behind a bracketed timestamp, ending the line.
      The timestamp is the text `time.strftime` gives, taken as an input. */
  function FormatMsg(stamp: string, msg: string): string
  {
    "[" + stamp + "] " + msg + "\n"
  }

  /** A formatted line ends with a newline, and the timestamp and the
      message can be read back from it when the timestamp holds no ']'. */
  lemma FormatMsgReadsBack(stamp: string, msg: string)
    requires ']' !in stamp
    ensures EndsWith(FormatMsg(stamp, msg), "\n")
    ensures SplitOnce(FormatMsg(stamp, msg), "] ") == Some(("[" + stamp, msg + "\n"))
  {
    var line := FormatMsg(stamp, msg);
    var a := "[" + stamp;
    assert line == a + "] " + (msg + "\n");
    forall j: nat | j < |a| ensures !OccursAt(line, "] ", j) {
      assert line[j] == a[j];
      if j > 0 { assert a[j] == stamp[j - 1]; }
      if j + 2 <= |line| { assert line[j..j + 2][0] == line[j]; }
    }
    SplitOnceAt(a, "] ", msg + "\n");
  }

  /** `_log_filename`: `os.path.join('irclogs', channel + '.txt')`; a second
      part that is an absolute path replaces the directory. */
  function LogFilename(channel: string): (path: string)
    ensures EndsWith(path, ".txt")
  {
    var name := channel + ".txt";
    var path := if StartsWith(name, "/") then name else "irclogs/" + name;
    assert path[|path| - 4..] == name[|name| - 4..];
    path
  }

  /** A channel name not starting with '/' is logged under irclogs/. */
  lemma LogFilenameRelative(channel: string)
    requires channel == [] || channel[0] != '/'
    ensures LogFilename(channel) == "irclogs/" + channel + ".txt"
  {
    var name := channel + ".txt";
    assert name[0] != '/';
    assert "irclogs/" + name == "irclogs/" + channel + ".txt";
  }

  /** Different channels never share a log file. */
  lemma LogFilenameInjective(a: string, b: string)
    requires LogFilename(a) == LogFilename(b)
    ensures a == b
  {
    var na, nb := a + ".txt", b + ".txt";
    var dir := "irclogs/";
    var pa, pb := LogFilename(a), LogFilename(b);
    // When only one of them keeps the directory, the paths differ in their
    // first character, 'i' against '/'.
    if StartsWith(na, "/") && StartsWith(nb, "/") {
      assert na == nb;
      assert a == na[..|na| - 4] == nb[..|nb| - 4] == b;
    } else if !StartsWith(na, "/") && !StartsWith(nb, "/") {
      assert pa == dir + na && pb == dir + nb;
      assert na == pa[|dir|..] == pb[|dir|..] == nb;
      assert a == na[..|na| - 4] == nb[..|nb| - 4] == b;
    }
  }

  // ---------------------------------------------------------------------
  // `logs` and `log_msg`

  /** Every channel's deque respects its `maxlen`. */
  predicate Bounded(logs: map<string, seq<string>>)
  {
    forall c :: c in logs ==> |logs[c]| <= LogLen
  }

  /** The deque `log_msg` appends to: the existing one, or a new one loaded
      from the lines of the channel's log file (`saved`, empty when there is
      no such file). */
  function Prior(logs: map<string, seq<string>>, channel: string, saved: seq<string>): (r: seq<string>)
    requires Bounded(logs)
    ensures |r| <= LogLen
  {
    if channel in logs then logs[channel] else Recent(saved)
  }

  /** `logs` after `log_msg(channel, msg)` at time `stamp`. */
  function Logged(logs: map<string, seq<string>>, channel: string, msg: string, stamp: string, saved: seq<string>): map<string, seq<string>>
    requires Bounded(logs)
  {
    logs[channel := Push(Prior(logs, channel, saved), FormatMsg(stamp, msg))]
  }

  /** `log_msg` keeps every deque within LOG_LEN, adds the channel if it was
      new, makes the formatted message the channel's newest entry after the
      ones it already had (the oldest dropped when full), and leaves every
      other channel's log as it was. */
  lemma LoggedSpec(logs: map<string, seq<string>>, channel: string, msg: string, stamp: string, saved: seq<string>)
    requires Bounded(logs)
    ensures var after := Logged(logs, channel, msg, stamp, saved);
      && Bounded(after)
      && after.Keys == logs.Keys + {channel}
      && (forall c :: c in logs && c != channel ==> after[c] == logs[c])
      && after[channel] == Recent(Prior(logs, channel, saved) + [FormatMsg(stamp, msg)])
      && after[channel][|after[channel]| - 1] == FormatMsg(stamp, msg)
  {
    var prior := Prior(logs, channel, saved);
    assert Recent(prior) == prior;
    PushRecent(prior, FormatMsg(stamp, msg));
  }

  /** The first message of a channel lands after the newest lines of its log
      file: the deque is the last LOG_LEN lines of the file followed by it. */
  lemma FirstMessageAfterFile(logs: map<string, seq<string>>, channel: string, msg: string, stamp: string, saved: seq<string>)
    requires Bounded(logs) && channel !in logs
    ensures Logged(logs, channel, msg, stamp, saved)[channel] == Recent(saved + [FormatMsg(stamp, msg)])
  {
    PushRecent(saved, FormatMsg(stamp, msg));
  }

  /** A new deque filled with the lines of a log file, appended one by one:
      it holds the file's last LOG_LEN lines. */
  method Load(saved: seq<string>) returns (log: seq<string>)
    ensures log == Recent(saved)
  {
    log := [];
    var i := 0;
    while i < |saved|
      invariant 0 <= i <= |saved|
      invariant log == Recent(saved[..i])
    {
      PushRecent(saved[..i], saved[i]);
      assert saved[..i + 1] == saved[..i] + [saved[i]];
      log := Push(log, saved[i]);
      i := i + 1;
    }
    assert saved[..i] == saved;
  }

  /** The logs of all channels. */
  class ChannelLogs {
    /** `logs`: channel to its deque, oldest entry first. */
    var logs: map<string, seq<string>>

    ghost predicate Valid()
      reads this
    {
      Bounded(logs)
    }

    /** Nothing is logged when main.py is imported. */
    constructor ()
      ensures Valid() && logs == map[]
    {
      logs := map[];
    }

    /** `log_msg(channel, msg)`: on first use of the channel, load its log
        file line by line into a new deque; then append the formatted
        message. */
    method LogMsg(channel: string, msg: string, stamp: string, saved: seq<string>)
      requires Valid()
      modifies this
      ensures Valid()
      ensures logs == Logged(old(logs), channel, msg, stamp, saved)
    {
      var log: seq<string>;
      if channel in logs {
        log := logs[channel];
      } else {
        log := Load(saved);
      }
      assert log == Prior(logs, channel, saved);
      log := Push(log, FormatMsg(stamp, msg));
      logs := logs[channel := log];
      LoggedSpec(old(logs), channel, msg, stamp, saved);
    }

    /** `info_handler` (JOIN, PART, QUIT). */
    method InfoHandler(e: Event, stamp: string, saved: seq<string>) returns (failure: Option<HandlerFailure>)
      requires Valid() && e.fields.Target?
      modifies this
      ensures Valid()
      ensures match InfoEntry(e)
        case Err(f) => failure == Some(f) && logs == old(logs)
        case Ok((channel, msg)) => failure == None && logs == Logged(old(logs), channel, msg, stamp, saved)
    {
      match e.sender
      case Server(_) =>
        return Some(NoNick);
      case User(nick, _, _) =>
        LogMsg(e.fields.target, "* " + nick + " " + Lower(e.command) + "s", stamp, saved);
        return None;
    }

    /** `kick_handler`. */
    method KickHandler(e: Event, stamp: string, saved: seq<string>) returns (failure: Option<HandlerFailure>)
      requires Valid() && e.fields.Kick?
      modifies this
      ensures Valid()
      ensures match KickEntry(e)
        case Err(f) => failure == Some(f) && logs == old(logs)
        case Ok((channel, msg)) => failure == None && logs == Logged(old(logs), channel, msg, stamp, saved)
    {
      match e.sender
      case Server(_) =>
        return Some(NoNick);
      case User(nick, _, _) =>
        var msg := nick + " " + Lower(e.command) + "s " + e.fields.target + " (reason: " + e.fields.reason + ")";
        LogMsg(e.fields.channel, msg, stamp, saved);
        return None;
    }

    /** `privmsg_handler`. */
    method PrivmsgHandler(e: Event, stamp: string, saved: seq<string>) returns (failure: Option<HandlerFailure>)
      requires Valid() && e.fields.Message?
      modifies this
      ensures Valid()
      ensures match PrivmsgEntry(e)
        case Err(f) => failure == Some(f) && logs == old(logs)
        case Ok((channel, msg)) => failure == None && logs == Logged(old(logs), channel, msg, stamp, saved)
    {
      match e.sender
      case Server(_) =>
        return Some(NoNick);
      case User(nick, _, _) =>
        LogMsg(e.fields.target, "<" + nick + "> " + e.fields.message, stamp, saved);
        return None;
    }
  }

  // ---------------------------------------------------------------------
  // What the handlers log, and where

  /** `event.sender['nick']` raises KeyError for a line from a server. */
  datatype HandlerFailure = NoNick

  /** The channel and the message `info_handler` logs. */
  function InfoEntry(e: Event): Result<(string, string), HandlerFailure>
    requires e.fields.Target?
  {
    match e.sender
    case Server(_) => Err(NoNick)
    case User(nick, _, _) => Ok((e.fields.target, "* " + nick + " " + Lower(e.command) + "s"))
  }

  /** The channel and the message `kick_handler` logs. */
  function KickEntry(e: Event): Result<(string, string), HandlerFailure>
    requires e.fields.Kick?
  {
    match e.sender
    case Server(_) => Err(NoNick)
    case User(nick, _, _) =>
      Ok((e.fields.channel, nick + " " + Lower(e.command) + "s " + e.fields.target + " (reason: " + e.fields.reason + ")"))
  }

  /** The channel and the message `privmsg_handler` logs. */
  function PrivmsgEntry(e: Event): Result<(string, string), HandlerFailure>
    requires e.fields.Message?
  {
    match e.sender
    case Server(_) => Err(NoNick)
    case User(nick, _, _) => Ok((e.fields.target, "<" + nick + "> " + e.fields.message))
  }

  lemma LowerJoin() ensures Lower("JOIN") == "join" { }
  lemma LowerPart() ensures Lower("PART") == "part" { }
  lemma LowerQuit() ensures Lower("QUIT") == "quit" { }
  lemma LowerKick() ensures Lower("KICK") == "kick" { }

  /** A user's JOIN, PART or QUIT line, as the parser reads it, is logged
      under its only parameter, as `* nick joins`, `* nick parts` or
      `* nick quits`. That parameter keeps a leading ':' if the line has one:
      `QUIT :Leaving` is logged under ":Leaving". */
  lemma InfoLogsVerb(nick: string, user: string, host: string, command: string, param: string)
    requires '!' !in nick && '@' !in user && NoBlank(nick) && NoBlank(user) && NoBlank(host)
    requires command in TargetCommands
    requires NoBlank(param) && Clean(param)
    ensures var s := User(nick, user, host);
      var r := ParseMessage(RenderLine(s, command, [param], None));
      && r.Ok? && r.value.fields == Target(param)
      && InfoEntry(r.value) == Ok((param, "* " + nick + " " + Lower(command) + "s"))
      && Lower(command) in {"join", "part", "quit"}
  {
    var s := User(nick, user, host);
    assert NoBlank(command) by {
      assert command == "JOIN" || command == "PART" || command == "QUIT";
    }
    ParseRendered(s, command, [param], None);
    assert ParamsOf([param], None) == [param];
    LowerJoin();
    LowerPart();
    LowerQuit();
  }

  /** A user's `QUIT :reason` is logged under ":reason": the quit message is
      the only parameter, and info_handler takes it as the target. */
  lemma QuitLoggedUnderMessage(nick: string, user: string, host: string, reason: string)
    requires '!' !in nick && '@' !in user && NoBlank(nick) && NoBlank(user) && NoBlank(host)
    requires NoBlank(reason) && Clean(reason)
    ensures var r := ParseMessage(":" + nick + "!" + user + "@" + host + " QUIT :" + reason);
      && r.Ok? && r.value.fields.Target?
      && InfoEntry(r.value) == Ok((":" + reason, "* " + nick + " quits"))
  {
    var s := User(nick, user, host);
    var param := ":" + reason;
    ColonParam(reason);
    QuitRendered(s, reason);
    InfoLogsVerb(nick, user, host, "QUIT", param);
    QuitsText(nick);
  }

  lemma QuitsText(nick: string)
    ensures "* " + nick + " " + Lower("QUIT") + "s" == "* " + nick + " quits"
  {
    LowerQuit();
    var a := "* " + nick;
    assert " " + "quit" + "s" == " quits";
    assert a + " " + "quit" + "s" == a + (" " + "quit" + "s");
  }

  lemma ColonParam(reason: string)
    requires NoBlank(reason) && Clean(reason)
    ensures NoBlank(":" + reason) && Clean(":" + reason)
  {
    var param := ":" + reason;
    forall k | 0 <= k < |param| ensures param[k] != ' ' && param[k] !in LineEnd {
      if k > 0 { assert param[k] == reason[k - 1]; }
    }
  }

  lemma QuitRendered(s: Sender, reason: string)
    requires s.User?
    ensures RenderLine(s, "QUIT", [":" + reason], None) == ":" + s.nick + "!" + s.user + "@" + s.hostname + " QUIT :" + reason
  {
    var p := RenderSender(s);
    assert RenderParams([":" + reason], None) == ":" + reason;
    assert p + " " + "QUIT" + " " + (":" + reason) == p + " QUIT :" + reason;
  }

  /** A user's channel message is logged under the channel as `<nick> text`. */
  lemma PrivmsgLogsText(nick: string, user: string, host: string, channel: string, text: string)
    requires '!' !in nick && '@' !in user && NoBlank(nick) && NoBlank(user) && NoBlank(host)
    requires NoBlank(channel) && Clean(channel) && Clean(text)
    ensures var r := ParseMessage(":" + nick + "!" + user + "@" + host + " PRIVMSG " + channel + " :" + text);
      r.Ok? && r.value.fields.Message? && PrivmsgEntry(r.value) == Ok((channel, "<" + nick + "> " + text))
  {
    PrivmsgLine(nick, user, host, channel, text);
  }

  /** A kick is logged under the channel, naming the kicker, the kicked
      user and the reason. */
  lemma KickLogsReason(nick: string, user: string, host: string, channel: string, target: string, reason: string)
    ensures KickEntry(Event(User(nick, user, host), "KICK", [channel, target, reason], Kick(channel, target, reason)))
      == Ok((channel, nick + " kicks " + target + " (reason: " + reason + ")"))
  {
    LowerKick();
    assert nick + " " + "kick" + "s " == nick + " kicks ";
  }

  /** No handler logs anything for a server's line. */
  lemma ServerLinesNotLogged(e: Event)
    requires e.sender.Server?
    ensures e.fields.Target? ==> InfoEntry(e) == Err(NoNick)
    ensures e.fields.Kick? ==> KickEntry(e) == Err(NoNick)
    ensures e.fields.Message? ==> PrivmsgEntry(e) == Err(NoNick)
  {
  }

  // ---------------------------------------------------------------------
  // `!log`

  /** What `termbin_log` replies: a paste of the channel's log lines (the
      reply is the paste's URL), or a text saying there is nothing to paste. */
  datatype LogReply = Paste(lines: seq<string>) | Say(text: string)

  /** The hint `termbin_log` adds when no channel was given. */
  const LogHint: string := " You can use '!log CHANNEL' to get logs from a specific channel."

  /** `termbin_log(event, channel=None)`: without an argument the channel is
      the message's target; an empty or missing log is never pasted. */
  function TermbinLog(logs: map<string, seq<string>>, e: Event, channel: Option<string>): (r: LogReply)
    requires e.fields.Message?
    ensures var ch := if channel.Some? then channel.value else e.fields.target;
      && (r.Paste? <==> ch in logs && logs[ch] != [])
      && (r.Paste? ==> r.lines == logs[ch])
      && (r.Say? ==> StartsWith(r.text, "Nothing is logged from " + ch + " yet!"))
  {
    var ch := if channel.Some? then channel.value else e.fields.target;
    var lines := if ch in logs then logs[ch] else [];
    if lines != [] then Paste(lines)
    else
      var msg := "Nothing is logged from " + ch + " yet!";
      var r := if channel.None? then msg + LogHint else msg;
      assert r[..|msg|] == msg;
      Say(r)
  }

  /** The hint is there exactly when no channel was given. */
  lemma TermbinHint(logs: map<string, seq<string>>, e: Event, channel: Option<string>)
    requires e.fields.Message?
    requires TermbinLog(logs, e, channel).Say?
    ensures var ch := if channel.Some? then channel.value else e.fields.target;
      var text := TermbinLog(logs, e, channel).text;
      && (EndsWith(text, LogHint) <==> channel.None?)
      && (channel.Some? ==> text == "Nothing is logged from " + ch + " yet!")
  {
    var ch := if channel.Some? then channel.value else e.fields.target;
    var text := TermbinLog(logs, e, channel).text;
    var msg := "Nothing is logged from " + ch + " yet!";
    if channel.None? {
      assert text == msg + LogHint;
      assert text[|text| - |LogHint|..] == LogHint;
    } else {
      assert text == msg;
      // The message ends with '!' and the hint with '.'.
      assert text[|text| - 1] == '!' && LogHint[|LogHint| - 1] == '.';
      assert !EndsWith(text, LogHint) by {
        if |LogHint| <= |text| {
          assert text[|text| - |LogHint|..][|LogHint| - 1] == text[|text| - 1];
        }
      }
    }
  }

  /** Once a message is logged in a channel, `!log CHANNEL` pastes that
      channel's deque, whose newest line is the message. */
  lemma LoggedThenPasted(logs: map<string, seq<string>>, channel: string, msg: string, stamp: string, saved: seq<string>, e: Event)
    requires Bounded(logs) && e.fields.Message?
    ensures var after := Logged(logs, channel, msg, stamp, saved);
      var r := TermbinLog(after, e, Some(channel));
      r.Paste? && r.lines == after[channel] && r.lines[|r.lines| - 1] == FormatMsg(stamp, msg)
  {
    LoggedSpec(logs, channel, msg, stamp, saved);
  }
}
