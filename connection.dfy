/** The connection side of bot.py's `IrcBot`: framing outgoing lines
    (`_send`), answering an event (`reply`), the registration handshake and
    the wait for the end of the message of the day (`connect`), and the
    receive loop that answers PINGs and hands events to their handlers
    (`mainloop`). The socket is two sequences: the lines the server sends and
    the lines written to it. */
module Connection {
  import opened Outcomes
  import opened Strings
  import opened Wire
  import opened Registry

  const CRLF: string := "\r\n"

  /** The numeric reply that ends the message of the day. */
  const EndOfMotdCode: string := "376"

  // ---------------------------------------------------------------------
  // `_send`

  /** The line `_send(*fields)` writes: the fields joined by single spaces,
      with "\r\n" appended unless the result already ends with it. */
  function Frame(fields: seq<string>): (line: string)
    ensures EndsWith(line, CRLF)
  {
    Terminated(Join(fields, " "))
  }

  /** A string ending in "\r\n": itself if it already does, else with one appended. */
  function Terminated(s: string): (line: string)
    ensures EndsWith(line, CRLF)
    ensures EndsWith(s, CRLF) ==> line == s
    ensures !EndsWith(s, CRLF) ==> line == s + CRLF
  {
    if EndsWith(s, CRLF) then s else s + CRLF
  }

  /** Framing a framed line again changes nothing. */
  lemma FrameIdempotent(fields: seq<string>)
    ensures Frame([Frame(fields)]) == Frame(fields)
  {
  }

  /** Fields without line breaks go out as exactly one line: their join
      followed by a single "\r\n", and no line break before it. */
  lemma FrameOneLine(fields: seq<string>)
    requires forall k :: 0 <= k < |fields| ==> Clean(fields[k])
    ensures Frame(fields) == Join(fields, " ") + CRLF
    ensures Clean(Frame(fields)[..|Frame(fields)| - 2])
  {
    JoinAvoids(fields, " ", LineEnd);
    var joined := Join(fields, " ");
    if |joined| >= 2 {
      assert joined[|joined| - 2..][1] == joined[|joined| - 1];
    }
    assert Frame(fields)[..|Frame(fields)| - 2] == joined;
  }

  // ---------------------------------------------------------------------
  // `reply`

  /** Why `reply` raises: an event without parameters, or a private message
      (addressed to the bot's nick) from a server, which has no nick. */
  datatype ReplyFailure = IndexError | KeyError

  /** Where `reply` sends its answer: the event's first parameter, unless that
      is the bot's own nick, in which case the sender's nick. */
  function ReplyTarget(nick: string, e: Event): Result<string, ReplyFailure>
  {
    if e.params == [] then Err(IndexError)
    else if e.params[0] != nick then Ok(e.params[0])
    else if e.sender.User? then Ok(e.sender.nick)
    else Err(KeyError)
  }

  /** The line `reply(event, *data)` writes. */
  function ReplyLine(target: string, data: seq<string>): string
  {
    Frame(["PRIVMSG", target, ":" + Join(data, " ")])
  }

  /** Answering a chat line: a message to a channel is answered in the
      channel, a private message to the bot is answered to its sender. */
  lemma ReplyGoesBack(me: string, nick: string, user: string, host: string, target: string, text: string)
    requires '!' !in nick && '@' !in user && NoBlank(nick) && NoBlank(user) && NoBlank(host)
    requires NoBlank(target) && Clean(target) && Clean(text)
    ensures var e := ParseMessage(":" + nick + "!" + user + "@" + host + " PRIVMSG " + target + " :" + text);
      && e.Ok?
      && ReplyTarget(me, e.value) == Ok(if target == me then nick else target)
  {
    PrivmsgLine(nick, user, host, target, text);
  }

  /** The reply of words without line breaks is one PRIVMSG line whose
      trailing parameter is the words joined by spaces. */
  lemma ReplyLineText(target: string, data: seq<string>)
    requires Clean(target)
    requires forall k :: 0 <= k < |data| ==> Clean(data[k])
    ensures ReplyLine(target, data) == "PRIVMSG" + " " + target + " :" + Join(data, " ") + CRLF
  {
    var text := Join(data, " ");
    var fields := ["PRIVMSG", target, ":" + text];
    assert Join(fields, " ") == "PRIVMSG" + " " + target + " :" + text by {
      JoinThree("PRIVMSG", target, ":" + text, " ");
      Regroup("PRIVMSG" + " " + target, text);
    }
    CleanTrailing(data);
    CleanCommand();
    FrameThree("PRIVMSG", target, ":" + text);
  }

  lemma FrameThree(a: string, b: string, c: string)
    requires Clean(a) && Clean(b) && Clean(c)
    ensures Frame([a, b, c]) == Join([a, b, c], " ") + CRLF
  {
    var fields := [a, b, c];
    assert forall k :: 0 <= k < |fields| ==> fields[k] == a || fields[k] == b || fields[k] == c;
    FrameOneLine(fields);
  }

  /** The trailing parameter of a reply holds no line break. */
  lemma CleanTrailing(data: seq<string>)
    requires forall k :: 0 <= k < |data| ==> Clean(data[k])
    ensures Clean(":" + Join(data, " "))
  {
    var text := Join(data, " ");
    JoinAvoids(data, " ", LineEnd);
    forall k | 0 <= k < |":" + text| ensures (":" + text)[k] !in LineEnd {
      if k > 0 { assert (":" + text)[k] == text[k - 1]; }
    }
  }

  lemma Regroup(x: string, t: string)
    ensures x + " " + (":" + t) == x + " :" + t
  {
    assert " " + (":" + t) == " :" + t;
    assert x + " " + (":" + t) == x + (" " + (":" + t));
    assert x + " :" + t == x + (" :" + t);
  }

  lemma JoinThree(a: string, b: string, c: string, sep: string)
    ensures Join([a, b, c], sep) == a + sep + b + sep + c
  {
    assert [a, b, c][1..] == [b, c];
    assert [b, c][1..] == [c];
    assert Join([c], sep) == c;
    assert Join([b, c], sep) == b + sep + c;
    assert Join([a, b, c], sep) == a + sep + (b + sep + c);
  }

  lemma CleanCommand()
    ensures Clean("PRIVMSG")
  {
  }

  /** The reply, as the server relays it with the bot's prefix, is the
      rendering of a PRIVMSG to the target whose trailing parameter is the
      reply words joined by spaces, and it parses back to exactly that. */
  lemma ReplyReadsBack(bot: Sender, target: string, data: seq<string>)
    requires WellFormedSender(bot)
    requires NoBlank(target) && Clean(target)
    requires forall k :: 0 <= k < |data| ==> Clean(data[k])
    ensures var line := ReplyLine(target, data);
      var text := Join(data, " ");
      && EndsWith(line, CRLF)
      && RenderSender(bot) + " " + line[..|line| - 2] == RenderLine(bot, "PRIVMSG", [target], Some(text))
      && ParseMessage(RenderLine(bot, "PRIVMSG", [target], Some(text)))
           == Ok(Event(bot, "PRIVMSG", [target, text], Message(target, text)))
  {
    RelayedText(bot, target, data);
    JoinAvoids(data, " ", LineEnd);
    RelayedReply(bot, target, Join(data, " "));
  }

  lemma RelayedText(bot: Sender, target: string, data: seq<string>)
    requires Clean(target)
    requires forall k :: 0 <= k < |data| ==> Clean(data[k])
    ensures var line := ReplyLine(target, data);
      RenderSender(bot) + " " + line[..|line| - 2] == RenderLine(bot, "PRIVMSG", [target], Some(Join(data, " ")))
  {
    var text := Join(data, " ");
    var line := ReplyLine(target, data);
    var body := "PRIVMSG" + " " + target + " :" + text;
    ReplyLineText(target, data);
    DropEnd(body, CRLF);
    assert RenderParams([target], Some(text)) == target + " :" + text;
    Regroup6(RenderSender(bot), " ", "PRIVMSG", target, " :", text);
  }

  lemma DropEnd(s: string, t: string)
    ensures (s + t)[..|s + t| - |t|] == s
  {
    assert |s + t| - |t| == |s|;
  }

  lemma Regroup6(p: string, sp: string, c: string, t: string, k: string, x: string)
    ensures p + sp + (c + sp + t + k + x) == p + sp + c + sp + (t + k + x)
  {
  }

  lemma RelayedReply(bot: Sender, target: string, text: string)
    requires WellFormedSender(bot)
    requires NoBlank(target) && Clean(target)
    requires Clean(text)
    ensures ParseMessage(RenderLine(bot, "PRIVMSG", [target], Some(text)))
      == Ok(Event(bot, "PRIVMSG", [target, text], Message(target, text)))
  {
    assert NoBlank("PRIVMSG");
    assert Middles([target]);
    ParseRendered(bot, "PRIVMSG", [target], Some(text));
    assert ParamsOf([target], Some(text)) == [target, text];
  }

  // ---------------------------------------------------------------------
  // `connect`

  /** The two lines that register the bot with the server. */
  function Handshake(nick: string): seq<string>
  {
    [Frame(["NICK", nick]), Frame(["USER", nick, "0", "*", ":" + nick])]
  }

  /** One JOIN line per channel, in order. */
  function Joins(channels: seq<string>): (r: seq<string>)
    ensures |r| == |channels|
    ensures forall k :: 0 <= k < |channels| ==> r[k] == Frame(["JOIN", channels[k]])
  {
    if channels == [] then [] else Joins(channels[..|channels| - 1]) + [Frame(["JOIN", channels[|channels| - 1]])]
  }

  /** How the wait for the end of the message of the day ends, with the lines
      still unread. */
  datatype Motd =
    | EndOfMotd(rest: seq<string>)               // a 376 line arrived
    | StreamClosed                               // the server sent nothing more
    | MotdCrash(error: ParseError, rest: seq<string>)  // `_parse_message` raised

  /** A line the server sends before the end of the MOTD: it parses and is not 376. */
  predicate Notice(line: string)
  {
    ParseMessage(line).Ok? && ParseMessage(line).value.command != EndOfMotdCode
  }

  predicate EndsMotd(line: string)
  {
    ParseMessage(line).Ok? && ParseMessage(line).value.command == EndOfMotdCode
  }

  /** Reading lines until one parses as a 376 reply. */
  function MotdScan(lines: seq<string>): Motd
  {
    if lines == [] then StreamClosed
    else match ParseMessage(lines[0])
      case Err(e) => MotdCrash(e, lines[1..])
      case Ok(ev) => if ev.command == EndOfMotdCode then EndOfMotd(lines[1..]) else MotdScan(lines[1..])
  }

  /** The wait ends at the first line that is not a notice: the end-of-MOTD
      reply ends it normally, a line that fails to parse ends it with that
      error, and in both cases the lines after it are left unread. */
  lemma MotdScanAt(lines: seq<string>, k: nat)
    requires k < |lines| && !Notice(lines[k])
    requires forall j :: 0 <= j < k ==> Notice(lines[j])
    ensures MotdScan(lines) == MotdStop(lines[k], lines[k + 1..])
  {
    MotdPrefix(lines, k);
    var t := lines[k..];
    assert t[0] == lines[k] && t[1..] == lines[k + 1..];
    MotdStopsAtHead(t);
  }

  /** Notices at the head of the stream are skipped one by one. */
  lemma {:induction false} MotdPrefix(lines: seq<string>, k: nat)
    requires k <= |lines|
    requires forall j :: 0 <= j < k ==> Notice(lines[j])
    ensures MotdScan(lines) == MotdScan(lines[k..])
  {
    if k > 0 {
      MotdPrefix(lines, k - 1);
      var t := lines[k - 1..];
      assert t[0] == lines[k - 1] && t[1..] == lines[k..];
      MotdSkipsNotice(t);
    }
  }

  /** How the wait ends on a line that is not a notice. */
  function MotdStop(line: string, rest: seq<string>): Motd
  {
    match ParseMessage(line)
    case Err(e) => MotdCrash(e, rest)
    case Ok(_) => EndOfMotd(rest)
  }

  lemma MotdStopsAtHead(lines: seq<string>)
    requires lines != [] && !Notice(lines[0])
    ensures MotdScan(lines) == MotdStop(lines[0], lines[1..])
  {
  }

  lemma MotdSkipsNotice(lines: seq<string>)
    requires lines != [] && Notice(lines[0])
    ensures MotdScan(lines) == MotdScan(lines[1..])
  {
  }

  /** The stream closes during the wait exactly when every line is a notice. */
  lemma {:induction false} MotdScanClosed(lines: seq<string>)
    ensures MotdScan(lines).StreamClosed? <==> forall j :: 0 <= j < |lines| ==> Notice(lines[j])
  {
    if lines != [] && Notice(lines[0]) {
      var tail := lines[1..];
      MotdScanClosed(tail);
      assert forall j :: 0 <= j < |tail| ==> tail[j] == lines[j + 1];
      if forall j :: 0 <= j < |tail| ==> Notice(tail[j]) {
        forall j | 0 <= j < |lines| ensures Notice(lines[j]) {
          if j > 0 { assert lines[j] == tail[j - 1]; }
        }
      }
    }
  }

  /** A PING is not answered during the wait: it has only two space-separated
      parts, so the parser raises and the connection attempt ends there,
      leaving the lines after it unread. */
  lemma PingDuringMotd(token: string, rest: seq<string>)
    requires NoBlank(token)
    requires token == [] || token[|token| - 1] !in LineEnd
    ensures MotdScan(["PING :" + token + CRLF] + rest) == MotdCrash(TooFewParts(2), rest)
  {
    var line := "PING :" + token;
    var lines := [line + CRLF] + rest;
    assert lines[0] == line + CRLF && lines[1..] == rest;
    StripCRLF(line);
    assert line == "PING" + [' '] + (":" + token);
    SplitOnceChar("PING", ' ', ":" + token);
    NoChar(":" + token, ' ');
    assert ParseMessage(line + CRLF) == Err(TooFewParts(2));
  }

  /** `strip("\r\n")` removes a trailing "\r\n" from a line whose ends are
      not line breaks. */
  lemma StripCRLF(line: string)
    requires line != [] && line[0] !in LineEnd && line[|line| - 1] !in LineEnd
    ensures Strip(line + CRLF, LineEnd) == line
  {
    var s := line + CRLF;
    var t := line + "\r";
    assert s[0] == line[0];
    assert StripLeft(s, LineEnd) == s;
    assert s[..|s| - 1] == t && s[|s| - 1] == '\n';
    assert StripRight(s, LineEnd) == StripRight(t, LineEnd);
    assert t[..|t| - 1] == line && t[|t| - 1] == '\r';
    assert StripRight(t, LineEnd) == StripRight(line, LineEnd);
  }

  lemma AppendTwo<T>(s: seq<T>, a: T, b: T)
    ensures s + [a] + [b] == s + [a, b]
  {
  }

  // ---------------------------------------------------------------------
  // `mainloop`

  /** `curio.spawn(callback(event))`: the handler, by name, and its event. */
  datatype Spawn = Spawn(handler: string, event: Event)

  /** One task per handler, in registration order. */
  function Spawns(handlers: seq<string>, ev: Event): (r: seq<Spawn>)
    ensures |r| == |handlers|
    ensures forall k :: 0 <= k < |handlers| ==> r[k] == Spawn(handlers[k], ev)
  {
    if handlers == [] then [] else Spawns(handlers[..|handlers| - 1], ev) + [Spawn(handlers[|handlers| - 1], ev)]
  }

  /** Starts one task per handler, in the order given. */
  method SpawnAll(hs: seq<string>, ev: Event) returns (tasks: seq<Spawn>)
    ensures tasks == Spawns(hs, ev)
  {
    tasks := [];
    var k := 0;
    while k < |hs|
      invariant 0 <= k <= |hs|
      invariant tasks == Spawns(hs[..k], ev)
    {
      assert hs[..k + 1][..k] == hs[..k];
      tasks := tasks + [Spawn(hs[k], ev)];
      k := k + 1;
    }
    assert hs[..k] == hs;
  }

  /** What one received line causes: lines written back and tasks spawned. */
  datatype Step = Step(out: seq<string>, spawned: seq<Spawn>)

  /** One iteration of the receive loop: a line starting with "PING" is
      echoed with its first "PING" turned into "PONG"; any other line is
      parsed and handed to every handler of its command. */
  function LineStep(handlers: map<string, seq<string>>, line: string): Result<Step, ParseError>
  {
    if StartsWith(line, "PING") then Ok(Step([Frame([ReplaceFirst(line, "PING", "PONG")])], []))
    else match ParseMessage(line)
      case Err(e) => Err(e)
      case Ok(ev) => Ok(Step([], Spawns(HandlersOf(handlers, ev.command), ev)))
  }

  /** The receive loop over some lines: everything written and spawned, and,
      if a line failed to parse, the error and the lines left unread. */
  datatype Trace = Trace(out: seq<string>, spawned: seq<Spawn>, crash: Option<ParseError>, rest: seq<string>)

  /** What each line causes on its own. */
  function Steps(handlers: map<string, seq<string>>, lines: seq<string>): (r: seq<Result<Step, ParseError>>)
  {
    seq(|lines|, k requires 0 <= k < |lines| => LineStep(handlers, lines[k]))
  }

  /** The receive loop's skeleton over the per-line outcomes: effects
      accumulate in arrival order and the first failing line ends the loop. */
  function Fold(steps: seq<Result<Step, ParseError>>, lines: seq<string>): (t: Trace)
    requires |steps| == |lines|
    ensures t.crash.None? ==> t.rest == []
  {
    if lines == [] then Trace([], [], None, [])
    else match steps[0]
      case Err(e) => Trace([], [], Some(e), lines[1..])
      case Ok(s) =>
        var t := Fold(steps[1..], lines[1..]);
        Trace(s.out + t.out, s.spawned + t.spawned, t.crash, t.rest)
  }

  /** The effects of earlier lines followed by those of the rest. */
  function After(out: seq<string>, spawned: seq<Spawn>, t: Trace): Trace
  {
    Trace(out + t.out, spawned + t.spawned, t.crash, t.rest)
  }

  lemma AfterAfter(out: seq<string>, spawned: seq<Spawn>, s: Step, t: Trace)
    ensures After(out, spawned, After(s.out, s.spawned, t)) == After(out + s.out, spawned + s.spawned, t)
  {
    assert out + (s.out + t.out) == (out + s.out) + t.out;
    assert spawned + (s.spawned + t.spawned) == (spawned + s.spawned) + t.spawned;
  }

  lemma AfterNothing(t: Trace)
    ensures After([], [], t) == t
    ensures After(t.out, t.spawned, Trace([], [], None, [])) == Trace(t.out, t.spawned, None, [])
  {
    assert [] + t.out == t.out && t.out + [] == t.out;
    assert [] + t.spawned == t.spawned && t.spawned + [] == t.spawned;
  }

  /** One turn of the loop, after earlier effects: a failing line ends the
      trace there, any other line's effects join the earlier ones. */
  lemma ServeTurn(handlers: map<string, seq<string>>, lines: seq<string>, out: seq<string>, spawned: seq<Spawn>)
    requires lines != []
    ensures match LineStep(handlers, lines[0])
      case Err(e) => After(out, spawned, Serve(handlers, lines)) == Trace(out, spawned, Some(e), lines[1..])
      case Ok(s) => After(out, spawned, Serve(handlers, lines)) == After(out + s.out, spawned + s.spawned, Serve(handlers, lines[1..]))
  {
    ServeStep(handlers, lines);
    match LineStep(handlers, lines[0])
    case Err(e) =>
      assert out + [] == out && spawned + [] == spawned;
    case Ok(s) =>
      AfterAfter(out, spawned, s, Serve(handlers, lines[1..]));
  }

  /** `mainloop` over the lines it reads. */
  function Serve(handlers: map<string, seq<string>>, lines: seq<string>): Trace
  {
    Fold(Steps(handlers, lines), lines)
  }

  /** One turn of the loop: the first line's step, then the rest. */
  lemma ServeStep(handlers: map<string, seq<string>>, lines: seq<string>)
    requires lines != []
    ensures Serve(handlers, lines) ==
      match LineStep(handlers, lines[0])
      case Err(e) => Trace([], [], Some(e), lines[1..])
      case Ok(s) =>
        var t := Serve(handlers, lines[1..]);
        Trace(s.out + t.out, s.spawned + t.spawned, t.crash, t.rest)
  {
    assert Steps(handlers, lines)[1..] == Steps(handlers, lines[1..]);
  }

  /** Folding lines a followed by lines b: if a crashes, b is never read;
      otherwise the effects of b follow those of a. */
  lemma {:induction false} FoldAppend(sa: seq<Result<Step, ParseError>>, a: seq<string>, sb: seq<Result<Step, ParseError>>, b: seq<string>)
    requires |sa| == |a| && |sb| == |b|
    ensures var ta := Fold(sa, a);
      Fold(sa + sb, a + b) ==
        if ta.crash.Some? then Trace(ta.out, ta.spawned, ta.crash, ta.rest + b)
        else var tb := Fold(sb, b); Trace(ta.out + tb.out, ta.spawned + tb.spawned, tb.crash, tb.rest)
    decreases |a|, 1
  {
    if a != [] {
      FoldAppendCons(sa, a, sb, b);
    } else {
      assert a + b == b;
      assert sa + sb == sb;
    }
  }

  /** FoldAppend when a holds at least one line: that line's step, then the rest of a. */
  lemma {:induction false} FoldAppendCons(sa: seq<Result<Step, ParseError>>, a: seq<string>, sb: seq<Result<Step, ParseError>>, b: seq<string>)
    requires |sa| == |a| && |sb| == |b| && a != []
    ensures var ta := Fold(sa, a);
      Fold(sa + sb, a + b) ==
        if ta.crash.Some? then Trace(ta.out, ta.spawned, ta.crash, ta.rest + b)
        else var tb := Fold(sb, b); Trace(ta.out + tb.out, ta.spawned + tb.spawned, tb.crash, tb.rest)
    decreases |a|, 0
  {
    assert (sa + sb)[0] == sa[0];
    assert (a + b)[1..] == a[1..] + b;
    assert (sa + sb)[1..] == sa[1..] + sb;
    match sa[0]
    case Err(e) =>
    case Ok(s) =>
      FoldAppend(sa[1..], a[1..], sb, b);
      var t := Fold(sa[1..], a[1..]);
      var tb := Fold(sb, b);
      if t.crash.None? {
        assert s.out + (t.out + tb.out) == (s.out + t.out) + tb.out;
        assert s.spawned + (t.spawned + tb.spawned) == (s.spawned + t.spawned) + tb.spawned;
      }
  }

  /** The loop over lines a followed by lines b: if a crashes, b is never
      read; otherwise the effects of b follow those of a, in arrival order. */
  lemma ServeAppend(handlers: map<string, seq<string>>, a: seq<string>, b: seq<string>)
    ensures var ta := Serve(handlers, a);
      Serve(handlers, a + b) ==
        if ta.crash.Some? then Trace(ta.out, ta.spawned, ta.crash, ta.rest + b)
        else var tb := Serve(handlers, b); Trace(ta.out + tb.out, ta.spawned + tb.spawned, tb.crash, tb.rest)
  {
    assert Steps(handlers, a + b) == Steps(handlers, a) + Steps(handlers, b);
    FoldAppend(Steps(handlers, a), a, Steps(handlers, b), b);
  }

  /** A PING is answered with exactly one PONG carrying the rest of the line,
      and spawns nothing. */
  lemma PingAnswered(handlers: map<string, seq<string>>, rest: string)
    ensures LineStep(handlers, "PING" + rest) == Ok(Step([Frame(["PONG" + rest])], []))
  {
    var line := "PING" + rest;
    assert line[..4] == "PING";
    assert OccursAt(line, "PING", 0);
    FindFirst(line, "PING", 0);
    assert line[4..] == rest;
    assert ReplaceFirst(line, "PING", "PONG") == "PONG" + rest by {
      assert line[..0] == [];
    }
  }

  /** The line `PING :server123` gets the answer `PONG :server123`. */
  lemma PingExample(handlers: map<string, seq<string>>)
    ensures Serve(handlers, ["PING" + " :server123" + CRLF]) == Trace(["PONG" + " :server123" + CRLF], [], None, [])
  {
    var rest := " :server123" + CRLF;
    var line := "PING" + " :server123" + CRLF;
    var pong := "PONG" + " :server123" + CRLF;
    assert line == "PING" + rest && pong == "PONG" + rest;
    PingAnswered(handlers, rest);
    assert Frame([pong]) == pong by {
      assert pong[|pong| - 2..] == CRLF;
    }
    assert Steps(handlers, [line])[0] == Ok(Step([pong], []));
    assert [line][1..] == [];
    assert Fold(Steps(handlers, [line]), [line]) == Trace([pong] + [], [] + [], None, []);
    assert [pong] + [] == [pong];
  }

  /** Any other line that parses spawns one task per handler of its command,
      in registration order, and writes nothing. */
  lemma EventDispatched(handlers: map<string, seq<string>>, line: string, ev: Event)
    requires !StartsWith(line, "PING") && ParseMessage(line) == Ok(ev)
    ensures var hs := HandlersOf(handlers, ev.command);
      var r := LineStep(handlers, line);
      && r.Ok? && r.value.out == []
      && |r.value.spawned| == |hs|
      && forall k :: 0 <= k < |hs| ==> r.value.spawned[k] == Spawn(hs[k], ev)
  {
  }

  // ---------------------------------------------------------------------
  // The bot

  class IrcBot {
    const nick: string
    const channels: seq<string>
    /** Whether `self.stream` is set, i.e. `connect` has opened the socket. */
    var connected: bool
    /** The lines the server has sent that the bot has not read yet. */
    var pending: seq<string>
    /** Everything written to the stream, in order. */
    var sent: seq<string>

    constructor (nick: string, channels: seq<string>)
      ensures this.nick == nick && this.channels == channels
      ensures !connected && pending == [] && sent == []
    {
      this.nick := nick;
      this.channels := channels;
      connected := false;
      pending := [];
      sent := [];
    }

    /** `_send(*fields)`. */
    method Send(fields: seq<string>)
      requires connected
      modifies this
      ensures sent == old(sent) + [Frame(fields)]
      ensures connected && pending == old(pending)
    {
      var joined := Join(fields, " ");
      if !EndsWith(joined, CRLF) {
        joined := joined + CRLF;
      }
      sent := sent + [joined];
    }

    /** `reply(event, *data)`: one PRIVMSG to the reply target, or the
        exception it raises with nothing written. */
    method Reply(e: Event, data: seq<string>) returns (r: Result<string, ReplyFailure>)
      requires connected
      modifies this
      ensures r == ReplyTarget(nick, e)
      ensures sent == old(sent) + (if r.Ok? then [ReplyLine(r.value, data)] else [])
      ensures connected && pending == old(pending)
    {
      if e.params == [] {
        return Err(IndexError);
      }
      var source := e.params[0];
      if source == nick {
        if !e.sender.User? {
          return Err(KeyError);
        }
        source := e.sender.nick;
      }
      Send(["PRIVMSG", source, ":" + Join(data, " ")]);
      r := Ok(source);
    }

    /** `connect`: open the stream on the lines the server will send,
        register, read until the end of the MOTD, then join every channel.
        A line that fails to parse ends the attempt before any JOIN; a
        stream that closes first still gets the JOINs. */
    method Connect(incoming: seq<string>) returns (crash: Option<ParseError>)
      modifies this
      ensures connected
      ensures match MotdScan(incoming)
        case EndOfMotd(rest) => crash == None && pending == rest
        case StreamClosed => crash == None && pending == []
        case MotdCrash(e, rest) => crash == Some(e) && pending == rest
      ensures sent == old(sent) + Handshake(nick) + (if crash.None? then Joins(channels) else [])
    {
      connected := true;
      pending := incoming;
      ghost var before := sent;
      Send(["NICK", nick]);
      Send(["USER", nick, "0", "*", ":" + nick]);
      AppendTwo(before, Frame(["NICK", nick]), Frame(["USER", nick, "0", "*", ":" + nick]));
      ghost var greeted := sent;
      assert greeted == old(sent) + Handshake(nick);
      crash := AwaitMotd();
      if crash.None? {
        JoinAll();
      } else {
        assert sent == greeted + [];
      }
    }

    /** The wait of `connect`: read lines until one fails to parse, one is
        the end-of-MOTD reply, or the stream ends. Nothing is sent. */
    method AwaitMotd() returns (crash: Option<ParseError>)
      modifies this
      ensures match MotdScan(old(pending))
        case EndOfMotd(rest) => crash == None && pending == rest
        case StreamClosed => crash == None && pending == []
        case MotdCrash(e, rest) => crash == Some(e) && pending == rest
      ensures sent == old(sent) && connected == old(connected)
    {
      while pending != []
        invariant sent == old(sent) && connected == old(connected)
        invariant MotdScan(pending) == MotdScan(old(pending))
        decreases |pending|
      {
        var line := pending[0];
        pending := pending[1..];
        var r := ParseMessage(line);
        if r.Err? {
          return Some(r.error);
        }
        if r.value.command == EndOfMotdCode {
          break;
        }
      }
      crash := None;
    }

    /** `JOIN` every configured channel, in order. */
    method JoinAll()
      requires connected
      modifies this
      ensures sent == old(sent) + Joins(channels)
      ensures connected && pending == old(pending)
    {
      var i := 0;
      while i < |channels|
        invariant 0 <= i <= |channels|
        invariant connected && sent == old(sent) + Joins(channels[..i]) && pending == old(pending)
      {
        assert channels[..i + 1][..i] == channels[..i];
        Send(["JOIN", channels[i]]);
        i := i + 1;
      }
      assert channels[..i] == channels;
    }

    /** One turn of `mainloop` on a received line: answer a PING, or parse
        the line and spawn every handler of its command, in registration
        order. */
    method Receive(table: map<string, seq<string>>, line: string) returns (tasks: seq<Spawn>, error: Option<ParseError>)
      requires connected
      modifies this
      ensures match LineStep(table, line)
        case Err(e) => error == Some(e) && tasks == [] && sent == old(sent)
        case Ok(s) => error == None && tasks == s.spawned && sent == old(sent) + s.out
      ensures connected && pending == old(pending)
    {
      tasks := [];
      if StartsWith(line, "PING") {
        Send([ReplaceFirst(line, "PING", "PONG")]);
        return tasks, None;
      }
      var r := ParseMessage(line);
      if r.Err? {
        return tasks, Some(r.error);
      }
      var ev := r.value;
      tasks := SpawnAll(HandlersOf(table, ev.command), ev);
      error := None;
    }

    /** `mainloop` with `event_handlers` as it stands once the handlers are
        registered: read every pending line, answering PINGs and spawning
        the handlers of each other line's command; a line that fails to
        parse ends the loop, leaving the lines after it unread. */
    method Mainloop(table: map<string, seq<string>>) returns (spawned: seq<Spawn>, crash: Option<ParseError>)
      requires connected
      modifies this
      ensures var t := Serve(table, old(pending));
        && sent == old(sent) + t.out
        && spawned == t.spawned
        && crash == t.crash
        && pending == t.rest
      ensures connected
    {
      ghost var outSoFar: seq<string> := [];
      spawned := [];
      crash := None;
      assert Serve(table, pending) == After([], [], Serve(table, pending)) by { AfterNothing(Serve(table, pending)); }
      while pending != []
        invariant connected
        invariant sent == old(sent) + outSoFar
        invariant Serve(table, old(pending)) == After(outSoFar, spawned, Serve(table, pending))
        decreases |pending|
      {
        var line := pending[0];
        ServeTurn(table, pending, outSoFar, spawned);
        ghost var step := LineStep(table, line);
        pending := pending[1..];
        var tasks, error := Receive(table, line);
        if error.Some? {
          crash := error;
          return;
        }
        outSoFar := outSoFar + step.value.out;
        spawned := spawned + tasks;
      }
      AfterNothing(Trace(outSoFar, spawned, None, []));
    }
  }
}
