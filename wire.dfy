/** The IRC wire-line parser of bot.py: `_parse_sender` and `_parse_message`,
    with the Event record they build. */
module Wire {
  import opened Outcomes
  import opened Strings

  /** Who sent a line: a user prefix `:nick!user@host` or a server prefix `:name`. */
  datatype Sender = User(nick: string, user: string, hostname: string) | Server(server: string)

  /** The convenience attributes `_parse_message` sets for a few commands. */
  datatype Fields =
    | NoFields
    | Target(target: string)                                   // JOIN, PART, QUIT
    | Message(target: string, message: string)                 // PRIVMSG
    | Kick(channel: string, target: string, reason: string)    // KICK

  datatype Event = Event(sender: Sender, command: string, params: seq<string>, fields: Fields)

  /** Why `_parse_message` raises. */
  datatype ParseError =
    | TooFewParts(got: nat)                                 // `sender, command, params = ...split(" ", 2)`
    | NoColonPrefix                                         // the assert in `_parse_sender`
    | NoAt                                                  // `user, hostname = user.split("@", 1)`
    | WrongArity(command: string, expected: nat, got: nat)  // unpacking the parameter list

  /** The characters `raw_msg.strip("\r\n")` removes. */
  const LineEnd: set<char> := {'\r', '\n'}

  /** The commands whose only parameter becomes `target`. */
  const TargetCommands: set<string> := {"JOIN", "PART", "QUIT"}

  /** `_parse_sender`: the prefix must start with ':'; a '!' makes it a user
      (nick before the first '!', then user and hostname around the first '@'),
      otherwise it names a server. */
  function ParseSender(prefix: string): (r: Result<Sender, ParseError>)
    ensures r.Ok? ==> StartsWith(prefix, ":")
    ensures r.Ok? && r.value.Server? ==> r.value.server == prefix[1..] && '!' !in r.value.server
    ensures r.Ok? && r.value.User? ==> '!' !in r.value.nick && '@' !in r.value.user
  {
    if !StartsWith(prefix, ":") then Err(NoColonPrefix)
    else
      var body := prefix[1..];
      match SplitOnce(body, "!")
      case None =>
        AbsentChar(body, '!');
        Ok(Server(body))
      case Some((nick, rest)) =>
        match SplitOnce(rest, "@")
        case None => Err(NoAt)
        case Some((user, hostname)) =>
          FirstCut(body, "!");
          FirstCut(rest, "@");
          Ok(User(nick, user, hostname))
  }

  /** If SplitOnce finds no single-character separator, the string lacks it. */
  lemma AbsentChar(s: string, c: char)
    requires SplitOnce(s, [c]) == None
    ensures c !in s
  {
    SplitOnceParts(s, [c]);
    if c in s {
      var k :| 0 <= k < |s| && s[k] == c;
      assert s[k..k + 1] == [c];
      assert OccursAt(s, [c], k);
    }
  }

  /** The part before the first single-character separator does not contain it. */
  lemma FirstCut(s: string, sep: string)
    requires |sep| == 1 && SplitOnce(s, sep).Some?
    ensures sep[0] !in SplitOnce(s, sep).value.0
  {
    var i := Find(s, sep).value;
    assert SplitOnce(s, sep).value.0 == s[..i];
    if sep[0] in s[..i] {
      var k :| 0 <= k < i && s[..i][k] == sep[0];
      assert s[k..k + 1] == sep;
      assert OccursAt(s, sep, k);
    }
  }

  /** The parameter string: with a " :" the part before it is split on single
      spaces and everything after it is one final parameter; without one the
      whole string is split on single spaces. */
  function ParseParams(params: string): (r: seq<string>)
    ensures |r| >= 1
  {
    match SplitOnce(params, " :")
    case None => Split(params, " ")
    case Some((start, end)) => Split(start, " ") + [end]
  }

  /** The convenience attributes for a command, with the arity its tuple
      unpacking enforces. */
  function FieldsFor(command: string, ps: seq<string>): (r: Result<Fields, ParseError>)
  {
    if command in TargetCommands then
      if |ps| == 1 then Ok(Target(ps[0])) else Err(WrongArity(command, 1, |ps|))
    else if command == "PRIVMSG" then
      if |ps| == 2 then Ok(Message(ps[0], ps[1])) else Err(WrongArity(command, 2, |ps|))
    else if command == "KICK" then
      if |ps| == 3 then Ok(Kick(ps[0], ps[1], ps[2])) else Err(WrongArity(command, 3, |ps|))
    else Ok(NoFields)
  }

  /** `raw_msg.strip("\r\n").split(" ", 2)` unpacked into sender, command and
      parameter string: the line cut at its first two spaces. */
  function Cut(raw: string): (r: Result<(string, string, string), ParseError>)
  {
    var line := Strip(raw, LineEnd);
    match SplitOnce(line, " ")
    case None => Err(TooFewParts(1))
    case Some((prefix, rest)) =>
      match SplitOnce(rest, " ")
      case None => Err(TooFewParts(2))
      case Some((command, params)) => Ok((prefix, command, params))
  }

  /** `_parse_message`: cut the line into sender, command and parameter
      string, then parse the sender, the parameters and the convenience
      attributes. */
  function ParseMessage(raw: string): (r: Result<Event, ParseError>)
    ensures r.Ok? ==> |r.value.params| >= 1
    ensures r.Ok? && r.value.command in TargetCommands ==>
      |r.value.params| == 1 && r.value.fields == Target(r.value.params[0])
    ensures r.Ok? && r.value.command == "PRIVMSG" ==>
      |r.value.params| == 2 && r.value.fields == Message(r.value.params[0], r.value.params[1])
    ensures r.Ok? && r.value.command == "KICK" ==>
      |r.value.params| == 3 && r.value.fields == Kick(r.value.params[0], r.value.params[1], r.value.params[2])
    ensures r.Ok? && r.value.command !in TargetCommands && r.value.command != "PRIVMSG" && r.value.command != "KICK" ==>
      r.value.fields == NoFields
  {
    match Cut(raw)
    case Err(e) => Err(e)
    case Ok((prefix, command, params)) =>
      var ps := ParseParams(params);
      match ParseSender(prefix)
      case Err(e) => Err(e)
      case Ok(sender) =>
        match FieldsFor(command, ps)
        case Err(e) => Err(e)
        case Ok(fields) => Ok(Event(sender, command, ps, fields))
  }

  // ---------------------------------------------------------------------
  // The wire form of a line, as a server sends it, and the parser as its inverse

  /** No line-break characters, so `strip("\r\n")` cannot eat into it. */
  predicate Clean(s: string) { forall k :: 0 <= k < |s| ==> s[k] !in LineEnd }

  predicate NoBlank(s: string) { forall k :: 0 <= k < |s| ==> s[k] != ' ' }

  /** Parameters before the trailing one: no spaces, no line breaks, and none
      but the first starts with ':' (a first one may: the parser only looks
      for " :"). */
  predicate Middles(ms: seq<string>)
  {
    forall k :: 0 <= k < |ms| ==>
      NoBlank(ms[k]) && Clean(ms[k]) && (k > 0 ==> ms[k] == [] || ms[k][0] != ':')
  }

  predicate WellFormedSender(s: Sender)
  {
    match s
    case User(n, u, h) => '!' !in n && '@' !in u && NoBlank(n) && NoBlank(u) && NoBlank(h)
    case Server(h) => '!' !in h && NoBlank(h)
  }

  function RenderSender(s: Sender): string
  {
    match s
    case User(n, u, h) => ":" + n + "!" + u + "@" + h
    case Server(h) => ":" + h
  }

  /** The parameter string: the middle parameters separated by single spaces,
      then the trailing parameter after " :", if there is one. */
  function RenderParams(middles: seq<string>, trailing: Option<string>): string
  {
    Join(middles, " ") + (if trailing.Some? then " :" + trailing.value else "")
  }

  function RenderLine(s: Sender, command: string, middles: seq<string>, trailing: Option<string>): string
  {
    RenderSender(s) + " " + command + " " + RenderParams(middles, trailing)
  }

  /** The parameter list a rendered line carries. */
  function ParamsOf(middles: seq<string>, trailing: Option<string>): seq<string>
  {
    middles + (if trailing.Some? then [trailing.value] else [])
  }

  /** `_parse_sender` inverts the prefix rendering of a well-formed sender... */
  lemma SenderRoundTrip(s: Sender)
    requires WellFormedSender(s)
    ensures ParseSender(RenderSender(s)) == Ok(s)
  {
    var p := RenderSender(s);
    assert StartsWith(p, ":");
    match s
    case User(n, u, h) =>
      assert p[1..] == n + "!" + (u + "@" + h);
      SplitOnceChar(n, '!', u + "@" + h);
      SplitOnceChar(u, '@', h);
    case Server(h) =>
      assert p[1..] == h;
      NoChar(h, '!');
  }

  /** ... and every prefix it accepts is the rendering of what it returns. */
  lemma SenderReconstructs(prefix: string)
    requires ParseSender(prefix).Ok?
    ensures RenderSender(ParseSender(prefix).value) == prefix
  {
    var body := prefix[1..];
    assert prefix == ":" + body;
    match SplitOnce(body, "!")
    case None =>
    case Some((nick, rest)) =>
      var (user, host) := SplitOnce(rest, "@").value;
      SplitOnceParts(body, "!");
      SplitOnceParts(rest, "@");
      assert ParseSender(prefix) == Ok(User(nick, user, host));
      Nest(":", nick, "!", user, "@", host);
  }

  lemma Nest(a: string, b: string, c: string, d: string, e: string, f: string)
    ensures a + b + c + d + e + f == a + (b + c + (d + e + f))
  {
  }

  /** A space-joined list of middle parameters holds no " :", and starts with
      ':' only if its first parameter does. */
  lemma {:induction false} JoinMiddles(ms: seq<string>)
    requires Middles(ms)
    ensures forall j: nat :: !OccursAt(Join(ms, " "), " :", j)
    ensures ms != [] && (ms[0] == [] || ms[0][0] != ':') ==> Join(ms, " ") == [] || Join(ms, " ")[0] != ':'
  {
    var s := Join(ms, " ");
    if |ms| == 1 {
      assert s == ms[0];
      forall j: nat ensures !OccursAt(s, " :", j) {
        if j + 2 <= |s| { assert s[j..j + 2][0] == ms[0][j]; }
      }
    } else if |ms| > 1 {
      var m := ms[0];
      var t := Join(ms[1..], " ");
      JoinMiddles(ms[1..]);
      assert ms[1..][0] == ms[1];
      assert s == m + " " + t;
      GlueMiddle(m, t);
    }
  }

  /** A space-free word, a space and a text without " :" that does not start
      with ':' contain no " :". */
  lemma GlueMiddle(m: string, t: string)
    requires NoBlank(m) && (t == [] || t[0] != ':')
    requires forall j: nat :: !OccursAt(t, " :", j)
    ensures forall j: nat :: !OccursAt(m + " " + t, " :", j)
    ensures m != [] ==> (m + " " + t)[0] == m[0]
  {
    var s := m + " " + t;
    forall j: nat ensures !OccursAt(s, " :", j) {
      if j + 2 <= |s| {
        if j < |m| {
          assert s[j..j + 2][0] == m[j];
        } else if j == |m| {
          assert s[j..j + 2][1] == t[0];
        } else {
          assert s[j..j + 2] == t[j - |m| - 1..j - |m| + 1];
          assert !OccursAt(t, " :", j - |m| - 1);
        }
      }
    }
  }

  /** Parsing a rendered parameter string gives the parameters back. */
  lemma ParamsRoundTrip(middles: seq<string>, trailing: Option<string>)
    requires |middles| >= 1 && Middles(middles)
    ensures ParseParams(RenderParams(middles, trailing)) == ParamsOf(middles, trailing)
  {
    var j := Join(middles, " ");
    JoinMiddles(middles);
    SplitJoin(middles, ' ');
    match trailing
    case None =>
      assert RenderParams(middles, trailing) == j;
      SplitOnceParts(j, " :");
    case Some(t) =>
      var r := j + " :" + t;
      assert RenderParams(middles, trailing) == r;
      forall i: nat | i < |j| ensures !OccursAt(r, " :", i) {
        if i + 2 <= |j| {
          assert r[i..i + 2] == j[i..i + 2];
          assert !OccursAt(j, " :", i);
        } else {
          assert r[i + 1] == ' ';
          assert r[i..i + 2][1] == ' ';
        }
      }
      SplitOnceAt(j, " :", t);
  }

  /** `_parse_message` recovers sender, command and parameters from a line a
      server renders, and then applies its arity table to them. */
  lemma ParseRendered(s: Sender, command: string, middles: seq<string>, trailing: Option<string>)
    requires WellFormedSender(s) && NoBlank(command)
    requires |middles| >= 1 && Middles(middles)
    requires trailing.Some? ==> Clean(trailing.value)
    ensures var ps := ParamsOf(middles, trailing);
      ParseMessage(RenderLine(s, command, middles, trailing)) ==
        match FieldsFor(command, ps)
        case Ok(f) => Ok(Event(s, command, ps, f))
        case Err(e) => Err(e)
  {
    var prefix := RenderSender(s);
    var params := RenderParams(middles, trailing);
    var line := RenderLine(s, command, middles, trailing);
    assert NoBlank(prefix) by {
      match s
      case User(n, u, h) =>
        forall k | 0 <= k < |prefix| ensures prefix[k] != ' ' {
          if k == 0 {
          } else if k <= |n| { assert prefix[k] == n[k - 1]; }
          else if k == |n| + 1 {
          } else if k <= |n| + |u| + 1 { assert prefix[k] == u[k - |n| - 2]; }
          else if k == |n| + |u| + 2 {
          } else { assert prefix[k] == h[k - |n| - |u| - 3]; }
        }
      case Server(h) =>
        forall k | 0 <= k < |prefix| ensures prefix[k] != ' ' {
          if k > 0 { assert prefix[k] == h[k - 1]; }
        }
    }
    // Neither end of the line is a line break.
    JoinAvoids(middles, " ", LineEnd);
    assert line[0] == ':';
    assert line[|line| - 1] !in LineEnd by {
      var j := Join(middles, " ");
      if trailing.Some? && trailing.value != [] {
        assert line[|line| - 1] == trailing.value[|trailing.value| - 1];
      } else if trailing.None? && j != [] {
        assert line[|line| - 1] == j[|j| - 1];
      }
    }
    StripKeeps(line, LineEnd);
    assert line == prefix + " " + (command + " " + params);
    SplitOnceChar(prefix, ' ', command + " " + params);
    SplitOnceChar(command, ' ', params);
    assert Cut(line) == Ok((prefix, command, params));
    SenderRoundTrip(s);
    ParamsRoundTrip(middles, trailing);
  }

  /** Nothing of the line is lost: the stripped line is the sender's prefix,
      the command and the parameters, joined by spaces, the last one possibly
      introduced by " :". */
  lemma ParseReconstructs(raw: string)
    requires ParseMessage(raw).Ok?
    ensures var e := ParseMessage(raw).value;
      var n := |e.params|;
      var head := RenderSender(e.sender) + " " + e.command + " ";
      Strip(raw, LineEnd) == head + Join(e.params, " ") ||
      Strip(raw, LineEnd) == head + Join(e.params[..n - 1], " ") + " :" + e.params[n - 1]
  {
    var line := Strip(raw, LineEnd);
    var (prefix, command, params) := Cut(raw).value;
    CutParts(raw);
    SenderReconstructs(prefix);
    var e := ParseMessage(raw).value;
    assert e.sender == ParseSender(prefix).value && e.command == command;
    assert e.params == ParseParams(params);
    var head := RenderSender(e.sender) + " " + e.command + " ";
    assert line == head + params;
    match SplitOnce(params, " :")
    case None =>
      JoinSplit(params, " ");
    case Some((start, end)) =>
      SplitOnceParts(params, " :");
      JoinSplit(start, " ");
      var n := |e.params|;
      assert e.params[..n - 1] == Split(start, " ") && e.params[n - 1] == end;
      Nest3(head, start, " :", end);
  }

  lemma Nest3(a: string, b: string, c: string, d: string)
    ensures a + (b + c + d) == a + b + c + d
  {
  }

  /** Cut puts the stripped line back together. */
  lemma CutParts(raw: string)
    requires Cut(raw).Ok?
    ensures var (prefix, command, params) := Cut(raw).value;
      Strip(raw, LineEnd) == prefix + " " + command + " " + params
  {
    var line := Strip(raw, LineEnd);
    SplitOnceParts(line, " ");
    SplitOnceParts(SplitOnce(line, " ").value.1, " ");
  }

  /** The canonical chat line: a user's message to a channel. */
  lemma PrivmsgLine(nick: string, user: string, host: string, channel: string, text: string)
    requires '!' !in nick && '@' !in user && NoBlank(nick) && NoBlank(user) && NoBlank(host)
    requires NoBlank(channel) && Clean(channel) && Clean(text)
    ensures ParseMessage(":" + nick + "!" + user + "@" + host + " PRIVMSG " + channel + " :" + text)
      == Ok(Event(User(nick, user, host), "PRIVMSG", [channel, text], Message(channel, text)))
  {
    var s := User(nick, user, host);
    var line := ":" + nick + "!" + user + "@" + host + " PRIVMSG " + channel + " :" + text;
    assert RenderLine(s, "PRIVMSG", [channel], Some(text)) == line by {
      assert RenderParams([channel], Some(text)) == channel + " :" + text;
    }
    assert ParseMessage(line) == Ok(Event(s, "PRIVMSG", [channel, text], Message(channel, text))) by {
      assert NoBlank("PRIVMSG");
      ParseRendered(s, "PRIVMSG", [channel], Some(text));
      assert ParamsOf([channel], Some(text)) == [channel, text];
      assert FieldsFor("PRIVMSG", [channel, text]) == Ok(Message(channel, text));
    }
  }

  /** The example line `:nick!user@host PRIVMSG #chan :hello world`. */
  lemma PrivmsgExample()
    ensures ParseMessage(":" + "nick" + "!" + "user" + "@" + "host" + " PRIVMSG " + "#chan" + " :" + "hello world")
      == Ok(Event(User("nick", "user", "host"), "PRIVMSG", ["#chan", "hello world"], Message("#chan", "hello world")))
  {
    assert '!' !in "nick" && '@' !in "user";
    assert NoBlank("nick") && NoBlank("user") && NoBlank("host");
    assert NoBlank("#chan") && Clean("#chan") && Clean("hello world");
    PrivmsgLine("nick", "user", "host", "#chan", "hello world");
  }

  /** A QUIT whose reason comes as a colon-prefixed first parameter holding a
      space is rejected: only " :" introduces a trailing parameter, so the
      reason splits in two and the one-parameter unpacking fails. */
  lemma QuitReasonWithSpace(s: Sender, word1: string, word2: string)
    requires WellFormedSender(s)
    requires NoBlank(word1) && Clean(word1) && NoBlank(word2) && Clean(word2)
    requires word2 == [] || word2[0] != ':'
    ensures ParseMessage(RenderSender(s) + " QUIT :" + word1 + " " + word2) == Err(WrongArity("QUIT", 1, 2))
  {
    var ms := [":" + word1, word2];
    var line := RenderSender(s) + " QUIT :" + word1 + " " + word2;
    assert RenderLine(s, "QUIT", ms, None) == line by {
      assert ms[1..] == [word2];
      assert Join(ms, " ") == ":" + word1 + " " + word2;
      assert RenderParams(ms, None) == ":" + word1 + " " + word2;
      QuitGlue(RenderSender(s), word1, word2);
    }
    assert ParseMessage(RenderLine(s, "QUIT", ms, None)) == Err(WrongArity("QUIT", 1, 2)) by {
      assert NoBlank("QUIT");
      assert Middles(ms);
      ParseRendered(s, "QUIT", ms, None);
      assert ParamsOf(ms, None) == ms;
      assert FieldsFor("QUIT", ms) == Err(WrongArity("QUIT", 1, 2));
    }
  }

  lemma QuitGlue(p: string, w1: string, w2: string)
    ensures p + " " + "QUIT" + " " + (":" + w1 + " " + w2) == p + " QUIT :" + w1 + " " + w2
  {
    var tail := w1 + " " + w2;
    assert ":" + w1 + " " + w2 == ":" + tail;
    assert p + " " + "QUIT" + " " + (":" + tail) == p + " QUIT :" + tail;
    assert p + " QUIT :" + w1 + " " + w2 == p + " QUIT :" + tail;
  }
}
