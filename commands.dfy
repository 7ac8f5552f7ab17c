/** What happens to a chat message that may be a command (bot.py's
    `_command_dispatcher`), the built-in help command (`do_help`) and the error
    reply of a failing command (`_try_except_run`). */
module Commands {
  import opened Outcomes
  import opened Strings
  import opened Registry

  /** What `_command_dispatcher` does with one chat message. */
  datatype Action =
    | Ignore                                                       // not a registered command word
    | Invoke(command: string, handler: string, args: seq<string>)  // spawn the handler with these tokens
    | Reply(data: seq<string>)                                     // `event.reply(*data)` and nothing else

  /** `command_name, *params = event.message.split()` raises on a message of
      whitespace only. */
  datatype DispatchError = EmptyMessage

  /** `_command_dispatcher`: the first whitespace-separated token is the
      command word, the others its arguments. */
  function Dispatch(commands: map<string, Command>, message: string): (r: Result<Action, DispatchError>)
    ensures r.Err? <==> AllSpace(message)
    ensures r.Ok? ==> var words := Words(message);
      && |words| > 0
      && (r.value.Ignore? <==> words[0] !in commands)
      && (r.value.Invoke? ==>
            && r.value.command == words[0]
            && r.value.handler == commands[words[0]].handler
            && r.value.args == words[1..]
            && commands[words[0]].minArgs <= |r.value.args| <= commands[words[0]].maxArgs)
      && (r.value.Reply? ==>
            && words[0] in commands
            && !(commands[words[0]].minArgs <= |words| - 1 <= commands[words[0]].maxArgs)
            && r.value.data == ["Usage:", commands[words[0]].usage])
  {
    WordsShape(message);
    var words := Words(message);
    if words == [] then Err(EmptyMessage)
    else
      var name := words[0];
      var params := words[1..];
      if name !in commands then Ok(Ignore)
      else
        var c := commands[name];
        if c.minArgs <= |params| <= c.maxArgs then Ok(Invoke(name, c.handler, params))
        else Ok(Reply(["Usage:", c.usage]))
  }

  /** A message typed as a command word and argument tokens separated by
      single spaces is dispatched on exactly those tokens. */
  lemma DispatchTyped(commands: map<string, Command>, word: string, args: seq<string>)
    requires word != [] && NoSpace(word)
    requires forall k :: 0 <= k < |args| ==> args[k] != [] && NoSpace(args[k])
    ensures var r := Dispatch(commands, Join([word] + args, " "));
      if word !in commands then r == Ok(Ignore)
      else if commands[word].minArgs <= |args| <= commands[word].maxArgs then
        r == Ok(Invoke(word, commands[word].handler, args))
      else r == Ok(Reply(["Usage:", commands[word].usage]))
  {
    WordsJoin([word] + args);
    assert ([word] + args)[1..] == args;
  }

  /** A command typed with more tokens than it takes gets the one usage
      reply and is not run. */
  lemma TooManyArguments(commands: map<string, Command>, word: string, args: seq<string>)
    requires word != [] && NoSpace(word) && word in commands
    requires forall k :: 0 <= k < |args| ==> args[k] != [] && NoSpace(args[k])
    requires |args| > commands[word].maxArgs
    ensures Dispatch(commands, Join([word] + args, " ")) == Ok(Reply(["Usage:", commands[word].usage]))
  {
    DispatchTyped(commands, word, args);
  }

  // ---------------------------------------------------------------------
  // `_try_except_run`

  /** An exception escaping a command: `type(e).__name__` and `str(e)`. */
  datatype Raised = Raised(kind: string, message: string)

  /** How a command handler's run ends: the replies it sent, and the
      exception it raised, if any. */
  datatype Run = Run(replies: seq<seq<string>>, raised: Option<Raised>)

  /** The reply `_try_except_run` sends for an escaping exception. */
  function ErrorReply(e: Raised): string
  {
    e.kind + ": " + e.message
  }

  /** Everything a guarded command run replies: the handler's own replies,
      then, if it raised, exactly one more carrying the error. Nothing
      escapes to the caller. */
  function GuardedReplies(run: Run): (r: seq<seq<string>>)
    ensures run.raised.None? ==> r == run.replies
    ensures run.raised.Some? ==> |r| == |run.replies| + 1 && r[..|run.replies|] == run.replies
    ensures run.raised.Some? ==> r[|run.replies|] == [run.raised.value.kind + ": " + run.raised.value.message]
  {
    match run.raised
    case None => run.replies
    case Some(e) => run.replies + [[ErrorReply(e)]]
  }

  /** The error reply names the exception class and its message, and both can
      be read back from it (a class name holds no ':'). */
  lemma ErrorReplyReadsBack(e: Raised)
    requires ':' !in e.kind
    ensures SplitOnce(ErrorReply(e), ": ") == Some((e.kind, e.message))
  {
    var s := ErrorReply(e);
    forall j: nat | j < |e.kind| ensures !OccursAt(s, ": ", j) {
      assert s[j] == e.kind[j];
      if j + 2 <= |s| { assert s[j..j + 2][0] == s[j]; }
    }
    SplitOnceAt(e.kind, ": ", e.message);
  }

  // ---------------------------------------------------------------------
  // `do_help`

  /** The help text of a command: its docstring with whitespace collapsed, or
      a fixed text when it has none. */
  function DocText(doc: Option<string>): string
  {
    match doc
    case None => "No description provided."
    case Some(d) => Join(Words(d), " ")
  }

  /** Collapsing keeps the docstring's words and leaves nothing to collapse. */
  lemma DocTextCollapsed(d: string)
    ensures Words(DocText(Some(d))) == Words(d)
    ensures Join(Words(DocText(Some(d))), " ") == DocText(Some(d))
  {
    WordsShape(d);
    WordsJoin(Words(d));
  }

  /** Two names match ignoring punctuation: `a.strip(punct) == b.strip(punct)`. */
  predicate LooseMatch(a: string, b: string)
  {
    Strip(a, Punctuation) == Strip(b, Punctuation)
  }

  /** The first name, in dict order, that matches q ignoring punctuation. */
  function FirstLoose(order: seq<string>, q: string): Option<string>
  {
    if order == [] then None
    else if LooseMatch(order[0], q) then Some(order[0])
    else FirstLoose(order[1..], q)
  }

  /** The command `do_help` describes for the query q: the exact name, else
      the first name matching it ignoring punctuation. */
  function Resolve(commands: map<string, Command>, order: seq<string>, q: string): Option<string>
  {
    if q in commands then Some(q) else FirstLoose(order, q)
  }

  /** Resolve finds the exact name when it exists; otherwise the first name in
      dict order equal to q up to punctuation; and misses only when no name
      is. */
  lemma ResolveSpec(commands: map<string, Command>, order: seq<string>, q: string)
    requires forall i :: 0 <= i < |order| ==> order[i] in commands
    requires forall n :: n in commands ==> n in order
    ensures q in commands ==> Resolve(commands, order, q) == Some(q)
    ensures q !in commands && Resolve(commands, order, q).Some? ==>
      exists i :: 0 <= i < |order| && order[i] == Resolve(commands, order, q).value
        && LooseMatch(order[i], q) && forall j :: 0 <= j < i ==> !LooseMatch(order[j], q)
    ensures Resolve(commands, order, q).None? <==> forall n :: n in commands ==> !LooseMatch(n, q)
    ensures Resolve(commands, order, q).Some? ==> Resolve(commands, order, q).value in commands
  {
    FirstLooseSpec(order, q);
  }

  lemma {:induction false} FirstLooseSpec(order: seq<string>, q: string)
    ensures FirstLoose(order, q).Some? ==>
      exists i :: 0 <= i < |order| && order[i] == FirstLoose(order, q).value
        && LooseMatch(order[i], q) && forall j :: 0 <= j < i ==> !LooseMatch(order[j], q)
    ensures FirstLoose(order, q).None? <==> forall i :: 0 <= i < |order| ==> !LooseMatch(order[i], q)
  {
    if order != [] && !LooseMatch(order[0], q) {
      FirstLooseSpec(order[1..], q);
      if FirstLoose(order[1..], q).Some? {
        var i :| 0 <= i < |order[1..]| && order[1..][i] == FirstLoose(order[1..], q).value
          && LooseMatch(order[1..][i], q) && forall j :: 0 <= j < i ==> !LooseMatch(order[1..][j], q);
        assert forall j :: 0 <= j < i + 1 ==> !LooseMatch(order[j], q) by {
          forall j | 0 <= j < i + 1 ensures !LooseMatch(order[j], q) {
            if j > 0 { assert order[j] == order[1..][j - 1]; }
          }
        }
        assert order[i + 1] == order[1..][i];
      } else {
        forall i | 0 <= i < |order| ensures !LooseMatch(order[i], q) {
          if i > 0 { assert order[i] == order[1..][i - 1]; }
        }
      }
    }
  }

  /** The text `do_help` replies with when given no argument. */
  function HelpIndex(helpName: string, order: seq<string>): string
  {
    "See '" + helpName + " COMMAND' for help on a specific command. List of commands: " + Join(Sort(order), ", ")
  }

  /** `do_help(event, command)`: without an argument list the commands; with
      one, strip it, look it up exactly, then by the first name in dict order
      equal to it up to punctuation, and describe what was found. */
  method DoHelp(reg: Registry, helpName: string, arg: Option<string>) returns (reply: string)
    requires reg.Valid()
    ensures arg.None? ==> reply == HelpIndex(helpName, reg.order)
    ensures arg.Some? ==>
      var q := Strip(arg.value, Whitespace);
      match Resolve(reg.commands, reg.order, q)
      case None => reply == "No command called " + q + " :("
      case Some(n) => n in reg.commands && reply == reg.commands[n].usage + ": " + DocText(reg.commands[n].doc)
  {
    if arg.None? {
      reply := HelpIndex(helpName, reg.order);
      return;
    }
    var q := Strip(arg.value, Whitespace);
    var name := q;
    if q !in reg.commands {
      var i := 0;
      while i < |reg.order|
        invariant 0 <= i <= |reg.order|
        invariant FirstLoose(reg.order, q) == FirstLoose(reg.order[i..], q)
      {
        assert reg.order[i..][0] == reg.order[i] && reg.order[i..][1..] == reg.order[i + 1..];
        if LooseMatch(reg.order[i], q) {
          name := reg.order[i];
          break;
        }
        i := i + 1;
      }
      if i == |reg.order| {
        reply := "No command called " + q + " :(";
        return;
      }
    }
    var c := reg.commands[name];
    reply := c.usage + ": " + DocText(c.doc);
  }

  /** The command list in the help index is the registered names, sorted. */
  lemma HelpIndexLists(helpName: string, order: seq<string>)
    ensures var names := Sort(order);
      && HelpIndex(helpName, order) == "See '" + helpName + " COMMAND' for help on a specific command. List of commands: " + Join(names, ", ")
      && Sorted(names) && multiset(names) == multiset(order)
  {
    SortSpec(order);
  }
}
