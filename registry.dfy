/** The two process-wide registries of bot.py: `event_handlers` (protocol
    command to the handlers the `privmsg`/`join`/... decorators appended, in
    registration order) and `_commands` (command word to the descriptor the
    `command` decorator builds from the handler's parameters). */
module Registry {
  import opened Outcomes
  import opened Strings

  /** One declared parameter of a handler: its name and whether it has a default. */
  datatype Param = Param(name: string, hasDefault: bool)

  /** An entry of `_commands`: `(func, usage, min_args, max_args)`. The handler
      is known by its function name; its docstring is kept for the help command. */
  datatype Command = Command(handler: string, doc: Option<string>, usage: string, minArgs: nat, maxArgs: nat)

  /** The handler bot.py registers for PRIVMSG when it is imported. */
  const CommandDispatcher: string := "_command_dispatcher"

  /** The handler `add_help_command` registers, and its docstring. */
  const HelpHandler: string := "do_help"
  const HelpDoc: string := "Display a list of commands or help on a specific command."

  /** How a parameter appears in the usage string: upper-cased, bracketed when optional. */
  function UsageWord(p: Param): string
  {
    if p.hasDefault then "[" + Upper(p.name) + "]" else Upper(p.name)
  }

  /** The usage words of the parameters, in declared order. */
  function UsageWords(ps: seq<Param>): (r: seq<string>)
  {
    if ps == [] then [] else UsageWords(ps[..|ps| - 1]) + [UsageWord(ps[|ps| - 1])]
  }

  /** The number of parameters without a default. */
  function RequiredCount(ps: seq<Param>): (n: nat)
    ensures n <= |ps|
  {
    if ps == [] then 0 else RequiredCount(ps[..|ps| - 1]) + (if ps[|ps| - 1].hasDefault then 0 else 1)
  }

  /** The descriptor `command(name)` stores for a handler whose full parameter
      list (the event first) is `signature`. */
  function Describe(name: string, handler: string, signature: seq<Param>, doc: Option<string>): Command
    requires |signature| >= 1
  {
    var ps := signature[1..];
    Command(handler, doc, Join([name] + UsageWords(ps), " "), RequiredCount(ps), |ps|)
  }

  /** The body of `command(name)` up to the store: one usage word per
      parameter after the event one, counting those without a default. */
  method BuildCommand(name: string, handler: string, signature: seq<Param>, doc: Option<string>) returns (c: Command)
    requires |signature| >= 1
    ensures c == Describe(name, handler, signature, doc)
  {
    var required := 0;
    var optional := 0;
    var usage := [name];
    var i := 1;  // skip the event parameter
    while i < |signature|
      invariant 1 <= i <= |signature|
      invariant usage == [name] + UsageWords(signature[1..i])
      invariant required == RequiredCount(signature[1..i])
      invariant required + optional == i - 1
    {
      var p := signature[i];
      if !p.hasDefault {
        usage := usage + [Upper(p.name)];
        required := required + 1;
      } else {
        usage := usage + ["[" + Upper(p.name) + "]"];
        optional := optional + 1;
      }
      assert signature[1..i + 1][..i - 1] == signature[1..i];
      i := i + 1;
    }
    assert signature[1..i] == signature[1..];
    c := Command(handler, doc, Join(usage, " "), required, required + optional);
  }

  /** `event_handlers.get(command, ())`. */
  function HandlersOf(table: map<string, seq<string>>, command: string): seq<string>
  {
    if command in table then table[command] else []
  }

  /** `event_handlers.setdefault(command, []).append(handler)`: the handler
      goes last in that command's list, created if missing; no other
      command's list changes. */
  function Appended(table: map<string, seq<string>>, command: string, handler: string): (r: map<string, seq<string>>)
    ensures r.Keys == table.Keys + {command}
    ensures HandlersOf(r, command) == HandlersOf(table, command) + [handler]
    ensures forall c :: c != command ==> HandlersOf(r, c) == HandlersOf(table, c)
  {
    table[command := HandlersOf(table, command) + [handler]]
  }

  class Registry {
    /** `event_handlers`: protocol command to its handlers, in registration order. */
    var eventHandlers: map<string, seq<string>>
    /** `_commands`: command word to descriptor. */
    var commands: map<string, Command>
    /** The keys of `_commands` in insertion order, the order a Python dict iterates in. */
    var order: seq<string>

    ghost predicate Valid()
      reads this
    {
      && (forall i, j :: 0 <= i < j < |order| ==> order[i] != order[j])
      && (forall n :: n in commands <==> n in order)
      && (forall n :: n in commands ==> commands[n].minArgs <= commands[n].maxArgs)
    }

    /** The registries right after bot.py is imported: the command dispatcher
        is the first PRIVMSG handler and no command exists yet. */
    constructor ()
      ensures Valid()
      ensures eventHandlers == map["PRIVMSG" := [CommandDispatcher]]
      ensures commands == map[] && order == []
    {
      eventHandlers := map["PRIVMSG" := [CommandDispatcher]];
      commands := map[];
      order := [];
    }

    /** `_basic_event_handler(command)(func)`: append to that command's list,
        creating it on first use. */
    method On(command: string, handler: string)
      requires Valid()
      modifies this
      ensures Valid()
      ensures eventHandlers == Appended(old(eventHandlers), command, handler)
      ensures commands == old(commands) && order == old(order)
    {
      eventHandlers := Appended(eventHandlers, command, handler);
    }

    /** `command(name)(func)`: build the usage string and the argument bounds
        from the parameters after the event one, then store the descriptor,
        overwriting an earlier one of the same name (which keeps its place in
        the dict's order). */
    method Register(name: string, handler: string, signature: seq<Param>, doc: Option<string>)
      requires Valid()
      requires |signature| >= 1
      modifies this
      ensures Valid()
      ensures commands == old(commands)[name := Describe(name, handler, signature, doc)]
      ensures order == if name in old(commands) then old(order) else old(order) + [name]
      ensures eventHandlers == old(eventHandlers)
    {
      var c := BuildCommand(name, handler, signature, doc);
      if name !in commands {
        order := order + [name];
      }
      commands := commands[name := c];
    }

    /** `add_help_command(name)`: register `do_help(event, command=None)`. */
    method AddHelpCommand(name: string)
      requires Valid()
      modifies this
      ensures Valid()
      ensures commands == old(commands)[name := Describe(name, HelpHandler, [Param("event", false), Param("command", true)], Some(HelpDoc))]
      ensures order == if name in old(commands) then old(order) else old(order) + [name]
      ensures eventHandlers == old(eventHandlers)
    {
      Register(name, HelpHandler, [Param("event", false), Param("command", true)], Some(HelpDoc));
    }
  }

  // ---------------------------------------------------------------------
  // What the descriptor means

  lemma {:induction false} UsageWordsAt(ps: seq<Param>)
    ensures |UsageWords(ps)| == |ps|
    ensures forall i :: 0 <= i < |ps| ==> UsageWords(ps)[i] == UsageWord(ps[i])
  {
    if ps != [] {
      var init := ps[..|ps| - 1];
      UsageWordsAt(init);
      var r := UsageWords(ps);
      assert r == UsageWords(init) + [UsageWord(ps[|ps| - 1])];
      forall i | 0 <= i < |ps| ensures r[i] == UsageWord(ps[i]) {
        if i < |init| { assert ps[i] == init[i] && r[i] == UsageWords(init)[i]; }
      }
    }
  }

  /** Python forbids a parameter without a default after one with a default. */
  predicate DefaultsLast(ps: seq<Param>)
  {
    forall i, j :: 0 <= i < j < |ps| && ps[i].hasDefault ==> ps[j].hasDefault
  }

  /** In a Python signature the parameters without a default are exactly the
      first RequiredCount of them. */
  lemma {:induction false} RequiredFirst(ps: seq<Param>)
    requires DefaultsLast(ps)
    ensures forall i :: 0 <= i < |ps| ==> (i < RequiredCount(ps) <==> !ps[i].hasDefault)
  {
    if ps != [] {
      var init := ps[..|ps| - 1];
      assert DefaultsLast(init);
      RequiredFirst(init);
      if !ps[|ps| - 1].hasDefault {
        assert forall i :: 0 <= i < |init| ==> !init[i].hasDefault;
        RequiredAll(init);
      }
    }
  }

  /** Calling the handler with the event and k positional tokens binds every
      parameter without a default and does not overflow the list. */
  predicate Binds(ps: seq<Param>, k: nat)
  {
    k <= |ps| && forall i :: 0 <= i < |ps| && !ps[i].hasDefault ==> i < k
  }

  /** The argument bounds admit exactly the token counts the handler can be
      called with: min_args <= k <= max_args holds iff k tokens bind. */
  lemma BoundsMatchBinding(name: string, handler: string, signature: seq<Param>, doc: Option<string>, k: nat)
    requires |signature| >= 1 && DefaultsLast(signature[1..])
    ensures var c := Describe(name, handler, signature, doc);
      c.minArgs <= k <= c.maxArgs <==> Binds(signature[1..], k)
  {
    var ps := signature[1..];
    RequiredFirst(ps);
    if RequiredCount(ps) > 0 {
      assert !ps[RequiredCount(ps) - 1].hasDefault;
    }
  }

  /** The usage string is the command name followed by one word per
      parameter after the event, in declared order; each word is the
      upper-cased name, bracketed exactly when the parameter has a default. */
  lemma UsageSpells(name: string, handler: string, signature: seq<Param>, doc: Option<string>)
    requires |signature| >= 1
    requires ' ' !in name && forall i :: 1 <= i < |signature| ==> ' ' !in signature[i].name
    ensures var words := Split(Describe(name, handler, signature, doc).usage, " ");
      && |words| == |signature|
      && words[0] == name
      && forall i :: 1 <= i < |signature| ==>
           words[i] == if signature[i].hasDefault then "[" + Upper(signature[i].name) + "]"
                       else Upper(signature[i].name)
  {
    var ps := signature[1..];
    var ws := [name] + UsageWords(ps);
    UsageWordsAt(ps);
    forall k | 0 <= k < |ws| ensures ' ' !in ws[k] {
      if k > 0 {
        assert ws[k] == UsageWord(ps[k - 1]);
        UsageWordNoBlank(ps[k - 1]);
      }
    }
    SplitJoin(ws, ' ');
  }

  lemma UsageWordNoBlank(p: Param)
    requires ' ' !in p.name
    ensures ' ' !in UsageWord(p)
  {
    assert forall c :: 0 <= c < |p.name| ==> Upper(p.name)[c] == UpperChar(p.name[c]);
    assert ' ' !in Upper(p.name);
  }

  /** Bounds: min_args <= max_args, max_args counts every parameter after the
      event, and min_args those without a default. */
  lemma DescribeBounds(name: string, handler: string, signature: seq<Param>, doc: Option<string>)
    requires |signature| >= 1
    ensures var c := Describe(name, handler, signature, doc);
      && c.minArgs <= c.maxArgs == |signature| - 1
      && (c.minArgs == c.maxArgs <==> forall i :: 1 <= i < |signature| ==> !signature[i].hasDefault)
  {
    RequiredAll(signature[1..]);
  }

  lemma {:induction false} RequiredAll(ps: seq<Param>)
    ensures RequiredCount(ps) == |ps| <==> forall i :: 0 <= i < |ps| ==> !ps[i].hasDefault
  {
    if ps != [] {
      RequiredAll(ps[..|ps| - 1]);
      assert forall i :: 0 <= i < |ps| - 1 ==> ps[..|ps| - 1][i] == ps[i];
    }
  }
}
