# curiomuz IRC bot — a Dafny model of its protocol and dispatch core

The bot keeps one connection to an IRC server. bot.py parses each wire line
into an event (sender, command, parameters and a few convenience fields),
hands the event to every handler registered for its command, and turns chat
messages that start with a registered command word into validated command
calls. main.py plugs into that engine: it keeps a bounded in-memory log per
channel (`log_msg`), logs joins, parts, quits, kicks and messages, and
registers the `!log`, `!src` and `!help` commands.

The model is split into modules that follow the program:

- `Outcomes` — `Option` and `Result`.
- `Strings` — the Python `str` operations the bot relies on, written out over
  `seq<char>`:
  - `split(sep)` and `split(sep, 1)`, the no-argument `split()` and `' '.join`;
  - `strip(chars)`, `replace(old, new, 1)` and ASCII `upper()`/`lower()`;
  - `sorted()` on strings (code-point order).
- `Wire` — `_parse_sender` and `_parse_message`, the `Event` record they
  build, and the wire form of a line as a server renders it.
- `Registry` — the class `Registry`, which holds the two global dicts
  `event_handlers` and `_commands`, plus the key order of `_commands` (Python
  dicts iterate in insertion order). It covers the `privmsg`/`join`/... decorators,
  `command` and `add_help_command`.
- `Commands` — `_command_dispatcher`, `do_help` and the error reply of
  `_try_except_run`.
- `Connection` — `_send`, `reply`, `connect` and `mainloop`. The class
  `IrcBot` models the stream as two sequences: `pending`, the lines the
  server will still send, and `sent`, everything written to it.
- `ChannelLog` — main.py's `logs` dict (class `ChannelLogs`), with these
  functions:
  - `_format_msg` and `_log_filename`;
  - `log_msg` on a `maxlen=LOG_LEN` deque;
  - `info_handler`, `kick_handler` and `privmsg_handler`;
  - the choice of reply in `termbin_log`.
- `Runner` — what importing main.py registers, and what that configuration
  does with typical lines.

Behaviour worth knowing:

- The help command's reply uses the whole docstring with its whitespace
  collapsed (bot.py:143).
- `connect` keeps no handshake state beyond the stream itself. The model
  records only whether the stream is open.
- A line during the MOTD wait that `_parse_message` cannot parse ends
  `connect` with that error, before any JOIN is sent.
- `info_handler` logs a QUIT under the event's target, which for a QUIT is
  its quit message: `:n!u@h QUIT :Leaving` goes to the log of ":Leaving"
  (bot.py:171, 182 and main.py:146).
- A stream that ends before `376` still gets its JOINs, because the
  `async for` simply ends (bot.py:223-232).

## Model

| member | source | states |
|---|---|---|
| Wire.ParseSender | bot.py:149-162 | an accepted prefix starts with ':'; a server name is the prefix without ':' and holds no '!'; a user's nick holds no '!' and its user part no '@' |
| Wire.SenderRoundTrip | bot.py:149-162 | every well-formed user or server prefix parses back to exactly that sender |
| Wire.SenderReconstructs | bot.py:149-162 | every prefix the parser accepts is the rendering of the sender it returns: nothing is lost or invented |
| Wire.ParseParams | bot.py:167-173 | the parameter list is never empty |
| Wire.ParseMessage | bot.py:165-187 | a parsed JOIN/PART/QUIT has exactly one parameter, which is its target; a PRIVMSG has exactly two (target, message); a KICK has exactly three (channel, target, reason); and any other command gets no convenience fields |
| Wire.CutParts | bot.py:166 | the sender, command and parameter string glued back with single spaces give the stripped line |
| Wire.ParamsRoundTrip | bot.py:167-173 | space-free middle parameters plus an optional trailing one, rendered with " :", parse back to exactly that parameter list |
| Wire.ParseRendered | bot.py:165-187 | a line rendered from a well-formed sender, command and parameters parses to that sender, command and parameter list, and then fails or succeeds exactly as the arity table says |
| Wire.ParseReconstructs | bot.py:165-176 | for every line that parses, the stripped line is the sender, the command and the parameters joined by spaces, with the last parameter possibly introduced by " :" |
| Wire.PrivmsgLine | bot.py:165-187 | the line `:nick!user@host PRIVMSG <target> :<text>` parses to a user event with target and message fields |
| Wire.PrivmsgExample | bot.py:165-187 | the concrete line `:nick!user@host PRIVMSG #chan :hello world` parses as expected |
| Wire.QuitReasonWithSpace | bot.py:168-182 | a QUIT whose reason is a ':'-prefixed middle parameter holding a space is rejected with an arity error (1 expected, 2 found) |
| Strings.JoinSplit | bot.py:171-173 | joining the pieces of `split(sep)` with sep gives the string back |
| Strings.SplitJoin | bot.py:171-173 | splitting a join of pieces without the separator gives those pieces back |
| Strings.WordsShape | bot.py:46 | `split()` yields non-empty, whitespace-free words, and yields none exactly when the text is all whitespace |
| Strings.WordsJoin | bot.py:46 | splitting a space-join of whitespace-free words gives those words back |
| Strings.CollapseIdempotent | bot.py:143 | collapsing whitespace twice equals collapsing it once |
| Strings.SortSpec | bot.py:119 | `sorted()` returns an ordered permutation of its input |
| Strings.LexLeTotal | bot.py:119 | the string order used by `sorted()` is total |
| Strings.LexLeTrans | bot.py:119 | the string order used by `sorted()` is transitive |
| Registry.Appended | bot.py:24 | `setdefault(command, []).append(func)` puts the handler last in that command's list, adds the key if it was missing, and leaves every other command's list alone |
| Registry.Registry.constructor | bot.py:14-15 | after import, `event_handlers` holds only the command dispatcher under PRIVMSG and `_commands` is empty |
| Registry.Registry.On | bot.py:22-26 | a decorator appends the handler to its command's list and changes nothing else |
| Registry.BuildCommand | bot.py:80-98 | the usage/required/optional loop computes exactly the descriptor `Describe` gives (usage words, minimum, maximum) |
| Registry.Registry.Register | bot.py:80-99 | the descriptor is stored under the name and overwrites an earlier one, which keeps its place in dict order; a new name goes last; the handler lists are untouched; the registry invariant holds |
| Registry.Registry.AddHelpCommand | bot.py:104-117 | `do_help(event, command=None)` is registered under the given name with its docstring |
| Registry.UsageWordsAt | bot.py:87-93 | there is one usage word per parameter after the event, in declared order |
| Registry.UsageSpells | bot.py:83-96 | the usage, split on spaces, is the name followed by each parameter's upper-cased name, bracketed exactly when the parameter has a default |
| Registry.DescribeBounds | bot.py:95-98 | minArgs <= maxArgs; maxArgs counts every parameter after the event; the two bounds are equal exactly when no parameter has a default |
| Registry.RequiredAll | bot.py:87-97 | the required count equals the parameter count exactly when no parameter has a default |
| Registry.RequiredFirst | bot.py:87-93 | in a valid Python signature, the parameters without a default are exactly the first minArgs |
| Registry.BoundsMatchBinding | bot.py:49-50 | `minargs <= len(params) <= maxargs` holds exactly when the handler, called with that many tokens, binds every required parameter and does not overflow |
| Commands.Dispatch | bot.py:44-53 | a whitespace-only message raises. An unregistered first word is ignored. A registered word with an argument count inside its bounds runs its handler on exactly the remaining tokens. Otherwise the only reply is "Usage:" and the usage. Each case is an if-and-only-if |
| Commands.DispatchTyped | bot.py:46-53 | a message typed as a word and single-space-separated tokens is dispatched on exactly those tokens |
| Commands.TooManyArguments | bot.py:49-53 | more tokens than maxArgs gives exactly one usage reply and no call |
| Commands.GuardedReplies | bot.py:36-41 | a guarded run replies what the handler replied; if the handler raised, it then sends exactly one more reply, `Kind: message` |
| Commands.ErrorReplyReadsBack | bot.py:41 | the exception kind and message can be read back from the error reply |
| Commands.DocTextCollapsed | bot.py:140-143 | the help text keeps the docstring's words and has no whitespace left to collapse |
| Commands.FirstLooseSpec | bot.py:129-135 | the punctuation search returns the first name in dict order that matches, and misses only when none matches |
| Commands.ResolveSpec | bot.py:125-137 | help describes the exact name if registered, else the first name in dict order equal up to punctuation, and misses exactly when no registered name matches |
| Commands.DoHelp | bot.py:116-144 | without an argument: the hint and the sorted name list. With one: the stripped argument is resolved and the reply is `usage: doc`, or `No command called X :(` on a miss |
| Commands.HelpIndexLists | bot.py:118-122 | the names in the help index are sorted and are exactly the registered ones |
| Connection.Frame | bot.py:197-201 | every line `_send` writes ends with "\r\n" |
| Connection.Terminated | bot.py:198-200 | "\r\n" is appended only when missing |
| Connection.FrameIdempotent | bot.py:199-200 | sending an already framed line writes it unchanged |
| Connection.FrameOneLine | bot.py:197-201 | fields without line breaks go out as their space-join plus one "\r\n" and no other line break |
| Connection.ReplyGoesBack | bot.py:203-206 | a channel message is answered in the channel; a private message to the bot is answered to the sender's nick |
| Connection.ReplyLineText | bot.py:207 | a reply is `PRIVMSG <target> :<data joined by spaces>` followed by "\r\n" |
| Connection.ReplyReadsBack | bot.py:203-207 | the reply, relayed with the bot's prefix, parses back to a PRIVMSG to the target carrying the joined words |
| Connection.Joins | bot.py:231-232 | one JOIN per configured channel, in configuration order |
| Connection.MotdScanAt | bot.py:223-228 | the MOTD wait ends at the first line that is not a notice: normally on 376, with the parse error on a bad line, leaving the later lines unread |
| Connection.MotdPrefix | bot.py:223-228 | MOTD notices at the head of the stream are read and dropped one by one: the wait's outcome is the same as on the rest of the stream |
| Connection.SpawnAll | bot.py:251-252 | one task per handler of the list it is given (the handlers registered for the command), in that order, each given the same event |
| Connection.MotdScanClosed | bot.py:223-228 | the stream runs out during the wait exactly when every line is a notice |
| Connection.PingDuringMotd | bot.py:223-225 | a PING line during the MOTD wait makes the parser raise for lack of a third part, which ends the wait with the later lines unread |
| Connection.Spawns | bot.py:251-252 | one task per handler, in registration order |
| Connection.Fold | bot.py:237-252 | when no line fails, every line has been read |
| Connection.ServeStep | bot.py:237-252 | one turn of the loop is the first line's effects followed by those of the rest, or the end if that line fails to parse |
| Connection.ServeTurn | bot.py:237-252 | after earlier effects, a failing line ends the trace there, and any other line's effects join the earlier ones |
| Connection.FoldAppend | bot.py:237-252 | over lines a then b: if a fails, b is never read; otherwise b's effects follow a's |
| Connection.ServeAppend | bot.py:237-252 | the loop over a then b: if a fails, b is never read; otherwise b's effects follow a's, in arrival order |
| Connection.PingAnswered | bot.py:243-245 | a line starting with PING gets exactly one PONG line, with only its first PING replaced, and spawns nothing |
| Connection.PingExample | bot.py:243-245 | `PING :server123` is answered with `PONG :server123` |
| Connection.EventDispatched | bot.py:247-252 | any other parsed line writes nothing and spawns one task per handler of its command, in registration order |
| Connection.IrcBot.constructor | bot.py:192-195 | a new bot has its nick and channels and no stream |
| Connection.IrcBot.Send | bot.py:197-201 | exactly the framed line is appended to the stream |
| Connection.IrcBot.Reply | bot.py:203-207 | the reply target is chosen as `ReplyTarget` says and exactly one PRIVMSG goes there; on IndexError or KeyError nothing is written |
| Connection.IrcBot.Connect | bot.py:209-232 | NICK then USER is sent, the MOTD is read up to and including 376, and then one JOIN per channel; a parse error ends the attempt before any JOIN, leaving the later lines unread |
| Connection.IrcBot.AwaitMotd | bot.py:223-228 | the wait reads exactly the lines `MotdScan` consumes and sends nothing |
| Connection.IrcBot.JoinAll | bot.py:230-232 | exactly the JOIN lines are written, in channel order |
| Connection.IrcBot.Receive | bot.py:241-252 | one line: a PING is answered; otherwise it is parsed and its handlers are spawned, or the parse error comes back with nothing written |
| Connection.IrcBot.Mainloop | bot.py:234-252 | everything written, everything spawned, the crash and the lines left unread are exactly those of `Serve` over the pending lines |
| ChannelLog.Recent | main.py:39 | a deque with maxlen LOG_LEN keeps at most LOG_LEN entries, and drops none until full |
| ChannelLog.RecentIsSuffix | main.py:39 | what the deque keeps is the newest part of its history |
| ChannelLog.Push | main.py:51 | the appended entry is the newest; nothing else is lost unless the deque was full, in which case exactly the oldest entry goes |
| ChannelLog.PushRecent | main.py:39-51 | appending to the newest LOG_LEN entries gives the newest LOG_LEN entries of the extended history |
| ChannelLog.FormatMsgReadsBack | main.py:27-28 | a formatted log line ends in a newline, and its timestamp and message can be read back from it |
| ChannelLog.LogFilename | main.py:31-32 | a log file name ends in ".txt" |
| ChannelLog.LogFilenameRelative | main.py:31-32 | a channel name not starting with '/' is logged to `irclogs/<channel>.txt` |
| ChannelLog.LogFilenameInjective | main.py:31-32 | no two channels get the same path |
| ChannelLog.Prior | main.py:36-48 | the deque `log_msg` appends to never exceeds LOG_LEN |
| ChannelLog.LoggedSpec | main.py:35-51 | `log_msg` keeps every deque within LOG_LEN; it adds the channel if it was new and leaves other channels as they were; the message becomes the newest entry after the earlier ones |
| ChannelLog.FirstMessageAfterFile | main.py:36-51 | a channel's first message follows the last LOG_LEN lines of its log file |
| ChannelLog.Load | main.py:39-43 | loading the file line by line into the deque keeps the file's last LOG_LEN lines |
| ChannelLog.ChannelLogs.constructor | main.py:24 | nothing is logged at first |
| ChannelLog.ChannelLogs.LogMsg | main.py:35-51 | the logs become exactly `Logged(...)`, and the bound is preserved |
| ChannelLog.ChannelLogs.InfoHandler | main.py:140-146 | a user's join/part/quit is logged under the target; a server sender raises and logs nothing |
| ChannelLog.ChannelLogs.KickHandler | main.py:149-154 | a user's kick is logged under the channel; a server sender raises and logs nothing |
| ChannelLog.ChannelLogs.PrivmsgHandler | main.py:157-160 | a user's message is logged under the target; a server sender raises and logs nothing |
| ChannelLog.InfoLogsVerb | main.py:143-146 | a parsed JOIN/PART/QUIT line is logged as `* nick joins`, `* nick parts` or `* nick quits` under its only parameter, a leading ':' included |
| ChannelLog.QuitLoggedUnderMessage | main.py:143-146 | a user's `QUIT :reason` is logged as `* nick quits` under ":reason", since the quit message is the event's target |
| ChannelLog.PrivmsgLogsText | main.py:158-160 | a parsed channel message is logged as `<nick> text` under the channel |
| ChannelLog.KickLogsReason | main.py:150-154 | a kick is logged as `nick kicks target (reason: reason)` under the channel |
| ChannelLog.ServerLinesNotLogged | main.py:143-160 | no handler logs a server's line |
| ChannelLog.TermbinLog | main.py:96-113 | the channel is the argument, else the event's target; the log is pasted exactly when it is non-empty; otherwise the reply starts `Nothing is logged from <channel> yet!` |
| ChannelLog.TermbinHint | main.py:108-113 | the `!log CHANNEL` hint is there exactly when no channel was given |
| ChannelLog.LoggedThenPasted | main.py:104-106 | after a message is logged in a channel, `!log <channel>` pastes that channel's deque, whose newest line is the message |
| Runner.Setup | main.py:95-160 | importing main.py leaves exactly the three commands, in dict order `!log`, `!src`, `!help`, and the handler table shown as `MainHandlers` |
| Runner.AddLogHandlers | main.py:140-158 | the logging decorators, run in order, give the handler table `MainHandlers` |
| Runner.HandlersBuilt | main.py:140-158 | the five appends, in decorator order, give `MainHandlers` |
| Runner.LogDescribed | main.py:95-96 | `!log` has usage `!log [CHANNEL]` and bounds [0, 1] |
| Runner.SrcDescribed | main.py:116-117 | `!src` has usage `!src` and bounds [0, 0] |
| Runner.HelpDescribed | main.py:137 | `!help` has usage `!help [COMMAND]` and bounds [0, 1] |
| Runner.LogDispatch | main.py:95-96 | `!log #c` runs termbin_log on `#c`; `!log` alone runs it with no channel |
| Runner.SrcDispatch | main.py:116-117 | `!src` with an argument only gets its usage |
| Runner.HelpFindsLog | bot.py:129-134 | `!help log` finds `!log` by ignoring punctuation |
| Runner.PrivmsgDispatched | main.py:157-158 | every parsed PRIVMSG spawns the command dispatcher and then privmsg_handler |
| Runner.PrivmsgRunsBoth | main.py:157-160 | a user's channel message is first handed to the command dispatcher and then logged |

## Left out

- Sockets and curio: the TCP connection, the stream's reads and writes, and `curio.spawn`'s concurrency (bot.py:212-214, 237). A spawned task is the record `Spawn(handler, event)`, listed in order; handlers do not run and are not scheduled.
- Handlers are named by their Python function names. What a spawned handler then does is modelled separately, in `Commands` and `ChannelLog`.
- UTF-8 decoding with `errors="replace"`: lines are already-decoded strings.
- `print` and `logging` output, including the MOTD notices echoed by `connect`.
- `inspect.signature`: a handler's parameters are given as a `Param` sequence (name, has a default).
- `_try_except_run` does not model Python exception semantics. A handler run is its replies plus an optional raised exception, given as a kind and a message.
- The termbin network paste. `LogReply.Paste` stands for pasting those lines and replying with the URL.
- `termbin_source` beyond its registration: directory changes, `glob` and reading files are I/O.
- `save_logs` and `atexit`: writing files at exit is I/O.
- Reading the log file in `log_msg`: its lines are the input `saved`, which is empty when the file does not exist. Other I/O errors are not modelled.
- `time.strftime`: the timestamp is the input `stamp`.
- The iteration order of main.py's `logs` dict: only `save_logs` uses it, and that is left out.
- replit_api.py as a whole: an HTTP client with token signing and a wall-clock expiry check, with no protocol logic.
- Strings.Upper and Strings.Lower: case mapping covers ASCII letters only. Python also maps non-ASCII letters.
- Connection.IrcBot.Send: requires an open stream. In the source, sending before `connect` fails on `None`; that failure is not modelled.
- Connection.IrcBot.Mainloop: takes the handler table as a value. Registrations made while the loop runs are not seen.
- `mainloop`'s `event.bot` and `event.reply` attachments: the reply is the separate `Reply` method.
- ChannelLog.ChannelLogs.LogMsg: the source stores a freshly loaded deque in `logs` before appending to it. Only the state after the call is stated.
- ChannelLog.ChannelLogs.InfoHandler, KickHandler and PrivmsgHandler: each requires the event to carry that handler's fields. The registrations guarantee this, because `_parse_message` always sets them for those commands.
- Registry.Registry.AddHelpCommand: the help command's docstring is copied into its descriptor when it is registered, and the method returns nothing. In the source, `do_help` reads `func.__doc__` each time and `add_help_command` returns the function so its docstring can be changed later (bot.py:111-112, 140-143); a later change is not seen by the model.
