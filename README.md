# irccom script-runner: the script language and the `run-multi` engine

This project models the core of irccom's script runner, written in Go, and proves properties of it. The runner plays one script of IRC actions against several IRC servers. It records what every client receives, so the servers' behaviour can be compared side by side.

The model covers two parts.

- **The script language** (`lib/scripts.go`).
  - `ReadScript` turns script text into a `Script`: a set of declared client ids and a sequence of actions.
  - An action is a line for a client to send and a set of verbs to wait for afterwards.
  - `Script.String` prints a script back as text.
  - `NewScriptAction` and `NewScriptResults` build the empty values (`Scripts.NewScriptAction`, `Scripts.NewScriptResults`).
- **The `run-multi` loop** (`testfw.go`).
  - For every configured server, in ascending order of id, it connects one socket per declared client and plays the actions in order.
  - Each action has three phases:
    1. It sends the action's line.
    2. When the action lists verbs, it waits "the old way" for one of them. This happens unless the client is registered (has seen `001`) and was also the last client to send a line. So a registered client still waits this way when another client sent last.
    3. When the client is registered after that, it waits "the new way": it sends `PING sync<i>` and reads until the matching `PONG`.
  - Finally it sends `QUIT` on every connection and stores the result lines under the server's id.

## How the model is organised

- **Modules.**
  - `Text`: the pieces of Go's `strings`, `strconv` and `sort` packages that the core uses, with their contracts.
  - `Scripts`: the parser and the printer, written twice.
    - Once as functions: `Parse`, `ParseLines`, `ParseLine` and one function per kind of line.
    - Once as the source's loops: `ReadScript`, `ReadLine`, `DeclareClients`, `FindSyncTarget`, `MatchActionLine`, `LowerVerbs`, `ScriptString`, `ActionString`.
    - Each method is proved equal to its function.
  - `ScriptProperties`: what the parser accepts, the errors it reports, and the invariant every parsed script keeps.
  - `Engine`: the run loop, also written twice.
    - Once as functions: `WaitStep`, `BarrierStep`, `ActionStep`, `ActionsFrom`, `ServerOutcome`, `MultiOutcome`.
    - Once as the class `ServerRun`, whose fields are the live connections and the result lines. Its methods update those fields in place.
  - `EngineProperties` and `RunProperties`: closed forms of the two wait loops, what one action does, what a whole server run leaves, and the order of the servers.
- **Servers.** A server is a map from client id to the queue of messages that client's connection will read, already parsed into command, parameters and raw text. An empty queue stands for a read error. What each client sends goes to a per-client output log.
- **Failures.** `log.Fatal` and the index panics on a short `PING` or `PONG` become a `Fatal` value. It says which action and which client stopped the run.
- **Case maps.** Case folding and lower-casing are foreign Unicode tables, so they are parameters (`CaseMaps`, `lower`). Nothing is assumed about them, except in `ScriptProperties.ParseNonEmptyIds`: there, case folding is assumed to map a non-empty string to a non-empty one (`Scripts.FoldKeepsNonEmpty`).
- **Map order.** Go walks a map in an arbitrary order; the methods here pick elements with `:|`. Each such loop is proved to give the same result whatever the order. The sorted-order loops (`Script.String` and the server list) are proved to give the one strictly sorted sequence of the keys.

## Model

| member | source | states |
|---|---|---|
| Text.TrimLeftSpTab | lib/scripts.go:101 | the result is the longest suffix of the line whose first character is not a space or a tab; only spaces and tabs were dropped |
| Text.TrimSpace | lib/scripts.go:104 | the trimmed line is empty exactly when every character is white space (`unicode.IsSpace`) |
| Text.Fields | lib/scripts.go:129 | every token is non-empty and holds no white space |
| Text.Split | lib/scripts.go:97 | at least one piece, and no piece holds the separator |
| Text.JoinSplit | lib/scripts.go:97 | joining the pieces of a split with the separator gives back the text |
| Text.IndexOf | lib/scripts.go:186-187 | the first index of the character, or the length when it does not occur |
| Text.NatToStringInjective | testfw.go:338 | distinct action indexes print as distinct decimal strings |
| Text.LessTransitive | lib/scripts.go:69 | Go's string order is transitive |
| Text.LessTotal | lib/scripts.go:69 | Go's string order is total on distinct strings |
| Text.SortedUnique | lib/scripts.go:66-69 | two strictly sorted sequences with the same elements are equal, so the gathering order of map keys does not matter |
| Text.SortStrings | lib/scripts.go:69 | the output is strictly sorted and has the same elements as the input |
| Text.SortedKeys | testfw.go:210-214 | gathering a map's keys in any order and sorting them gives the keys in ascending order |
| Scripts.DeclareClients | lib/scripts.go:134-157 | the token loop returns what `DeclareIds` gives: the first failing check in source order, or the extended client set |
| Scripts.FindSyncTarget | lib/scripts.go:177-185 | walking the ids in any order finds the id whose `<id>:` starts the folded line, or `""` |
| Scripts.MatchActionLine | lib/scripts.go:219-238 | walking the ids in any order yields exactly one action when a declared id followed by a space or a tab starts the line, none otherwise |
| Scripts.LowerVerbs | lib/scripts.go:203-209 | the wait set is the set of lower-cased verbs |
| Scripts.ReadClientLine | lib/scripts.go:126-160 | the `! ` branch returns what `ParseClientLine` gives and keeps every declared id well formed |
| Scripts.ReadSyncLine | lib/scripts.go:167-213 | the `-> ` branch returns what `ParseSyncLine` gives |
| Scripts.ReadLine | lib/scripts.go:100-123 | one pass of the loop returns what `ParseLine` gives: indentation dropped, blank lines and comments skipped, metadata stored |
| Scripts.ReadCommandLine | lib/scripts.go:125-244 | the command branches return what `ParseCommandLine` gives, malformed `!` and `-` lines included |
| Scripts.ReadScript | lib/scripts.go:91-252 | the whole parser returns `Parse(t)`: the first error in line order, the missing-client error, or the script |
| Scripts.DeclaredWellFormed | lib/scripts.go:142-155 | every id a successful declaration adds passed the reserved-start, colon and whitespace checks |
| Scripts.SyncPrefixMatch | lib/scripts.go:180 | for an id without `:`, `<id>:` starts the folded line exactly when the id is the text before its first `:` |
| Scripts.ActionPrefixMatch | lib/scripts.go:222-230 | for an id without spaces or tabs, `<id> ` or `<id>\t` starts the line exactly when the id is the text before its first space or tab |
| Scripts.AfterPrefix | lib/scripts.go:186-187 | `SplitN(line, c, 2)[1]` of a line starting with `<id><c>` is the text after that prefix |
| Scripts.ActionString | lib/scripts.go:75-85 | one action's text: a send line when it sends, and a wait line with its verbs in ascending order when it waits |
| Scripts.ScriptString | lib/scripts.go:61-89 | `Script.String` prints the clients in ascending order and then each action's text, whatever the map order |
| ScriptProperties.DeclareIdsSpec | lib/scripts.go:134-157 | a declaration succeeds exactly when every token folds to a new, well-formed id and no two tokens fold alike; it then adds exactly the folded tokens |
| ScriptProperties.SyncTargetSpec | lib/scripts.go:177-185 | the found id is declared and `<id>:` starts the folded line, and no other declared id does |
| ScriptProperties.SyncClientSpec | lib/scripts.go:177-198 | with a `:` the owner is found exactly when some declared id matches; without one it is the previous action's client exactly when that action sends a line |
| ScriptProperties.ActionForSpec | lib/scripts.go:219-238 | an action line is understood exactly when some declared id followed by a space or a tab starts it; the action's client is that one id and its line is the rest |
| Text.TrimIndent | lib/scripts.go:101 | spaces and tabs put in front of a text are all dropped again by `strings.TrimLeft(line, " \t")` |
| ScriptProperties.IndentIrrelevant | lib/scripts.go:100-101 | spaces and tabs in front of a line do not change how it is handled |
| ScriptProperties.CommandRoute | lib/scripts.go:103-123 | a line that is neither blank nor a comment is handled as a command |
| ScriptProperties.ClientRoute | lib/scripts.go:126 | a line starting with `! ` is a client declaration |
| ScriptProperties.SyncRoute | lib/scripts.go:167 | a line starting with `-> ` is a sync line |
| ScriptProperties.ActionRoute | lib/scripts.go:219-244 | a non-blank line starting with none of `#`, `!` and `-` is an action line |
| ScriptProperties.SyncLineSpec | lib/scripts.go:167-213 | a sync line fails with no earlier action; otherwise it fails only with no matching client, and on success it appends one action with no line to send, the owning client and the lower-cased verbs |
| ScriptProperties.ActionLineSpec | lib/scripts.go:219-244 | an action line appends exactly one action with the matched client, the rest of the line and no verbs, or fails as not understood |
| ScriptProperties.TrimmedMalformed | lib/scripts.go:126-217 | lines starting with `!` but not `! `, or `-` but not `-> `, are malformed; a declaration with no tokens is an error |
| ScriptProperties.TrimmedKeepsClients | lib/scripts.go:162-244 | only a `! ` line changes the client set |
| ScriptProperties.LineKeepsClients | lib/scripts.go:100-244 | the same, before the indentation is dropped |
| ScriptProperties.DeclareIdsErrors | lib/scripts.go:138-153 | a failing declaration reports its line number, or a bad id |
| ScriptProperties.ClientLineErrors | lib/scripts.go:129-153 | the same for a whole `! ` line |
| ScriptProperties.CommandErrors | lib/scripts.go:125-244 | every error of a command line carries its line number, except the bad-id errors, which carry none |
| ScriptProperties.TrimmedErrors | lib/scripts.go:103-244 | the same after the indentation is dropped |
| ScriptProperties.LineErrors | lib/scripts.go:98-244 | the same for one raw line |
| ScriptProperties.LinesErrors | lib/scripts.go:96-245 | an error from lines `n+1 ..` carries a line number in that range, or is a bad-id error |
| ScriptProperties.ParseErrors | lib/scripts.go:91-252 | every error is the missing-client error, a bad-id error, or carries a line number of the text |
| ScriptProperties.NoDeclarationKeepsClients | lib/scripts.go:96-245 | without a `! ` line the client set never changes |
| ScriptProperties.NoDeclarationFails | lib/scripts.go:247-249 | a script without a `! ` line is rejected, and with the missing-client error when every line is otherwise accepted |
| ScriptProperties.ClientLineWellFormed | lib/scripts.go:126-160 | a declaration keeps a script well formed and only adds clients |
| ScriptProperties.ActionLineWellFormed | lib/scripts.go:219-241 | an action line keeps a script well formed: its client is declared and non-empty |
| ScriptProperties.AppendWellFormed | lib/scripts.go:211 | appending an action for a declared, non-empty client keeps a script well formed |
| ScriptProperties.SyncLineWellFormed | lib/scripts.go:167-213 | a sync line keeps a script well formed and its client set |
| ScriptProperties.TrimmedWellFormed | lib/scripts.go:103-244 | any line, its indentation gone, keeps a script well formed and never removes a client |
| ScriptProperties.LineWellFormed | lib/scripts.go:98-244 | the same for a raw line |
| ScriptProperties.LinesWellFormed | lib/scripts.go:96-245 | the loop keeps a script well formed |
| ScriptProperties.ParseWellFormed | lib/scripts.go:91-252 | every parsed script declares a client, all its ids are well formed, and every action's client is a declared, non-empty id |
| ScriptProperties.DeclareIdsNonEmpty | lib/scripts.go:134-155 | declaring non-empty tokens never adds the empty id, when folding keeps non-empty strings non-empty |
| ScriptProperties.ClientLineNonEmpty | lib/scripts.go:126-160 | a `! ` line never declares the empty id: its tokens from `strings.Fields` are non-empty |
| ScriptProperties.TrimmedNonEmpty | lib/scripts.go:103-244 | no line, its indentation gone, adds the empty id |
| ScriptProperties.LineNonEmpty | lib/scripts.go:98-244 | the same for a raw line |
| ScriptProperties.LinesNonEmpty | lib/scripts.go:96-245 | the loop never adds the empty id |
| ScriptProperties.ParseNonEmptyIds | lib/scripts.go:91-252 | when case folding keeps non-empty strings non-empty, every client id of a parsed script is non-empty |
| Engine.Send | lib/socket.go:84-98 | sending appends the line to that connection's log only |
| Engine.Pop | lib/socket.go:71-82 | reading takes the head of that connection's queue only |
| Engine.WaitStep | testfw.go:288-335 | the verb wait keeps the connections; it fails only on a read error or an index panic of that action and client |
| Engine.BarrierStep | testfw.go:337-380 | the barrier keeps the connections and the registered set; it fails only on a read error or an index panic of that action and client |
| Engine.ActionStep | testfw.go:260-381 | one action keeps the connections; a failure names that action and client |
| Engine.ActionsFrom | testfw.go:260-381 | the action loop keeps the connections; a failure names an action in range and that action's client |
| Engine.Initial | testfw.go:241-251 | exactly the declared clients have a connection |
| Engine.QuitAll | testfw.go:383-387 | the disconnect loop keeps the connections |
| Engine.ServerOutcomes | testfw.go:222-394 | one outcome per configured server |
| Engine.ServerRun.constructor | testfw.go:241-251 | connecting every declared client gives the initial state |
| Engine.ServerRun.SendLine | lib/socket.go:84-98 | the line is appended to that client's output log |
| Engine.ServerRun.GetLine | lib/socket.go:71-82 | the next message, or a read error on an empty queue |
| Engine.ServerRun.WaitOldWay | testfw.go:288-335 | the verb-wait loop ends in the state `WaitStep` gives, or reports its fatal error |
| Engine.ServerRun.WaitNewWay | testfw.go:346-379 | the barrier loop ends in the state `BarrierStep` gives, or reports its fatal error |
| Engine.ServerRun.RunAction | testfw.go:260-381 | one pass of the action loop ends as `ActionStep` says |
| Engine.ServerRun.RunActions | testfw.go:260-381 | the action loop ends as `ActionsFrom` says |
| Engine.ServerRun.Disconnect | testfw.go:383-387 | every connection, in any order, gets `QUIT` |
| Engine.RunServer | testfw.go:222-391 | one server's run ends as `ServerOutcome` says |
| Engine.RunMulti | testfw.go:209-394 | the whole loop returns `MultiOutcome`: the servers in ascending order of id, stopping at the first fatal error |
| EngineProperties.WaitStepReference | testfw.go:293-334 | the verb wait equals its closed form: stop at the first non-PING message with a waited-for verb, or at the first short PING |
| EngineProperties.BarrierStepReference | testfw.go:346-379 | the barrier equals its closed form: stop at the first PONG carrying the token, or at the first short PONG or PING |
| EngineProperties.WaitEffect | testfw.go:288-335 | a completed verb wait consumed a prefix ending with the first waited-for message; it answered that prefix's PINGs, recorded the rest, registered the client exactly when a `001` was among it, and touched nothing else |
| EngineProperties.BarrierEffect | testfw.go:337-380 | a completed barrier consumed a prefix ending with the first matching PONG; it answered the PINGs, recorded everything else except that PONG, and touched nothing else |
| EngineProperties.RecordedBy | testfw.go:317-322 | every recorded line is a received message of the waiting client |
| EngineProperties.PongsArePongs | testfw.go:307-310 | every reply sent while waiting is a `PONG` |
| EngineProperties.ReadyShape | testfw.go:263-335 | after the send phase and the verb wait: one action-sync line, then only lines received by the client; the last sender changes only when a line is sent; only that client's connection changed |
| EngineProperties.ActionShape | testfw.go:260-381 | one action adds exactly one action-sync line for its client, then only lines that client received; registration only grows, and only for that client; the other clients' connections are untouched |
| EngineProperties.BarrierShape | testfw.go:337-380 | the barrier keeps the lines before it, adds only lines received by the client, and keeps registration and the last sender |
| EngineProperties.ReadySends | testfw.go:263-335 | the send phase and the verb wait send the action's line, when it has one, and then only PONGs |
| EngineProperties.BarrierSends | testfw.go:337-380 | the barrier sends `PING sync<i>` and then only PONGs |
| EngineProperties.QuietActionSends | testfw.go:260-335 | an action whose client is not registered sends its line and PONGs, with no barrier PING |
| EngineProperties.BarrierActionSends | testfw.go:260-381 | an action whose client is registered sends its line, PONGs, one `PING sync<i>`, then PONGs |
| RunProperties.SyncLinesOf | testfw.go:264-281 | one action-sync line per action |
| RunProperties.SyncLinesAppend | testfw.go:270-281 | the action-sync lines of a concatenation are those of its parts |
| RunProperties.SyncLinesReceived | testfw.go:317-375 | received lines hold no action-sync line |
| RunProperties.ActionSyncLines | testfw.go:260-381 | one action adds exactly its own action-sync line |
| RunProperties.StillConnected | testfw.go:261 | a step that keeps the connections keeps every action's client connected |
| RunProperties.Unroll | testfw.go:260-381 | a completed action loop completed its first action, and then the rest |
| RunProperties.LastSenderCons | testfw.go:285 | the last sender after an action and then more actions is the last sender of the rest, from that action's sender |
| RunProperties.UnrollShape | testfw.go:260-381 | one action's contribution to `RunShape` |
| RunProperties.ShapeCons | testfw.go:260-381 | the facts of `RunShape` compose over an action followed by the rest |
| RunProperties.RunShape | testfw.go:260-381 | the action loop adds the action-sync lines of its actions in order; the last sender is the last action with a line to send; only the actions' clients become registered |
| RunProperties.RunShapeStep | testfw.go:260-381 | the same, one action at a time |
| RunProperties.InitialConnected | testfw.go:241-261 | after connecting, every action's client has a connection |
| RunProperties.ServerRunOf | testfw.go:222-391 | a completed server run connected every client, played every action and then sent `QUIT` on every connection |
| RunProperties.ServerFailure | testfw.go:241-251 | a run fails to connect exactly when a declared client has no connection; any other failure is during an action, naming it and its client |
| RunProperties.ServerSuccess | testfw.go:222-391 | a completed run has connections for exactly the declared clients, ends each log with `QUIT`, holds one action-sync line per action in order, and registered only the actions' clients |
| RunProperties.QuitShape | testfw.go:383-387 | what the disconnect loop leaves of the action loop's facts |
| RunProperties.ServersFromSpec | testfw.go:222-394 | the servers in the given order: all stored exactly when each completes, each with its own results; otherwise the first failing server's error |
| RunProperties.OrderedServersSuccess | testfw.go:209-394 | when every server completes, every server's results are stored under its id |
| RunProperties.OrderedServersFailure | testfw.go:209-222 | when some server fails, the error is that of a server before which, in ascending order of id, every server completed |
| RunProperties.ByPosition | testfw.go:210-222 | every server completes exactly when the server at every position of the sorted list does |
| RunProperties.FirstFailure | testfw.go:210-222 | in ascending order, the servers before a position are exactly those below its id |
| RunProperties.MultiSpec | testfw.go:209-394 | `run-multi` stores every server's own results under its id exactly when every server completes; otherwise it reports the error of the least failing server, all below it having completed |
| RunProperties.SyncTokenDistinct | testfw.go:338 | different actions use different barrier tokens |

## Left out

- Sockets, TLS and connection configuration (`lib/socket.go`, `lib/config.go`): a server is a fixed map from client to the queue of messages it will read. Connection fails exactly when a declared client has no queue.
- Blocking reads and timing: an empty queue stands for a read error. What a server sends does not depend on what the clients send.
- `ircmsg.ParseLine` and its errors: messages arrive already split into command, parameters and raw text. The malformed-line `log.Fatal` is not modelled.
- `socket.Send(nil, "", "PING", syncPingString)`: the line is modelled as the text `PING sync<i>`. The ircmsg rendering is not part of this model.
- Send errors: the source ignores them, and the model's sends always succeed.
- `Socket.Disconnect` closes the connection only when it is already marked disconnected (`lib/socket.go:115`), so it never closes a live one. The model leaves it out; a run's disconnect is its `QUIT` lines.
- Trimming of `\r\n` in `Socket.GetLine` and `Socket.SendLine`: lines are taken as given.
- The command-line interface, the config loading, the single-server `run` command, the debug printing, and the HTML output (`lib/html-script-results.go`).
- `ScriptResults.Clients`: `run-multi` never fills it, so it stays the empty set.
- Case folding and `strings.ToLower`: they are parameters with no assumed properties. `cases.Fold` is not modelled.
- Go's `<` on strings compares UTF-8 bytes. `Text.Less` compares code points, which orders strings the same way.
- ScriptProperties.ParseErrors: states the reported line number as lying within the text, not as the exact number of the first failing line. `ReadScript`'s equality with `Parse` fixes that line, but no lemma names it.
- ScriptProperties.ParseNonEmptyIds: proves that client ids are non-empty only when case folding maps non-empty strings to non-empty ones. `cases.Fold` is a foreign Unicode table that this model does not include, so that property is assumed, not proved.
- ScriptProperties.ActionLineWellFormed: needs the line to start with neither a space nor a tab, which `ReadScript` guarantees by dropping the indentation first.
- Scripts.NewScriptAction: modelled as the empty action value. It has no contract, because it computes a constant.
- Scripts.NewScriptResults: modelled as the empty results value. It has no contract, for the same reason.
