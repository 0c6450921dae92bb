/** testfw.go, `run-multi`: every script action is played against every
    configured server in turn.  A server is modelled by what each client's
    connection will read from it: a queue of already parsed IRC messages.
    What each client sends is kept in a per-client output log. */
module Engine {
  import opened Wrappers
  import opened Text
  import opened Scripts

  /** A line read from the server, as `ircmsg.ParseLine` leaves it: the
      command, its parameters and the raw text. */
  datatype Message = Message(command: string, params: seq<string>, raw: string)

  /** The ways a run stops with `log.Fatal` or an index panic. */
  datatype Fatal =
    | ConnectFailed(server: string)
    | ReadFailed(action: nat, client: string)
    | IndexPanic(action: nat, client: string, raw: string)

  /** The state of one server's run: the unread input and the output log of
      every connected client, the clients that saw `001`, the last client
      that sent a line, and the result lines (`sr.Lines`). */
  datatype RunState = RunState(
    inbox: map<string, seq<Message>>,
    outbox: map<string, seq<string>>,
    registered: set<string>,
    lastClientSent: string,
    lines: seq<ScriptResultLine>)

  /** A fatal error raised while client `c` plays action `i`. */
  predicate DuringAction(e: Fatal, i: nat, c: string) {
    (e.ReadFailed? || e.IndexPanic?) && e.action == i && e.client == c
  }

  predicate Connected(st: RunState, c: string) {
    c in st.inbox && c in st.outbox
  }

  /** The connections are the same ones before and after a step. */
  predicate SameConnections(st: RunState, st': RunState) {
    st'.inbox.Keys == st.inbox.Keys && st'.outbox.Keys == st.outbox.Keys
  }

  /** `Socket.SendLine` on client `c`'s connection. */
  function Send(st: RunState, c: string, line: string): (r: RunState)
    requires c in st.outbox
    ensures SameConnections(st, r) && r.outbox[c] == st.outbox[c] + [line]
  {
    st.(outbox := st.outbox[c := st.outbox[c] + [line]])
  }

  /** `Socket.GetLine` on client `c`'s connection, when a line is there. */
  function Pop(st: RunState, c: string): (r: RunState)
    requires c in st.inbox && st.inbox[c] != []
    ensures SameConnections(st, r) && r.inbox[c] == st.inbox[c][1..]
  {
    st.(inbox := st.inbox[c := st.inbox[c][1..]])
  }

  /** Appends a received line to the results. */
  function Record(st: RunState, c: string, raw: string): RunState {
    st.(lines := st.lines + [ScriptResultLine(ResultIRCMessage, c, raw)])
  }

  /** The reply to a PING: `PONG :<first param>`. */
  function PongTo(m: Message): string
    requires |m.params| > 0
  {
    "PONG :" + m.params[0]
  }

  /** The barrier token of action `i`: `sync<i>`. */
  function SyncToken(i: nat): string {
    "sync" + NatToString(i)
  }

  /** The send phase: the action-sync result line, and the line itself
      when there is one to send. */
  function SendStep(st: RunState, a: ScriptAction): (r: RunState)
    requires a.client in st.outbox
    ensures SameConnections(st, r)
  {
    var synced := [ScriptResultLine(ResultActionSync, a.client, a.lineToSend)];
    if a.lineToSend == "" then st.(lines := st.lines + synced)
    else Send(st, a.client, a.lineToSend).(lines := st.lines + synced, lastClientSent := a.client)
  }

  /** Whether the verb-wait ("old way") loop runs for action `a`. */
  predicate WaitsOldWay(st: RunState, a: ScriptAction) {
    0 < |a.waitAfterFor| && (a.client !in st.registered || st.lastClientSent != a.client)
  }

  /** The verb-wait loop of client `c` in action `i`: lines are read until
      one whose lower-cased verb is in `verbs`; PINGs are answered and not
      recorded, `001` registers the client, everything else is recorded. */
  function WaitStep(st: RunState, c: string, verbs: set<string>, i: nat, lower: string -> string): (r: Result<RunState, Fatal>)
    requires Connected(st, c)
    ensures r.Success? ==> SameConnections(st, r.value)
    ensures r.Failure? ==> DuringAction(r.error, i, c)
    decreases |st.inbox[c]|
  {
    if st.inbox[c] == [] then Failure(ReadFailed(i, c))
    else
      var m := st.inbox[c][0];
      var next := Pop(st, c);
      var verb := lower(m.command);
      if verb == "ping" then
        if |m.params| == 0 then Failure(IndexPanic(i, c, m.raw))
        else WaitStep(Send(next, c, PongTo(m)), c, verbs, i, lower)
      else
        var seen := Record(next.(registered := if verb == "001" then next.registered + {c} else next.registered), c, m.raw);
        if verb in verbs then Success(seen)
        else WaitStep(seen, c, verbs, i, lower)
  }

  /** The PING barrier ("new way") loop of client `c` in action `i`, after
      `PING <token>` was sent: lines are read until the PONG carrying the
      token, which is not recorded; PINGs are answered and not recorded,
      everything else is recorded.  A PONG with fewer than two parameters
      is an index panic. */
  function BarrierStep(st: RunState, c: string, token: string, i: nat, lower: string -> string): (r: Result<RunState, Fatal>)
    requires Connected(st, c)
    ensures r.Success? ==> SameConnections(st, r.value) && r.value.registered == st.registered
    ensures r.Failure? ==> DuringAction(r.error, i, c)
    decreases |st.inbox[c]|
  {
    if st.inbox[c] == [] then Failure(ReadFailed(i, c))
    else
      var m := st.inbox[c][0];
      var next := Pop(st, c);
      var verb := lower(m.command);
      if verb == "pong" && |m.params| < 2 then Failure(IndexPanic(i, c, m.raw))
      else if verb == "pong" && m.params[1] == token then Success(next)
      else if verb == "ping" then
        if |m.params| == 0 then Failure(IndexPanic(i, c, m.raw))
        else BarrierStep(Send(next, c, PongTo(m)), c, token, i, lower)
      else BarrierStep(Record(next, c, m.raw), c, token, i, lower)
  }

  /** Action `i` in full: send phase, verb wait when it applies, and the
      barrier whenever the client is registered after the verb wait. */
  function ActionStep(st: RunState, a: ScriptAction, i: nat, lower: string -> string): (r: Result<RunState, Fatal>)
    requires Connected(st, a.client)
    ensures r.Success? ==> SameConnections(st, r.value)
    ensures r.Failure? ==> DuringAction(r.error, i, a.client)
  {
    var c := a.client;
    var sent := SendStep(st, a);
    var waited := if WaitsOldWay(sent, a) then WaitStep(sent, c, a.waitAfterFor, i, lower) else Success(sent);
    match waited
    case Failure(e) => Failure(e)
    case Success(ready) =>
      if c in ready.registered then BarrierStep(Send(ready, c, "PING " + SyncToken(i)), c, SyncToken(i), i, lower)
      else Success(ready)
  }

  predicate AllConnected(st: RunState, actions: seq<ScriptAction>) {
    forall k :: 0 <= k < |actions| ==> Connected(st, actions[k].client)
  }

  /** The actions from index `i` on, in order; the first fatal error stops
      the run. */
  function ActionsFrom(st: RunState, actions: seq<ScriptAction>, i: nat, lower: string -> string): (r: Result<RunState, Fatal>)
    requires i <= |actions| && AllConnected(st, actions)
    ensures r.Success? ==> SameConnections(st, r.value)
    ensures r.Failure? ==> !r.error.ConnectFailed? && i <= r.error.action < |actions| && DuringAction(r.error, r.error.action, actions[r.error.action].client)
    decreases |actions| - i
  {
    if i == |actions| then Success(st)
    else
      match ActionStep(st, actions[i], i, lower)
      case Failure(e) => Failure(e)
      case Success(next) => ActionsFrom(next, actions, i + 1, lower)
  }

  /** A fresh run: one connection per declared client, nothing registered,
      no last sender, no result lines. */
  function Initial(clients: set<string>, queues: map<string, seq<Message>>): (r: RunState)
    requires clients <= queues.Keys
    ensures r.inbox.Keys == clients && r.outbox.Keys == clients
  {
    RunState(map c | c in clients :: queues[c], map c | c in clients :: [], {}, "", [])
  }

  /** The disconnect loop: every connection sends `QUIT`. */
  function QuitAll(st: RunState): (r: RunState)
    ensures SameConnections(st, r)
  {
    st.(outbox := Quitting(st.outbox, {}))
  }

  /** The output logs while the disconnect loop runs: the connections in
      `pending` have not sent `QUIT` yet. */
  function Quitting(outbox: map<string, seq<string>>, pending: set<string>): map<string, seq<string>> {
    map c | c in outbox :: if c in pending then outbox[c] else outbox[c] + ["QUIT"]
  }

  /** Every action's client is a declared client, as `ReadScript` ensures. */
  predicate ActionsDeclared(script: Script) {
    forall k :: 0 <= k < |script.actions| ==> script.actions[k].client in script.clients
  }

  /** One server's run, from connecting to disconnecting. */
  function ServerOutcome(script: Script, queues: map<string, seq<Message>>, server: string, lower: string -> string): Result<RunState, Fatal>
    requires ActionsDeclared(script)
  {
    if !(script.clients <= queues.Keys) then Failure(ConnectFailed(server))
    else
      match ActionsFrom(Initial(script.clients, queues), script.actions, 0, lower)
      case Failure(e) => Failure(e)
      case Success(st) => Success(QuitAll(st))
  }

  /** What is stored for a server: its result lines. */
  function Results(st: RunState): ScriptResults {
    NewScriptResults().(lines := st.lines)
  }

  /** Every server's own run: each server gets a fresh run, so its outcome
      depends on nothing but the script and that server's connections. */
  function ServerOutcomes(script: Script, servers: map<string, map<string, seq<Message>>>, lower: string -> string)
    : (r: map<string, Result<RunState, Fatal>>)
    requires ActionsDeclared(script)
    ensures r.Keys == servers.Keys
  {
    map s | s in servers :: ServerOutcome(script, servers[s], s, lower)
  }

  /** The servers `ids[k..]` in order, each result stored under its id;
      the first fatal error stops everything. */
  function ServersFrom(outcomes: map<string, Result<RunState, Fatal>>, ids: seq<string>, k: nat,
                       acc: map<string, ScriptResults>): Result<map<string, ScriptResults>, Fatal>
    requires k <= |ids| && Elems(ids) <= outcomes.Keys
    decreases |ids| - k
  {
    if k == |ids| then Success(acc)
    else
      assert ids[k] in Elems(ids);
      match outcomes[ids[k]]
      case Failure(e) => Failure(e)
      case Success(st) => ServersFrom(outcomes, ids, k + 1, acc[ids[k] := Results(st)])
  }

  /** The whole `run-multi` loop: the servers in ascending order of id. */
  ghost function MultiOutcome(script: Script, servers: map<string, map<string, seq<Message>>>, lower: string -> string): Result<map<string, ScriptResults>, Fatal>
    requires ActionsDeclared(script)
  {
    ServersFrom(ServerOutcomes(script, servers, lower), SortedSeq(servers.Keys), 0, map[])
  }

  /** The outcome `r` of a step, as a method reports it: the fatal error,
      or none and the new state. */
  predicate Reports(r: Result<RunState, Fatal>, err: Option<Fatal>, st: RunState) {
    match r
    case Failure(e) => err == Some(e)
    case Success(s) => err == None && st == s
  }

  // ---------------------------------------------------------------------
  // The loop as the source writes it, over one server's connections.
  // ---------------------------------------------------------------------

  class ServerRun {
    var inbox: map<string, seq<Message>>
    var outbox: map<string, seq<string>>
    var registered: set<string>
    var lastClientSent: string
    var lines: seq<ScriptResultLine>

    function State(): RunState
      reads this
    {
      RunState(inbox, outbox, registered, lastClientSent, lines)
    }

    /** Connects one socket per declared client. */
    constructor (clients: set<string>, queues: map<string, seq<Message>>)
      requires clients <= queues.Keys
      ensures State() == Initial(clients, queues)
    {
      inbox := map c | c in clients :: queues[c];
      outbox := map c | c in clients :: [];
      registered := {};
      lastClientSent := "";
      lines := [];
    }

    method SendLine(c: string, line: string)
      requires c in outbox
      modifies this
      ensures State() == Send(old(State()), c, line)
    {
      outbox := outbox[c := outbox[c] + [line]];
    }

    /** The next line on `c`'s connection; none stands for a read error. */
    method GetLine(c: string) returns (m: Option<Message>)
      requires c in inbox
      modifies this
      ensures old(inbox[c]) == [] ==> m == None && State() == old(State())
      ensures old(inbox[c]) != [] ==> m == Some(old(inbox[c][0])) && State() == Pop(old(State()), c)
    {
      if inbox[c] == [] {
        return None;
      }
      m := Some(inbox[c][0]);
      inbox := inbox[c := inbox[c][1..]];
    }

    /** The verb-wait loop. */
    method WaitOldWay(c: string, verbs: set<string>, i: nat, lower: string -> string) returns (err: Option<Fatal>)
      requires Connected(State(), c)
      modifies this
      ensures Reports(WaitStep(old(State()), c, verbs, i, lower), err, State())
    {
      while true
        invariant Connected(State(), c)
        invariant WaitStep(State(), c, verbs, i, lower) == WaitStep(old(State()), c, verbs, i, lower)
        decreases |inbox[c]|
      {
        var got := GetLine(c);
        if got.None? {
          return Some(ReadFailed(i, c));
        }
        var line := got.value;
        var verb := lower(line.command);
        ghost var popped := State();
        if verb == "ping" {
          if |line.params| == 0 {
            return Some(IndexPanic(i, c, line.raw));
          }
          SendLine(c, "PONG :" + line.params[0]);
          continue;
        }
        if verb == "001" {
          registered := registered + {c};
        }
        lines := lines + [ScriptResultLine(ResultIRCMessage, c, line.raw)];
        assert State() == Record(popped.(registered := if verb == "001" then popped.registered + {c} else popped.registered), c, line.raw);
        if verb in verbs {
          return None;
        }
      }
    }

    /** The barrier loop, after `PING <token>` was sent. */
    method WaitNewWay(c: string, token: string, i: nat, lower: string -> string) returns (err: Option<Fatal>)
      requires Connected(State(), c)
      modifies this
      ensures Reports(BarrierStep(old(State()), c, token, i, lower), err, State())
    {
      while true
        invariant Connected(State(), c)
        invariant BarrierStep(State(), c, token, i, lower) == BarrierStep(old(State()), c, token, i, lower)
        decreases |inbox[c]|
      {
        var got := GetLine(c);
        if got.None? {
          return Some(ReadFailed(i, c));
        }
        var line := got.value;
        var verb := lower(line.command);
        if verb == "pong" && |line.params| < 2 {
          return Some(IndexPanic(i, c, line.raw));
        }
        if verb == "pong" && line.params[1] == token {
          return None;
        }
        if verb == "ping" {
          if |line.params| == 0 {
            return Some(IndexPanic(i, c, line.raw));
          }
          SendLine(c, "PONG :" + line.params[0]);
          continue;
        }
        lines := lines + [ScriptResultLine(ResultIRCMessage, c, line.raw)];
      }
    }

    /** One pass of the action loop. */
    method RunAction(a: ScriptAction, i: nat, lower: string -> string) returns (err: Option<Fatal>)
      requires Connected(State(), a.client)
      modifies this
      ensures Reports(ActionStep(old(State()), a, i, lower), err, State())
    {
      var c := a.client;
      if a.lineToSend == "" {
        lines := lines + [ScriptResultLine(ResultActionSync, c, "")];
      } else {
        SendLine(c, a.lineToSend);
        lines := lines + [ScriptResultLine(ResultActionSync, c, a.lineToSend)];
        lastClientSent := c;
      }
      assert State() == SendStep(old(State()), a);
      if 0 < |a.waitAfterFor| && (c !in registered || lastClientSent != c) {
        err := WaitOldWay(c, a.waitAfterFor, i, lower);
        if err.Some? {
          return;
        }
      }
      var syncPingString := "sync" + NatToString(i);
      if c in registered {
        SendLine(c, "PING " + syncPingString);
        err := WaitNewWay(c, syncPingString, i, lower);
        return;
      }
      err := None;
    }

    /** The action loop. */
    method RunActions(actions: seq<ScriptAction>, lower: string -> string) returns (err: Option<Fatal>)
      requires AllConnected(State(), actions)
      modifies this
      ensures Reports(ActionsFrom(old(State()), actions, 0, lower), err, State())
    {
      for i := 0 to |actions|
        invariant AllConnected(State(), actions)
        invariant ActionsFrom(State(), actions, i, lower) == ActionsFrom(old(State()), actions, 0, lower)
      {
        err := RunAction(actions[i], i, lower);
        if err.Some? {
          return;
        }
      }
      err := None;
    }

    /** The disconnect loop, over the connections in the map's arbitrary
      order; every connection ends up with one more line, `QUIT`. */
    method Disconnect()
      modifies this
      ensures State() == QuitAll(old(State()))
    {
      var pending := outbox.Keys;
      while pending != {}
        invariant pending <= outbox.Keys == old(outbox.Keys)
        invariant forall c :: c in outbox ==> outbox[c] == if c in pending then old(outbox[c]) else old(outbox[c]) + ["QUIT"]
        invariant inbox == old(inbox) && registered == old(registered)
        invariant lastClientSent == old(lastClientSent) && lines == old(lines)
        decreases |pending|
      {
        var c :| c in pending;
        SendLine(c, "QUIT");
        pending := pending - {c};
      }
      assert outbox == Quitting(old(outbox), {});
    }
  }

  /** One server: connect every declared client, run the actions,
      disconnect. */
  method RunServer(script: Script, queues: map<string, seq<Message>>, server: string, lower: string -> string)
    returns (r: Result<RunState, Fatal>)
    requires ActionsDeclared(script)
    ensures r == ServerOutcome(script, queues, server, lower)
  {
    var pending := script.clients;
    while pending != {}
      invariant pending <= script.clients && script.clients - pending <= queues.Keys
      decreases |pending|
    {
      var c :| c in pending;
      if c !in queues {
        return Failure(ConnectFailed(server));
      }
      pending := pending - {c};
    }
    var run := new ServerRun(script.clients, queues);
    var err := run.RunActions(script.actions, lower);
    if err.Some? {
      return Failure(err.value);
    }
    run.Disconnect();
    return Success(run.State());
  }

  /** `run-multi`: the server ids are gathered in the map's arbitrary order
      and sorted, and each server gets a fresh run. */
  method RunMulti(script: Script, servers: map<string, map<string, seq<Message>>>, lower: string -> string)
    returns (r: Result<map<string, ScriptResults>, Fatal>)
    requires ActionsDeclared(script)
    ensures r == MultiOutcome(script, servers, lower)
  {
    var serverIDsSorted := SortedKeys(servers.Keys);
    var scriptResults: map<string, ScriptResults> := map[];
    for k := 0 to |serverIDsSorted|
      invariant ServersFrom(ServerOutcomes(script, servers, lower), serverIDsSorted, k, scriptResults) == MultiOutcome(script, servers, lower)
    {
      var id := serverIDsSorted[k];
      assert id in Elems(serverIDsSorted);
      var outcome := RunServer(script, servers[id], id, lower);
      if outcome.Failure? {
        return Failure(outcome.error);
      }
      scriptResults := scriptResults[id := Results(outcome.value)];
    }
    return Success(scriptResults);
  }
}
