/** Properties of a whole server run and of the `run-multi` loop over all
    servers, built on the per-action facts of `EngineProperties`. */
module RunProperties {
  import opened Wrappers
  import opened Text
  import opened Scripts
  import opened Engine
  import opened EngineProperties

  // ---------------------------------------------------------------------
  // Action-sync lines.
  // ---------------------------------------------------------------------

  /** The action-sync lines among `lines`, in order. */
  function SyncLines(lines: seq<ScriptResultLine>): seq<ScriptResultLine>
    decreases |lines|
  {
    if lines == [] then []
    else (if lines[0].lineType == ResultActionSync then [lines[0]] else []) + SyncLines(lines[1..])
  }

  /** One action-sync line per action, in order. */
  function SyncLinesOf(actions: seq<ScriptAction>): (r: seq<ScriptResultLine>)
    ensures |r| == |actions|
  {
    if actions == [] then [] else [SyncLine(actions[0])] + SyncLinesOf(actions[1..])
  }

  lemma {:induction false} SyncLinesAppend(x: seq<ScriptResultLine>, y: seq<ScriptResultLine>)
    ensures SyncLines(x + y) == SyncLines(x) + SyncLines(y)
    decreases |x|
  {
    if x == [] {
      assert x + y == y;
    } else {
      var head := if x[0].lineType == ResultActionSync then [x[0]] else [];
      assert (x + y)[0] == x[0] && (x + y)[1..] == x[1..] + y;
      SyncLinesAppend(x[1..], y);
      calc {
        SyncLines(x + y);
        head + SyncLines(x[1..] + y);
        head + (SyncLines(x[1..]) + SyncLines(y));
        (head + SyncLines(x[1..])) + SyncLines(y);
      }
    }
  }

  lemma {:induction false} SyncLinesReceived(lines: seq<ScriptResultLine>, c: string)
    requires ReceivedBy(lines, c)
    ensures SyncLines(lines) == []
    decreases |lines|
  {
    if lines != [] {
      SyncLinesReceived(lines[1..], c);
    }
  }

  /** One action adds exactly its own action-sync line. */
  lemma ActionSyncLines(st: RunState, a: ScriptAction, i: nat, lower: string -> string, after: RunState)
    requires Connected(st, a.client) && ActionStep(st, a, i, lower) == Success(after)
    ensures SyncLines(after.lines) == SyncLines(st.lines) + [SyncLine(a)]
  {
    ActionShape(st, a, i, lower);
    var n := |st.lines| + 1;
    var rest := after.lines[n..];
    assert after.lines == st.lines + [SyncLine(a)] + rest by {
      assert after.lines == after.lines[..n] + rest;
    }
    SyncLinesAppend(st.lines + [SyncLine(a)], rest);
    SyncLinesAppend(st.lines, [SyncLine(a)]);
    SyncLinesReceived(rest, a.client);
    assert SyncLines([SyncLine(a)]) == [SyncLine(a)] + SyncLines([]);
  }

  /** The connections do not change, so every action's client stays
      connected. */
  lemma StillConnected(st: RunState, st': RunState, actions: seq<ScriptAction>)
    requires AllConnected(st, actions) && SameConnections(st, st')
    ensures AllConnected(st', actions)
  {
    forall k | 0 <= k < |actions| ensures Connected(st', actions[k].client) {
      assert Connected(st, actions[k].client);
    }
  }

  /** A run that completes completes its first action, and the rest of the
      run starts from the state that action leaves. */
  lemma Unroll(st: RunState, actions: seq<ScriptAction>, i: nat, lower: string -> string) returns (next: RunState)
    requires i < |actions| && AllConnected(st, actions) && ActionsFrom(st, actions, i, lower).Success?
    ensures Connected(st, actions[i].client) && ActionStep(st, actions[i], i, lower) == Success(next)
    ensures AllConnected(next, actions)
    ensures ActionsFrom(next, actions, i + 1, lower) == ActionsFrom(st, actions, i, lower)
  {
    assert Connected(st, actions[i].client);
    next := ActionStep(st, actions[i], i, lower).value;
    StillConnected(st, next, actions);
  }

  /** A run of no actions leaves the state as it is. */
  lemma RunEnd(st: RunState, actions: seq<ScriptAction>, lower: string -> string, final: RunState)
    requires AllConnected(st, actions) && ActionsFrom(st, actions, |actions|, lower) == Success(final)
    ensures final == st
  {
  }

  /** The client of the last action in `actions` that has a line to send,
      or `prev` when none has. */
  function LastSender(actions: seq<ScriptAction>, prev: string): string
    decreases |actions|
  {
    if actions == [] then prev
    else if actions[|actions| - 1].lineToSend != "" then actions[|actions| - 1].client
    else LastSender(actions[..|actions| - 1], prev)
  }

  lemma {:induction false} LastSenderCons(a: ScriptAction, rest: seq<ScriptAction>, prev: string)
    ensures LastSender([a] + rest, prev) == LastSender(rest, if a.lineToSend != "" then a.client else prev)
    decreases |rest|
  {
    if rest == [] {
      assert ([a] + rest)[..0] == [];
    } else {
      var n := |rest|;
      assert ([a] + rest)[..n] == [a] + rest[..n - 1];
      LastSenderCons(a, rest[..n - 1], prev);
    }
  }

  /** The clients of `actions`. */
  function ClientsOf(actions: seq<ScriptAction>): set<string> {
    set k | 0 <= k < |actions| :: actions[k].client
  }

  /** What one action contributes to the facts `RunShape` states. */
  lemma UnrollShape(st: RunState, actions: seq<ScriptAction>, i: nat, lower: string -> string) returns (next: RunState)
    requires i < |actions| && AllConnected(st, actions) && ActionsFrom(st, actions, i, lower).Success?
    ensures AllConnected(next, actions)
    ensures ActionsFrom(next, actions, i + 1, lower) == ActionsFrom(st, actions, i, lower)
    ensures SyncLines(next.lines) == SyncLines(st.lines) + [SyncLine(actions[i])]
    ensures next.lastClientSent == (if actions[i].lineToSend != "" then actions[i].client else st.lastClientSent)
    ensures st.registered <= next.registered <= st.registered + {actions[i].client}
  {
    next := Unroll(st, actions, i, lower);
    ActionShape(st, actions[i], i, lower);
    ActionSyncLines(st, actions[i], i, lower, next);
  }

  /** The facts `RunShape` states, for action `i` followed by the rest. */
  lemma ShapeCons(actions: seq<ScriptAction>, i: nat, st: RunState, next: RunState, final: RunState)
    requires i < |actions|
    requires SyncLines(next.lines) == SyncLines(st.lines) + [SyncLine(actions[i])]
    requires next.lastClientSent == (if actions[i].lineToSend != "" then actions[i].client else st.lastClientSent)
    requires st.registered <= next.registered <= st.registered + {actions[i].client}
    requires SyncLines(final.lines) == SyncLines(next.lines) + SyncLinesOf(actions[i + 1..])
    requires final.lastClientSent == LastSender(actions[i + 1..], next.lastClientSent)
    requires next.registered <= final.registered <= next.registered + ClientsOf(actions[i + 1..])
    ensures SyncLines(final.lines) == SyncLines(st.lines) + SyncLinesOf(actions[i..])
    ensures final.lastClientSent == LastSender(actions[i..], st.lastClientSent)
    ensures st.registered <= final.registered <= st.registered + ClientsOf(actions[i..])
  {
    assert actions[i..] == [actions[i]] + actions[i + 1..];
    var x, rest := SyncLines(st.lines), SyncLinesOf(actions[i + 1..]);
    assert SyncLinesOf(actions[i..]) == [SyncLine(actions[i])] + rest by {
      assert actions[i..][1..] == actions[i + 1..];
    }
    assert (x + [SyncLine(actions[i])]) + rest == x + ([SyncLine(actions[i])] + rest);
    LastSenderCons(actions[i], actions[i + 1..], st.lastClientSent);
    assert ClientsOf(actions[i..]) == {actions[i].client} + ClientsOf(actions[i + 1..]) by {
      assert actions[i..][0] == actions[i];
      forall x | x in ClientsOf(actions[i..]) ensures x in {actions[i].client} + ClientsOf(actions[i + 1..]) {
        var k :| 0 <= k < |actions[i..]| && actions[i..][k].client == x;
        if k > 0 { assert actions[i + 1..][k - 1] == actions[i..][k]; }
      }
    }
  }

  /** What the actions from `i` on do to a run: they add one action-sync
      line each, in order, so the results show where every action
      started; the last sender becomes the client of the last of them that
      sent a line (or stays as it was); registration only grows, and only
      for clients that play one of them. */
  lemma {:induction false} RunShape(st: RunState, actions: seq<ScriptAction>, i: nat, lower: string -> string, final: RunState)
    requires i <= |actions| && AllConnected(st, actions) && ActionsFrom(st, actions, i, lower) == Success(final)
    ensures SyncLines(final.lines) == SyncLines(st.lines) + SyncLinesOf(actions[i..])
    ensures final.lastClientSent == LastSender(actions[i..], st.lastClientSent)
    ensures st.registered <= final.registered <= st.registered + ClientsOf(actions[i..])
    decreases |actions| - i, 1
  {
    if i == |actions| {
      RunEnd(st, actions, lower, final);
      assert actions[i..] == [];
      assert SyncLines(st.lines) + [] == SyncLines(st.lines);
    } else {
      RunShapeStep(st, actions, i, lower, final);
    }
  }

  lemma {:induction false} RunShapeStep(st: RunState, actions: seq<ScriptAction>, i: nat, lower: string -> string, final: RunState)
    requires i < |actions| && AllConnected(st, actions) && ActionsFrom(st, actions, i, lower) == Success(final)
    ensures SyncLines(final.lines) == SyncLines(st.lines) + SyncLinesOf(actions[i..])
    ensures final.lastClientSent == LastSender(actions[i..], st.lastClientSent)
    ensures st.registered <= final.registered <= st.registered + ClientsOf(actions[i..])
    decreases |actions| - i, 0
  {
    var next := UnrollShape(st, actions, i, lower);
    RunShape(next, actions, i + 1, lower, final);
    ShapeCons(actions, i, st, next, final);
  }

  // ---------------------------------------------------------------------
  // One server.
  // ---------------------------------------------------------------------

  lemma InitialConnected(script: Script, queues: map<string, seq<Message>>)
    requires ActionsDeclared(script) && script.clients <= queues.Keys
    ensures AllConnected(Initial(script.clients, queues), script.actions)
  {
    forall k | 0 <= k < |script.actions| ensures Connected(Initial(script.clients, queues), script.actions[k].client) {
      assert script.actions[k].client in script.clients;
    }
  }

  /** A server run that completes connected every client, played every
      action, then disconnected. */
  lemma ServerRunOf(script: Script, queues: map<string, seq<Message>>, server: string, lower: string -> string, final: RunState)
    returns (run: RunState)
    requires ActionsDeclared(script) && ServerOutcome(script, queues, server, lower) == Success(final)
    ensures script.clients <= queues.Keys && AllConnected(Initial(script.clients, queues), script.actions)
    ensures ActionsFrom(Initial(script.clients, queues), script.actions, 0, lower) == Success(run)
    ensures final == QuitAll(run)
  {
    InitialConnected(script, queues);
    run := ActionsFrom(Initial(script.clients, queues), script.actions, 0, lower).value;
  }

  /** A server run fails to connect exactly when a declared client has no
      connection; every other failure names an action of the script and
      the client playing it. */
  lemma ServerFailure(script: Script, queues: map<string, seq<Message>>, server: string, lower: string -> string)
    requires ActionsDeclared(script)
    ensures ServerOutcome(script, queues, server, lower) == Failure(ConnectFailed(server)) <==> !(script.clients <= queues.Keys)
    ensures var r := ServerOutcome(script, queues, server, lower);
            r.Failure? && !r.error.ConnectFailed? ==>
              r.error.action < |script.actions| && DuringAction(r.error, r.error.action, script.actions[r.error.action].client)
  {
    if script.clients <= queues.Keys {
      InitialConnected(script, queues);
    }
  }

  /** A server run that completes: every declared client, and only those,
      is connected and ends by sending `QUIT`; the results hold one
      action-sync line per action, in script order; only clients that play
      an action are registered; the last sender is the client of the last
      action that sent a line. */
  lemma ServerSuccess(script: Script, queues: map<string, seq<Message>>, server: string, lower: string -> string, final: RunState)
    requires ActionsDeclared(script) && ServerOutcome(script, queues, server, lower) == Success(final)
    ensures final.inbox.Keys == script.clients && final.outbox.Keys == script.clients
    ensures forall c :: c in final.outbox ==> |final.outbox[c]| > 0 && final.outbox[c][|final.outbox[c]| - 1] == "QUIT"
    ensures SyncLines(final.lines) == SyncLinesOf(script.actions)
    ensures final.registered <= ClientsOf(script.actions)
    ensures final.lastClientSent == LastSender(script.actions, "")
  {
    var init := Initial(script.clients, queues);
    var run := ServerRunOf(script, queues, server, lower, final);
    RunShape(init, script.actions, 0, lower, run);
    QuitShape(script, init, run, final);
  }

  /** `ServerSuccess` from the facts `RunShape` states about the run before
      the disconnect loop. */
  lemma QuitShape(script: Script, init: RunState, run: RunState, final: RunState)
    requires init.inbox.Keys == script.clients && init.outbox.Keys == script.clients
    requires init.lines == [] && init.registered == {} && init.lastClientSent == ""
    requires SameConnections(init, run) && final == QuitAll(run)
    requires SyncLines(run.lines) == SyncLines(init.lines) + SyncLinesOf(script.actions[0..])
    requires run.lastClientSent == LastSender(script.actions[0..], init.lastClientSent)
    requires init.registered <= run.registered <= init.registered + ClientsOf(script.actions[0..])
    ensures final.inbox.Keys == script.clients && final.outbox.Keys == script.clients
    ensures forall c :: c in final.outbox ==> |final.outbox[c]| > 0 && final.outbox[c][|final.outbox[c]| - 1] == "QUIT"
    ensures SyncLines(final.lines) == SyncLinesOf(script.actions)
    ensures final.registered <= ClientsOf(script.actions)
    ensures final.lastClientSent == LastSender(script.actions, "")
  {
    assert script.actions[0..] == script.actions;
    assert [] + SyncLinesOf(script.actions) == SyncLinesOf(script.actions);
  }

  // ---------------------------------------------------------------------
  // All servers.
  // ---------------------------------------------------------------------

  /** What the servers `ids[k..]` do, given each server's outcome: they
      all complete exactly when each of them does, and then every one of
      them has its results stored under its id and nothing else changes;
      otherwise the error is that of the first of them that fails, and all
      the servers before it completed. */
  lemma {:induction false} ServersFromSpec(outcomes: map<string, Result<RunState, Fatal>>, ids: seq<string>, k: nat, acc: map<string, ScriptResults>)
    requires k <= |ids| && Elems(ids) <= outcomes.Keys
    ensures var r := ServersFrom(outcomes, ids, k, acc);
            && (r.Success? <==> forall j :: k <= j < |ids| ==> outcomes[ids[j]].Success?)
            && (r.Success? ==> r.value.Keys == acc.Keys + Elems(ids[k..]))
            && (r.Success? ==> forall j :: k <= j < |ids| ==> r.value[ids[j]] == Results(outcomes[ids[j]].value))
            && (r.Success? ==> forall x :: x in acc && x !in Elems(ids[k..]) ==> r.value[x] == acc[x])
            && (r.Failure? ==> exists j :: k <= j < |ids| && outcomes[ids[j]] == Failure(r.error)
                                         && forall j' :: k <= j' < j ==> outcomes[ids[j']].Success?)
    decreases |ids| - k
  {
    if k < |ids| {
      assert ids[k] in Elems(ids);
      assert Elems(ids[k..]) == {ids[k]} + Elems(ids[k + 1..]) by {
        assert ids[k..] == [ids[k]] + ids[k + 1..];
      }
      match outcomes[ids[k]]
      case Failure(e) =>
      case Success(st) =>
        var acc' := acc[ids[k] := Results(st)];
        ServersFromSpec(outcomes, ids, k + 1, acc');
        var r := ServersFrom(outcomes, ids, k + 1, acc');
        if r.Success? {
          forall j | k <= j < |ids| ensures r.value[ids[j]] == Results(outcomes[ids[j]].value) {
            if j == k && ids[k] !in Elems(ids[k + 1..]) {
              assert ids[k] in acc';
            }
          }
        }
    } else {
      assert ids[k..] == [];
    }
  }

  /** The servers taken in the order of `ids`, which lists each of them
      once, complete exactly when every one of them does, and then every
      server's results are stored under its id, and nothing else is. */
  lemma OrderedServersSuccess(outcomes: map<string, Result<RunState, Fatal>>, ids: seq<string>)
    requires Elems(ids) == outcomes.Keys
    ensures var r := ServersFrom(outcomes, ids, 0, map[]);
            && (r.Success? <==> forall s :: s in outcomes ==> outcomes[s].Success?)
            && (r.Success? ==> r.value.Keys == outcomes.Keys)
            && (r.Success? ==> forall s :: s in outcomes ==> r.value[s] == Results(outcomes[s].value))
  {
    ServersFromSpec(outcomes, ids, 0, map[]);
    assert ids[0..] == ids;
    ByPosition(outcomes, ids);
    var r := ServersFrom(outcomes, ids, 0, map[]);
    if r.Success? {
      forall s | s in outcomes ensures r.value[s] == Results(outcomes[s].value) {
        var j :| 0 <= j < |ids| && ids[j] == s;
      }
    }
  }

  /** The servers taken in ascending order of id: when they do not all
      complete, the error is that of the failing server that comes first
      in order of id, and every server before it completed. */
  lemma OrderedServersFailure(outcomes: map<string, Result<RunState, Fatal>>, ids: seq<string>)
    requires Elems(ids) == outcomes.Keys && StrictlySorted(ids)
    ensures var r := ServersFrom(outcomes, ids, 0, map[]);
            r.Failure? ==> exists s :: s in outcomes && outcomes[s] == Failure(r.error)
                                    && forall t :: t in outcomes && Less(t, s) ==> outcomes[t].Success?
  {
    ServersFromSpec(outcomes, ids, 0, map[]);
    var r := ServersFrom(outcomes, ids, 0, map[]);
    if r.Failure? {
      var j :| 0 <= j < |ids| && outcomes[ids[j]] == Failure(r.error) && forall j' :: 0 <= j' < j ==> outcomes[ids[j']].Success?;
      FirstFailure(outcomes, ids, j);
    }
  }

  /** Every server completes exactly when the server at every position of
      `ids` does. */
  lemma ByPosition(outcomes: map<string, Result<RunState, Fatal>>, ids: seq<string>)
    requires Elems(ids) == outcomes.Keys
    ensures (forall s :: s in outcomes ==> outcomes[s].Success?) <==> (forall j :: 0 <= j < |ids| ==> outcomes[ids[j]].Success?)
  {
    if forall j :: 0 <= j < |ids| ==> outcomes[ids[j]].Success? {
      forall s | s in outcomes ensures outcomes[s].Success? {
        var j :| 0 <= j < |ids| && ids[j] == s;
      }
    }
  }

  /** In ascending order, the servers before position `j` are exactly those
      whose id is less. */
  lemma FirstFailure(outcomes: map<string, Result<RunState, Fatal>>, ids: seq<string>, j: nat)
    requires StrictlySorted(ids) && Elems(ids) == outcomes.Keys && j < |ids|
    requires forall j' :: 0 <= j' < j ==> outcomes[ids[j']].Success?
    ensures forall t :: t in outcomes && Less(t, ids[j]) ==> outcomes[t].Success?
  {
    forall t | t in outcomes && Less(t, ids[j]) ensures outcomes[t].Success? {
      var j' :| 0 <= j' < |ids| && ids[j'] == t;
      if j' > j {
        LessAsymmetric(ids[j], t);
      } else if j' == j {
        LessIrreflexive(t);
      }
    }
  }

  /** `run-multi`, where `ServerOutcomes(script, servers, lower)[s]` is
      server `s`'s own run: it completes exactly when every server's run
      does, and then stores every server's results under its id and
      nothing else; otherwise it stops with the error of the failing server
      that comes first in order of id, after every server before it
      completed. */
  lemma MultiSpec(script: Script, servers: map<string, map<string, seq<Message>>>, lower: string -> string)
    requires ActionsDeclared(script)
    ensures var outcomes := ServerOutcomes(script, servers, lower);
            var r := MultiOutcome(script, servers, lower);
            && (r.Success? <==> forall s :: s in servers ==> outcomes[s].Success?)
            && (r.Success? ==> r.value.Keys == servers.Keys)
            && (r.Success? ==> forall s :: s in servers ==> r.value[s] == Results(outcomes[s].value))
            && (r.Failure? ==> exists s :: s in servers && outcomes[s] == Failure(r.error)
                                         && forall t :: t in servers && Less(t, s) ==> outcomes[t].Success?)
  {
    var outcomes := ServerOutcomes(script, servers, lower);
    OrderedServersSuccess(outcomes, SortedSeq(servers.Keys));
    OrderedServersFailure(outcomes, SortedSeq(servers.Keys));
  }

  // ---------------------------------------------------------------------
  // Barrier tokens.
  // ---------------------------------------------------------------------

  /** Different actions use different barrier tokens, so a PONG for one
      action never ends another action's barrier. */
  lemma SyncTokenDistinct(i: nat, j: nat)
    requires i != j
    ensures SyncToken(i) != SyncToken(j)
  {
    if SyncToken(i) == SyncToken(j) {
      assert SyncToken(i)[4..] == NatToString(i);
      assert SyncToken(j)[4..] == NatToString(j);
      NatToStringInjective(i, j);
    }
  }
}
