/** What testfw.go's `run-multi` loop promises, proved about the engine
    model: closed forms of the two wait loops, the shape of one action's
    effect, and the order and independence of the per-server runs. */
module EngineProperties {
  import opened Wrappers
  import opened Text
  import opened Scripts
  import opened Engine

  // ---------------------------------------------------------------------
  // Closed forms of the loops, defined on the sequence of messages read.
  // ---------------------------------------------------------------------

  predicate IsPing(m: Message, lower: string -> string) {
    lower(m.command) == "ping"
  }

  /** A PING without parameters: reading its first parameter panics. */
  predicate BadPing(m: Message, lower: string -> string) {
    IsPing(m, lower) && |m.params| == 0
  }

  /** The result lines the messages leave: one per message that is not a
      PING, in order, each for client `c`. */
  function Recorded(c: string, msgs: seq<Message>, lower: string -> string): seq<ScriptResultLine>
    decreases |msgs|
  {
    if msgs == [] then []
    else (if IsPing(msgs[0], lower) then [] else [ScriptResultLine(ResultIRCMessage, c, msgs[0].raw)])
         + Recorded(c, msgs[1..], lower)
  }

  /** The replies the messages get: one `PONG :<first param>` per PING. */
  function Pongs(msgs: seq<Message>, lower: string -> string): seq<string>
    decreases |msgs|
  {
    if msgs == [] then []
    else (if IsPing(msgs[0], lower) && |msgs[0].params| > 0 then [PongTo(msgs[0])] else [])
         + Pongs(msgs[1..], lower)
  }

  /** Some message has the verb `001`. */
  predicate Welcomed(msgs: seq<Message>, lower: string -> string) {
    exists j :: 0 <= j < |msgs| && lower(msgs[j].command) == "001"
  }

  /** A message that ends the verb wait: not a PING, verb in `verbs`. */
  predicate EndsWait(m: Message, verbs: set<string>, lower: string -> string) {
    !IsPing(m, lower) && lower(m.command) in verbs
  }

  /** Where the verb wait stops: the first message that ends it or panics,
      or `|msgs|` when there is none. */
  function WaitStop(msgs: seq<Message>, verbs: set<string>, lower: string -> string): (k: nat)
    ensures k <= |msgs|
    ensures k < |msgs| ==> BadPing(msgs[k], lower) || EndsWait(msgs[k], verbs, lower)
    ensures forall j :: 0 <= j < k ==> !BadPing(msgs[j], lower) && !EndsWait(msgs[j], verbs, lower)
    decreases |msgs|
  {
    if msgs == [] || BadPing(msgs[0], lower) || EndsWait(msgs[0], verbs, lower) then 0
    else 1 + WaitStop(msgs[1..], verbs, lower)
  }

  /** The state after a verb wait that ends at position `k`: `msgs[..k+1]`
      is consumed, its PINGs are answered, everything else in it is
      recorded, and the client is registered when a `001` is among it. */
  function WaitDone(st: RunState, c: string, k: nat, lower: string -> string): RunState
    requires Connected(st, c) && k < |st.inbox[c]|
  {
    var msgs := st.inbox[c];
    st.(inbox := st.inbox[c := msgs[k + 1..]],
        outbox := st.outbox[c := st.outbox[c] + Pongs(msgs[..k + 1], lower)],
        registered := if Welcomed(msgs[..k + 1], lower) then st.registered + {c} else st.registered,
        lines := st.lines + Recorded(c, msgs[..k + 1], lower))
  }

  /** The verb wait in closed form. */
  function WaitReference(st: RunState, c: string, verbs: set<string>, i: nat, lower: string -> string): Result<RunState, Fatal>
    requires Connected(st, c)
  {
    var msgs := st.inbox[c];
    var k := WaitStop(msgs, verbs, lower);
    if k == |msgs| then Failure(ReadFailed(i, c))
    else if BadPing(msgs[k], lower) then Failure(IndexPanic(i, c, msgs[k].raw))
    else Success(WaitDone(st, c, k, lower))
  }

  lemma TakeTail(msgs: seq<Message>, k: nat)
    requires 0 < k <= |msgs|
    ensures msgs[..k][1..] == msgs[1..][..k - 1] && msgs[..k][0] == msgs[0]
  {
  }

  lemma WelcomedCons(msgs: seq<Message>, lower: string -> string)
    requires msgs != []
    ensures Welcomed(msgs, lower) <==> lower(msgs[0].command) == "001" || Welcomed(msgs[1..], lower)
  {
    if Welcomed(msgs, lower) && lower(msgs[0].command) != "001" {
      var j :| 0 <= j < |msgs| && lower(msgs[j].command) == "001";
      assert msgs[1..][j - 1] == msgs[j];
    }
    if Welcomed(msgs[1..], lower) {
      var j :| 0 <= j < |msgs[1..]| && lower(msgs[1..][j].command) == "001";
      assert msgs[j + 1] == msgs[1..][j];
    }
  }

  /** How the closed forms' pieces of a non-empty prefix split at its head. */
  lemma PrefixCons(c: string, msgs: seq<Message>, k: nat, lower: string -> string)
    requires 0 < k <= |msgs|
    ensures Pongs(msgs[..k], lower) ==
      (if IsPing(msgs[0], lower) && |msgs[0].params| > 0 then [PongTo(msgs[0])] else []) + Pongs(msgs[1..][..k - 1], lower)
    ensures Recorded(c, msgs[..k], lower) ==
      (if IsPing(msgs[0], lower) then [] else [ScriptResultLine(ResultIRCMessage, c, msgs[0].raw)]) + Recorded(c, msgs[1..][..k - 1], lower)
    ensures Welcomed(msgs[..k], lower) <==> lower(msgs[0].command) == "001" || Welcomed(msgs[1..][..k - 1], lower)
  {
    TakeTail(msgs, k);
    WelcomedCons(msgs[..k], lower);
  }

  lemma UpdateTwice<V>(m: map<string, V>, k: string, v: V, w: V)
    ensures m[k := v][k := w] == m[k := w]
  {
    assert m[k := v][k := w].Keys == m[k := w].Keys;
  }

  lemma UpdateSame<V>(m: map<string, V>, k: string)
    requires k in m
    ensures m[k := m[k]] == m
  {
    assert m[k := m[k]].Keys == m.Keys;
  }

  /** Answering the PING at the head and then ending at `k - 1` is ending
      at `k`. */
  lemma WaitDonePing(st: RunState, c: string, k: nat, lower: string -> string)
    requires Connected(st, c) && 0 < k < |st.inbox[c]|
    requires IsPing(st.inbox[c][0], lower) && |st.inbox[c][0].params| > 0
    ensures WaitDone(Send(Pop(st, c), c, PongTo(st.inbox[c][0])), c, k - 1, lower) == WaitDone(st, c, k, lower)
  {
    var msgs := st.inbox[c];
    var m := msgs[0];
    var st' := Send(Pop(st, c), c, PongTo(m));
    var a := WaitDone(st', c, k - 1, lower);
    var b := WaitDone(st, c, k, lower);
    assert st'.inbox[c] == msgs[1..];
    PrefixCons(c, msgs, k + 1, lower);
    assert msgs[1..][k - 1 + 1..] == msgs[k + 1..];
    assert a.inbox == b.inbox by {
      UpdateTwice(st.inbox, c, msgs[1..], msgs[k + 1..]);
    }
    assert a.outbox == b.outbox by {
      assert st'.outbox[c] + Pongs(msgs[1..][..k], lower) == st.outbox[c] + Pongs(msgs[..k + 1], lower);
      UpdateTwice(st.outbox, c, st.outbox[c] + [PongTo(m)], st.outbox[c] + Pongs(msgs[..k + 1], lower));
    }
    assert a.registered == b.registered;
    assert a.lines == b.lines;
    assert a.lastClientSent == b.lastClientSent;
  }

  /** The pieces of the closed form when the head of the prefix is not a
      PING: it is recorded, gets no reply, and registers on `001`. */
  lemma PrefixNonPing(c: string, msgs: seq<Message>, k: nat, lower: string -> string)
    requires 0 < k < |msgs| && !IsPing(msgs[0], lower)
    ensures Pongs(msgs[..k + 1], lower) == Pongs(msgs[1..][..k], lower)
    ensures Recorded(c, msgs[..k + 1], lower) == [ScriptResultLine(ResultIRCMessage, c, msgs[0].raw)] + Recorded(c, msgs[1..][..k], lower)
    ensures Welcomed(msgs[..k + 1], lower) <==> lower(msgs[0].command) == "001" || Welcomed(msgs[1..][..k], lower)
  {
    PrefixCons(c, msgs, k + 1, lower);
  }

  /** Recording the message at the head and then ending at `k - 1` is
      ending at `k`. */
  lemma WaitDoneRecord(st: RunState, c: string, k: nat, lower: string -> string)
    requires Connected(st, c) && 0 < k < |st.inbox[c]|
    requires !IsPing(st.inbox[c][0], lower)
    ensures var m := st.inbox[c][0];
            var next := Pop(st, c);
            WaitDone(Record(next.(registered := if lower(m.command) == "001" then next.registered + {c} else next.registered), c, m.raw), c, k - 1, lower)
            == WaitDone(st, c, k, lower)
  {
    var msgs := st.inbox[c];
    var m := msgs[0];
    var next := Pop(st, c);
    var st' := Record(next.(registered := if lower(m.command) == "001" then next.registered + {c} else next.registered), c, m.raw);
    var a := WaitDone(st', c, k - 1, lower);
    var b := WaitDone(st, c, k, lower);
    assert st'.inbox[c] == msgs[1..];
    PrefixNonPing(c, msgs, k, lower);
    assert msgs[1..][k - 1 + 1..] == msgs[k + 1..];
    assert a.inbox == b.inbox by {
      UpdateTwice(st.inbox, c, msgs[1..], msgs[k + 1..]);
    }
    assert a.lines == b.lines by {
      assert st'.lines == st.lines + [ScriptResultLine(ResultIRCMessage, c, m.raw)];
    }
  }

  /** Ending at the head: one message consumed and recorded. */
  lemma WaitDoneHead(st: RunState, c: string, lower: string -> string)
    requires Connected(st, c) && st.inbox[c] != [] && !IsPing(st.inbox[c][0], lower)
    ensures var m := st.inbox[c][0];
            var next := Pop(st, c);
            WaitDone(st, c, 0, lower) == Record(next.(registered := if lower(m.command) == "001" then next.registered + {c} else next.registered), c, m.raw)
  {
    var msgs := st.inbox[c];
    PrefixCons(c, msgs, 1, lower);
    assert msgs[1..][..0] == [];
    assert st.outbox[c] + [] == st.outbox[c];
    UpdateSame(st.outbox, c);
  }

  /** The verb-wait loop is its closed form. */
  lemma {:induction false} WaitStepReference(st: RunState, c: string, verbs: set<string>, i: nat, lower: string -> string)
    requires Connected(st, c)
    ensures WaitStep(st, c, verbs, i, lower) == WaitReference(st, c, verbs, i, lower)
    decreases |st.inbox[c]|
  {
    var msgs := st.inbox[c];
    if msgs != [] {
      var m := msgs[0];
      var next := Pop(st, c);
      var k := WaitStop(msgs, verbs, lower);
      if IsPing(m, lower) && |m.params| > 0 {
        var st' := Send(next, c, PongTo(m));
        WaitStepReference(st', c, verbs, i, lower);
        assert st'.inbox[c] == msgs[1..];
        assert WaitStop(msgs[1..], verbs, lower) == k - 1;
        if k < |msgs| && !BadPing(msgs[k], lower) {
          WaitDonePing(st, c, k, lower);
        }
      } else if !IsPing(m, lower) {
        if EndsWait(m, verbs, lower) {
          WaitDoneHead(st, c, lower);
        } else {
          var seen := Record(next.(registered := if lower(m.command) == "001" then next.registered + {c} else next.registered), c, m.raw);
          WaitStepReference(seen, c, verbs, i, lower);
          assert seen.inbox[c] == msgs[1..];
          assert WaitStop(msgs[1..], verbs, lower) == k - 1;
          if k < |msgs| && !BadPing(msgs[k], lower) {
            WaitDoneRecord(st, c, k, lower);
          }
        }
      }
    }
  }

  /** A message that ends the barrier: the PONG carrying the token. */
  predicate EndsBarrier(m: Message, token: string, lower: string -> string) {
    lower(m.command) == "pong" && |m.params| >= 2 && m.params[1] == token
  }

  /** A message the barrier panics on: a PONG with fewer than two
      parameters or a PING with none. */
  predicate BarrierFault(m: Message, lower: string -> string) {
    (lower(m.command) == "pong" && |m.params| < 2) || BadPing(m, lower)
  }

  /** Where the barrier stops: the first message that ends it or panics, or
      `|msgs|` when there is none. */
  function BarrierStop(msgs: seq<Message>, token: string, lower: string -> string): (k: nat)
    ensures k <= |msgs|
    ensures k < |msgs| ==> EndsBarrier(msgs[k], token, lower) || BarrierFault(msgs[k], lower)
    ensures forall j :: 0 <= j < k ==> !EndsBarrier(msgs[j], token, lower) && !BarrierFault(msgs[j], lower)
    decreases |msgs|
  {
    if msgs == [] || EndsBarrier(msgs[0], token, lower) || BarrierFault(msgs[0], lower) then 0
    else 1 + BarrierStop(msgs[1..], token, lower)
  }

  /** The state after a barrier that ends at position `k`: `msgs[..k+1]` is
      consumed, the PINGs before `k` are answered, everything else before
      `k` is recorded, and the PONG at `k` is not. */
  function BarrierDone(st: RunState, c: string, k: nat, lower: string -> string): RunState
    requires Connected(st, c) && k < |st.inbox[c]|
  {
    var msgs := st.inbox[c];
    st.(inbox := st.inbox[c := msgs[k + 1..]],
        outbox := st.outbox[c := st.outbox[c] + Pongs(msgs[..k], lower)],
        lines := st.lines + Recorded(c, msgs[..k], lower))
  }

  /** The barrier in closed form. */
  function BarrierReference(st: RunState, c: string, token: string, i: nat, lower: string -> string): Result<RunState, Fatal>
    requires Connected(st, c)
  {
    var msgs := st.inbox[c];
    var k := BarrierStop(msgs, token, lower);
    if k == |msgs| then Failure(ReadFailed(i, c))
    else if BarrierFault(msgs[k], lower) then Failure(IndexPanic(i, c, msgs[k].raw))
    else Success(BarrierDone(st, c, k, lower))
  }

  lemma BarrierDonePing(st: RunState, c: string, k: nat, lower: string -> string)
    requires Connected(st, c) && 0 < k < |st.inbox[c]|
    requires IsPing(st.inbox[c][0], lower) && |st.inbox[c][0].params| > 0
    ensures BarrierDone(Send(Pop(st, c), c, PongTo(st.inbox[c][0])), c, k - 1, lower) == BarrierDone(st, c, k, lower)
  {
    var msgs := st.inbox[c];
    var m := msgs[0];
    var st' := Send(Pop(st, c), c, PongTo(m));
    var a := BarrierDone(st', c, k - 1, lower);
    var b := BarrierDone(st, c, k, lower);
    assert st'.inbox[c] == msgs[1..];
    PrefixCons(c, msgs, k, lower);
    assert msgs[1..][k - 1 + 1..] == msgs[k + 1..];
    assert a.inbox == b.inbox by {
      UpdateTwice(st.inbox, c, msgs[1..], msgs[k + 1..]);
    }
    assert a.outbox == b.outbox by {
      assert st'.outbox[c] + Pongs(msgs[1..][..k - 1], lower) == st.outbox[c] + Pongs(msgs[..k], lower);
      UpdateTwice(st.outbox, c, st.outbox[c] + [PongTo(m)], st.outbox[c] + Pongs(msgs[..k], lower));
    }
    assert a.registered == b.registered;
    assert a.lines == b.lines;
    assert a.lastClientSent == b.lastClientSent;
  }

  lemma BarrierDoneRecord(st: RunState, c: string, k: nat, lower: string -> string)
    requires Connected(st, c) && 0 < k < |st.inbox[c]|
    requires !IsPing(st.inbox[c][0], lower)
    ensures BarrierDone(Record(Pop(st, c), c, st.inbox[c][0].raw), c, k - 1, lower) == BarrierDone(st, c, k, lower)
  {
    var msgs := st.inbox[c];
    var m := msgs[0];
    var st' := Record(Pop(st, c), c, m.raw);
    var a := BarrierDone(st', c, k - 1, lower);
    var b := BarrierDone(st, c, k, lower);
    assert st'.inbox[c] == msgs[1..];
    PrefixCons(c, msgs, k, lower);
    assert msgs[1..][k - 1 + 1..] == msgs[k + 1..];
    assert a.inbox == b.inbox by {
      UpdateTwice(st.inbox, c, msgs[1..], msgs[k + 1..]);
    }
    assert a.outbox == b.outbox by {
      assert st'.outbox == st.outbox;
      assert Pongs(msgs[..k], lower) == Pongs(msgs[1..][..k - 1], lower);
    }
    assert a.registered == b.registered;
    assert a.lines == b.lines by {
      var line := ScriptResultLine(ResultIRCMessage, c, m.raw);
      assert st.lines + [line] + Recorded(c, msgs[1..][..k - 1], lower) == st.lines + Recorded(c, msgs[..k], lower);
    }
    assert a.lastClientSent == b.lastClientSent;
  }

  lemma BarrierDoneHead(st: RunState, c: string, lower: string -> string)
    requires Connected(st, c) && st.inbox[c] != []
    ensures BarrierDone(st, c, 0, lower) == Pop(st, c)
  {
    var msgs := st.inbox[c];
    assert msgs[..0] == [];
    assert st.outbox[c] + [] == st.outbox[c] && st.lines + [] == st.lines;
    UpdateSame(st.outbox, c);
  }

  /** The barrier loop is its closed form. */
  lemma {:induction false} BarrierStepReference(st: RunState, c: string, token: string, i: nat, lower: string -> string)
    requires Connected(st, c)
    ensures BarrierStep(st, c, token, i, lower) == BarrierReference(st, c, token, i, lower)
    decreases |st.inbox[c]|
  {
    var msgs := st.inbox[c];
    if msgs != [] {
      var m := msgs[0];
      var next := Pop(st, c);
      var k := BarrierStop(msgs, token, lower);
      if EndsBarrier(m, token, lower) {
        BarrierDoneHead(st, c, lower);
      } else if !BarrierFault(m, lower) {
        var st' := if IsPing(m, lower) then Send(next, c, PongTo(m)) else Record(next, c, m.raw);
        BarrierStepReference(st', c, token, i, lower);
        assert st'.inbox[c] == msgs[1..];
        assert BarrierStop(msgs[1..], token, lower) == k - 1;
        if k < |msgs| && !BarrierFault(msgs[k], lower) {
          if IsPing(m, lower) {
            BarrierDonePing(st, c, k, lower);
          } else {
            BarrierDoneRecord(st, c, k, lower);
          }
        }
      }
    }
  }

  // ---------------------------------------------------------------------
  // The effect of each phase, with the messages it consumed.
  // ---------------------------------------------------------------------

  /** The verb wait, when it returns: it consumed a non-empty prefix of the
      client's input that ends with the first message whose verb is waited
      for (no earlier one is); it answered that prefix's PINGs on the same
      connection, recorded everything else in it, registered the client
      exactly when a `001` was among it, and touched nothing else. */
  lemma WaitEffect(st: RunState, c: string, verbs: set<string>, i: nat, lower: string -> string) returns (consumed: seq<Message>)
    requires Connected(st, c) && WaitStep(st, c, verbs, i, lower).Success?
    ensures var r := WaitStep(st, c, verbs, i, lower).value;
            && consumed != [] && st.inbox[c] == consumed + r.inbox[c]
            && EndsWait(consumed[|consumed| - 1], verbs, lower)
            && (forall j :: 0 <= j < |consumed| - 1 ==> !EndsWait(consumed[j], verbs, lower))
            && r.inbox == st.inbox[c := r.inbox[c]]
            && r.outbox == st.outbox[c := st.outbox[c] + Pongs(consumed, lower)]
            && r.registered == (if Welcomed(consumed, lower) then st.registered + {c} else st.registered)
            && r.lastClientSent == st.lastClientSent
            && r.lines == st.lines + Recorded(c, consumed, lower)
  {
    WaitStepReference(st, c, verbs, i, lower);
    var msgs := st.inbox[c];
    var k := WaitStop(msgs, verbs, lower);
    consumed := msgs[..k + 1];
    assert msgs == consumed + msgs[k + 1..];
    assert consumed[|consumed| - 1] == msgs[k];
  }

  /** The barrier, when it returns: it consumed a non-empty prefix of the
      client's input that ends with the first PONG carrying the token; it
      answered that prefix's PINGs, recorded everything else in it except
      that PONG, and touched nothing else. */
  lemma BarrierEffect(st: RunState, c: string, token: string, i: nat, lower: string -> string) returns (consumed: seq<Message>)
    requires Connected(st, c) && BarrierStep(st, c, token, i, lower).Success?
    ensures var r := BarrierStep(st, c, token, i, lower).value;
            && consumed != [] && st.inbox[c] == consumed + r.inbox[c]
            && EndsBarrier(consumed[|consumed| - 1], token, lower)
            && (forall j :: 0 <= j < |consumed| - 1 ==> !EndsBarrier(consumed[j], token, lower))
            && r.inbox == st.inbox[c := r.inbox[c]]
            && r.outbox == st.outbox[c := st.outbox[c] + Pongs(consumed, lower)]
            && r.registered == st.registered
            && r.lastClientSent == st.lastClientSent
            && r.lines == st.lines + Recorded(c, consumed[..|consumed| - 1], lower)
  {
    BarrierStepReference(st, c, token, i, lower);
    var msgs := st.inbox[c];
    var k := BarrierStop(msgs, token, lower);
    consumed := msgs[..k + 1];
    TakeThrough(msgs, k);
    PongsSnoc(msgs[..k], msgs[k], lower);
  }

  /** The first `k + 1` messages: the first `k` and then the `k`-th. */
  lemma TakeThrough(msgs: seq<Message>, k: nat)
    requires k < |msgs|
    ensures var consumed := msgs[..k + 1];
            && msgs == consumed + msgs[k + 1..]
            && consumed[|consumed| - 1] == msgs[k]
            && consumed[..|consumed| - 1] == msgs[..k]
            && consumed == msgs[..k] + [msgs[k]]
  {
    assert msgs[..k + 1] == msgs[..k] + [msgs[k]];
  }

  lemma {:induction false} PongsSnoc(msgs: seq<Message>, m: Message, lower: string -> string)
    requires !IsPing(m, lower)
    ensures Pongs(msgs + [m], lower) == Pongs(msgs, lower)
    decreases |msgs|
  {
    if msgs == [] {
      assert Pongs([m], lower) == [] + Pongs([m][1..], lower);
      assert [m][1..] == [];
    } else {
      PongsSnoc(msgs[1..], m, lower);
      assert (msgs + [m])[1..] == msgs[1..] + [m];
    }
  }

  /** Every recorded line is a received IRC message of client `c`. */
  predicate ReceivedBy(lines: seq<ScriptResultLine>, c: string) {
    forall j :: 0 <= j < |lines| ==> lines[j].lineType == ResultIRCMessage && lines[j].client == c
  }

  lemma {:induction false} RecordedBy(c: string, msgs: seq<Message>, lower: string -> string)
    ensures ReceivedBy(Recorded(c, msgs, lower), c)
    decreases |msgs|
  {
    if msgs != [] {
      RecordedBy(c, msgs[1..], lower);
    }
  }

  /** Every line is a reply to a PING. */
  predicate AllPongs(lines: seq<string>) {
    forall j :: 0 <= j < |lines| ==> "PONG :" <= lines[j]
  }

  lemma {:induction false} PongsArePongs(msgs: seq<Message>, lower: string -> string)
    ensures AllPongs(Pongs(msgs, lower))
    decreases |msgs|
  {
    if msgs != [] {
      PongsArePongs(msgs[1..], lower);
      if IsPing(msgs[0], lower) && |msgs[0].params| > 0 {
        assert "PONG :" <= PongTo(msgs[0]);
      }
    }
  }

  // ---------------------------------------------------------------------
  // One action.
  // ---------------------------------------------------------------------

  /** The action-sync line an action starts with. */
  function SyncLine(a: ScriptAction): ScriptResultLine {
    ScriptResultLine(ResultActionSync, a.client, a.lineToSend)
  }

  lemma ReceivedByAppend(x: seq<ScriptResultLine>, y: seq<ScriptResultLine>, c: string)
    requires ReceivedBy(x, c) && ReceivedBy(y, c)
    ensures ReceivedBy(x + y, c)
  {
    forall j | 0 <= j < |x + y| ensures (x + y)[j].lineType == ResultIRCMessage && (x + y)[j].client == c {
      if j >= |x| { assert (x + y)[j] == y[j - |x|]; }
    }
  }

  /** Appending lines received by `c` keeps a suffix received by `c`. */
  lemma ReceivedAfter(lines: seq<ScriptResultLine>, heard: seq<ScriptResultLine>, from: nat, c: string)
    requires from <= |lines| && ReceivedBy(lines[from..], c) && ReceivedBy(heard, c)
    ensures ReceivedBy((lines + heard)[from..], c)
  {
    assert (lines + heard)[from..] == lines[from..] + heard;
    ReceivedByAppend(lines[from..], heard, c);
  }

  /** The state after the verb-wait phase of an action that got through it. */
  function Ready(st: RunState, a: ScriptAction, i: nat, lower: string -> string): (r: RunState)
    requires Connected(st, a.client) && ActionStep(st, a, i, lower).Success?
    ensures Connected(r, a.client)
  {
    var sent := SendStep(st, a);
    if WaitsOldWay(sent, a) then WaitStep(sent, a.client, a.waitAfterFor, i, lower).value else sent
  }

  /** What the send phase and the verb wait leave: the action-sync line,
      then only lines received by the action's client; the other clients'
      connections are untouched. */
  lemma ReadyShape(st: RunState, a: ScriptAction, i: nat, lower: string -> string)
    requires Connected(st, a.client) && ActionStep(st, a, i, lower).Success?
    ensures var ready := Ready(st, a, i, lower);
            var c := a.client;
            && |st.lines| < |ready.lines| && ready.lines[..|st.lines| + 1] == st.lines + [SyncLine(a)]
            && ReceivedBy(ready.lines[|st.lines| + 1..], c)
            && ready.lastClientSent == (if a.lineToSend != "" then c else st.lastClientSent)
            && st.registered <= ready.registered <= st.registered + {c}
            && ready.inbox == st.inbox[c := ready.inbox[c]]
            && ready.outbox == st.outbox[c := ready.outbox[c]]
            && |ready.inbox[c]| <= |st.inbox[c]| && ready.inbox[c] == st.inbox[c][|st.inbox[c]| - |ready.inbox[c]|..]
            && (c in ready.registered - st.registered ==> Welcomed(st.inbox[c][..|st.inbox[c]| - |ready.inbox[c]|], lower))
            && (!WaitsOldWay(SendStep(st, a), a) ==> ready.inbox == st.inbox && ready.registered == st.registered)
  {
    var c := a.client;
    var sent := SendStep(st, a);
    var ready := Ready(st, a, i, lower);
    assert sent.lines == st.lines + [SyncLine(a)];
    assert sent.inbox == st.inbox;
    assert sent.outbox == st.outbox[c := sent.outbox[c]] by {
      if a.lineToSend == "" { UpdateSame(st.outbox, c); }
    }
    if WaitsOldWay(sent, a) {
      var w := WaitEffect(sent, c, a.waitAfterFor, i, lower);
      RecordedBy(c, w, lower);
      assert ready.lines[|st.lines| + 1..] == Recorded(c, w, lower);
      assert ready.inbox[c] == st.inbox[c][|w|..];
      assert st.inbox[c][..|st.inbox[c]| - |ready.inbox[c]|] == w;
      UpdateTwice(st.outbox, c, sent.outbox[c], ready.outbox[c]);
    } else {
      assert ready.lines[|st.lines| + 1..] == [];
      UpdateSame(st.inbox, c);
    }
  }

  /** After the verb wait, the barrier runs exactly when the client is
      registered. */
  lemma ActionAfterReady(st: RunState, a: ScriptAction, i: nat, lower: string -> string)
    requires Connected(st, a.client) && ActionStep(st, a, i, lower).Success?
    ensures var ready := Ready(st, a, i, lower);
            var c := a.client;
            ActionStep(st, a, i, lower).value ==
              if c in ready.registered then BarrierStep(Send(ready, c, "PING " + SyncToken(i)), c, SyncToken(i), i, lower).value
              else ready
  {
  }

  /** One action, when it completes: first exactly one action-sync line for
      its client carrying its line to send, then only lines received by that
      client; the last sender changes only when the action sends a line, and
      becomes its client; registration only grows, and only for its client;
      the other clients' connections are untouched. */
  lemma ActionShape(st: RunState, a: ScriptAction, i: nat, lower: string -> string)
    requires Connected(st, a.client) && ActionStep(st, a, i, lower).Success?
    ensures var after := ActionStep(st, a, i, lower).value;
            var c := a.client;
            && |st.lines| < |after.lines| && after.lines[..|st.lines| + 1] == st.lines + [SyncLine(a)]
            && ReceivedBy(after.lines[|st.lines| + 1..], c)
            && after.lastClientSent == (if a.lineToSend != "" then c else st.lastClientSent)
            && st.registered <= after.registered <= st.registered + {c}
            && after.inbox == st.inbox[c := after.inbox[c]]
            && after.outbox == st.outbox[c := after.outbox[c]]
  {
    var c := a.client;
    var ready := Ready(st, a, i, lower);
    ReadyShape(st, a, i, lower);
    ActionAfterReady(st, a, i, lower);
    if c in ready.registered {
      BarrierShape(st, ready, c, i, lower);
    }
  }

  /** The barrier keeps what `ActionShape` states of the state before it. */
  lemma BarrierShape(st: RunState, ready: RunState, c: string, i: nat, lower: string -> string)
    requires Connected(ready, c)
    requires BarrierStep(Send(ready, c, "PING " + SyncToken(i)), c, SyncToken(i), i, lower).Success?
    requires |st.lines| < |ready.lines| && ReceivedBy(ready.lines[|st.lines| + 1..], c)
    requires ready.inbox == st.inbox[c := ready.inbox[c]] && ready.outbox == st.outbox[c := ready.outbox[c]]
    ensures var after := BarrierStep(Send(ready, c, "PING " + SyncToken(i)), c, SyncToken(i), i, lower).value;
            && |ready.lines| <= |after.lines| && after.lines[..|ready.lines|] == ready.lines
            && ReceivedBy(after.lines[|st.lines| + 1..], c)
            && after.lastClientSent == ready.lastClientSent
            && after.registered == ready.registered
            && after.inbox == st.inbox[c := after.inbox[c]]
            && after.outbox == st.outbox[c := after.outbox[c]]
  {
    var pinged := Send(ready, c, "PING " + SyncToken(i));
    var after := BarrierStep(pinged, c, SyncToken(i), i, lower).value;
    var b := BarrierEffect(pinged, c, SyncToken(i), i, lower);
    var heard := Recorded(c, b[..|b| - 1], lower);
    assert after.lines == ready.lines + heard;
    RecordedBy(c, b[..|b| - 1], lower);
    ReceivedAfter(ready.lines, heard, |st.lines| + 1, c);
    assert after.inbox == st.inbox[c := after.inbox[c]] by {
      UpdateTwice(st.inbox, c, ready.inbox[c], after.inbox[c]);
    }
    assert after.outbox == st.outbox[c := after.outbox[c]] by {
      UpdateTwice(ready.outbox, c, pinged.outbox[c], after.outbox[c]);
      UpdateTwice(st.outbox, c, ready.outbox[c], after.outbox[c]);
    }
  }

  /** What the send phase and the verb wait send: the action's line when
      it has one, then replies to PINGs. */
  lemma ReadySends(st: RunState, a: ScriptAction, i: nat, lower: string -> string) returns (p: seq<string>)
    requires Connected(st, a.client) && ActionStep(st, a, i, lower).Success?
    ensures AllPongs(p)
    ensures Ready(st, a, i, lower).outbox[a.client] == st.outbox[a.client] + (if a.lineToSend == "" then [] else [a.lineToSend]) + p
  {
    var c := a.client;
    var sent := SendStep(st, a);
    assert sent.outbox[c] == st.outbox[c] + (if a.lineToSend == "" then [] else [a.lineToSend]);
    p := [];
    if WaitsOldWay(sent, a) {
      var w := WaitEffect(sent, c, a.waitAfterFor, i, lower);
      PongsArePongs(w, lower);
      p := Pongs(w, lower);
    }
  }

  /** What the barrier sends: the `PING <token>`, then replies to PINGs. */
  lemma BarrierSends(ready: RunState, c: string, i: nat, lower: string -> string) returns (q: seq<string>)
    requires Connected(ready, c)
    requires BarrierStep(Send(ready, c, "PING " + SyncToken(i)), c, SyncToken(i), i, lower).Success?
    ensures AllPongs(q)
    ensures var after := BarrierStep(Send(ready, c, "PING " + SyncToken(i)), c, SyncToken(i), i, lower).value;
            after.outbox[c] == ready.outbox[c] + ["PING " + SyncToken(i)] + q && after.registered == ready.registered
  {
    var pinged := Send(ready, c, "PING " + SyncToken(i));
    var b := BarrierEffect(pinged, c, SyncToken(i), i, lower);
    PongsArePongs(b, lower);
    q := Pongs(b, lower);
  }

  /** What an action whose client is not registered at its end sends on
      that client's connection: its line when it has one, then only replies
      to PINGs; no barrier PING. */
  lemma QuietActionSends(st: RunState, a: ScriptAction, i: nat, lower: string -> string, after: RunState) returns (p: seq<string>)
    requires Connected(st, a.client) && ActionStep(st, a, i, lower) == Success(after)
    requires a.client !in after.registered
    ensures AllPongs(p)
    ensures after.outbox[a.client] == st.outbox[a.client] + (if a.lineToSend == "" then [] else [a.lineToSend]) + p
  {
    ActionAfterReady(st, a, i, lower);
    p := ReadySends(st, a, i, lower);
  }

  /** What an action whose client is registered at its end sends on that
      client's connection: its line when it has one, replies to PINGs, one
      `PING sync<i>`, then more replies. */
  lemma BarrierActionSends(st: RunState, a: ScriptAction, i: nat, lower: string -> string, after: RunState) returns (p: seq<string>, q: seq<string>)
    requires Connected(st, a.client) && ActionStep(st, a, i, lower) == Success(after)
    requires a.client in after.registered
    ensures AllPongs(p) && AllPongs(q)
    ensures after.outbox[a.client] == st.outbox[a.client] + (if a.lineToSend == "" then [] else [a.lineToSend]) + p
                                       + ["PING " + SyncToken(i)] + q
  {
    var ready := Ready(st, a, i, lower);
    ActionAfterReady(st, a, i, lower);
    p := ReadySends(st, a, i, lower);
    q := BarrierSends(ready, a.client, i, lower);
  }


}
