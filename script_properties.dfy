/** Properties of the script parser: what a client declaration accepts,
    how sync lines and action lines resolve their client, which lines are
    errors and which line number an error carries, and what holds of every
    script the parser returns.

    The lemmas about one line are stated at the level of the function that
    handles that kind of line, and joined to `ParseLine` by small lemmas
    that route a line to its handler. */
module ScriptProperties {
  import opened Wrappers
  import opened Text
  import opened Scripts

  // ---------------------------------------------------------------------
  // Client declarations.
  // ---------------------------------------------------------------------

  /** The folded tokens of a declaration. */
  function FoldedSet(ids: seq<string>, cm: CaseMaps): set<string> {
    set k | 0 <= k < |ids| :: cm.fold(ids[k])
  }

  /** The tokens fold to well-formed ids, none declared before and no two
      alike. */
  predicate Declarable(clients: set<string>, ids: seq<string>, cm: CaseMaps) {
    && (forall k :: 0 <= k < |ids| ==> cm.fold(ids[k]) !in clients && WellFormedId(cm.fold(ids[k])))
    && (forall j, k :: 0 <= j < k < |ids| ==> cm.fold(ids[j]) != cm.fold(ids[k]))
  }

  /** The folded tokens of `ids` are those of its head and of its tail. */
  lemma FoldedSetCons(ids: seq<string>, cm: CaseMaps)
    requires ids != []
    ensures FoldedSet(ids, cm) == {cm.fold(ids[0])} + FoldedSet(ids[1..], cm)
  {
    var rest := ids[1..];
    forall x | x in FoldedSet(ids, cm) ensures x in {cm.fold(ids[0])} + FoldedSet(rest, cm) {
      var k :| 0 <= k < |ids| && cm.fold(ids[k]) == x;
      if k > 0 { assert ids[k] == rest[k - 1]; }
    }
    forall x | x in FoldedSet(rest, cm) ensures x in FoldedSet(ids, cm) {
      var k :| 0 <= k < |rest| && cm.fold(rest[k]) == x;
      assert rest[k] == ids[k + 1];
    }
  }

  /** The tokens of `ids` are declarable exactly when its head is a new,
      well-formed id and its tail is declarable once the head is added. */
  lemma DeclarableCons(clients: set<string>, ids: seq<string>, cm: CaseMaps)
    requires ids != []
    ensures Declarable(clients, ids, cm) <==>
              var id := cm.fold(ids[0]);
              id !in clients && WellFormedId(id) && Declarable(clients + {id}, ids[1..], cm)
  {
    var id := cm.fold(ids[0]);
    var rest := ids[1..];
    if Declarable(clients, ids, cm) {
      forall k | 0 <= k < |rest| ensures cm.fold(rest[k]) !in clients + {id} && WellFormedId(cm.fold(rest[k])) {
        assert rest[k] == ids[k + 1];
      }
      forall j, k | 0 <= j < k < |rest| ensures cm.fold(rest[j]) != cm.fold(rest[k]) {
        assert rest[j] == ids[j + 1] && rest[k] == ids[k + 1];
      }
    }
    if id !in clients && WellFormedId(id) && Declarable(clients + {id}, rest, cm) {
      forall k | 0 <= k < |ids| ensures cm.fold(ids[k]) !in clients && WellFormedId(cm.fold(ids[k])) {
        if k > 0 { assert ids[k] == rest[k - 1]; }
      }
      forall j, k | 0 <= j < k < |ids| ensures cm.fold(ids[j]) != cm.fold(ids[k]) {
        assert ids[k] == rest[k - 1];
        if j > 0 { assert ids[j] == rest[j - 1]; }
      }
    }
  }

  /** A declaration succeeds exactly when its tokens fold to well-formed,
      new and distinct ids, and then it adds exactly those ids. */
  lemma {:induction false} DeclareIdsSpec(clients: set<string>, ids: seq<string>, n: nat, cm: CaseMaps)
    ensures DeclareIds(clients, ids, n, cm).Success? <==> Declarable(clients, ids, cm)
    ensures DeclareIds(clients, ids, n, cm).Success? ==> DeclareIds(clients, ids, n, cm).value == clients + FoldedSet(ids, cm)
    decreases |ids|
  {
    if ids == [] {
      assert FoldedSet(ids, cm) == {};
    } else {
      var id := cm.fold(ids[0]);
      DeclarableCons(clients, ids, cm);
      FoldedSetCons(ids, cm);
      DeclareIdsSpec(clients + {id}, ids[1..], n, cm);
    }
  }

  // ---------------------------------------------------------------------
  // Client resolution.
  // ---------------------------------------------------------------------

  /** The owner of a sync line with a `:` is the one declared id whose
      `<id>:` starts the folded text, if any: no two ids can both match. */
  lemma SyncTargetSpec(clients: set<string>, folded: string)
    requires WellFormedIds(clients)
    ensures var id := SyncTarget(clients, folded);
            && (id != "" ==> id in clients && id + ":" <= folded)
            && (forall other :: other in clients && other + ":" <= folded ==> other == id)
  {
    var id := SyncTarget(clients, folded);
    if id != "" {
      SyncPrefixMatch(id, folded);
    }
    forall other | other in clients && other + ":" <= folded ensures other == id {
      SyncPrefixMatch(other, folded);
    }
  }

  /** The owner of a sync line: without a `:`, the previous action's
      client provided that action sends something; with a `:`, the
      declared, non-empty id that `<id>:` starts the folded text with. */
  lemma SyncClientSpec(s: Script, body: string, cm: CaseMaps)
    requires WellFormed(s) && s.actions != []
    ensures var id := SyncClient(s, body, cm);
            var last := s.actions[|s.actions| - 1];
            && (':' !in body ==> (id != "" <==> last.lineToSend != "") && (id != "" ==> id == last.client))
            && (':' in body ==> (id != "" <==> exists c :: c in s.clients && c != "" && c + ":" <= cm.fold(body)))
            && (':' in body && id != "" ==> id in s.clients && id + ":" <= cm.fold(body))
  {
    if ':' in body {
      SyncTargetSpec(s.clients, cm.fold(body));
    } else {
      assert s.actions[|s.actions| - 1].client != "";
    }
  }

  /** The client of an action line is the one declared id that, followed by
      a space or a tab, starts the line: no two ids can both match, and
      the line to send is what follows that separator. */
  lemma ActionForSpec(clients: set<string>, line: string)
    requires WellFormedIds(clients)
    ensures ActionFor(clients, line).Some? <==> exists id :: id in clients && (id + " " <= line || id + "\t" <= line)
    ensures ActionFor(clients, line).Some? ==>
              var a := ActionFor(clients, line).value;
              && a.client in clients && (a.client + " " <= line || a.client + "\t" <= line)
              && a.lineToSend == line[|a.client| + 1..] && a.waitAfterFor == {}
              && (forall id :: id in clients && (id + " " <= line || id + "\t" <= line) ==> id == a.client)
  {
    var k := IndexOfBlank(line);
    forall id | id in clients
      ensures (id + " " <= line || id + "\t" <= line) <==> k < |line| && id == line[..k]
    {
      ActionPrefixMatch(id, line);
    }
    if k < |line| && line[..k] in clients {
      ActionPrefixMatch(line[..k], line);
    }
  }

  // ---------------------------------------------------------------------
  // Routing one line to its handler.
  // ---------------------------------------------------------------------

  /** A line is handled once its leading spaces and tabs are gone. */
  lemma LineUnfold(s: Script, raw: string, n: nat, cm: CaseMaps)
    ensures ParseLine(s, raw, n, cm) == ParseTrimmedLine(s, TrimLeftSpTab(raw), n, cm)
  { }

  /** Indentation does not matter: spaces and tabs in front of a line do
      not change how it is handled. */
  lemma IndentIrrelevant(s: Script, ind: string, raw: string, n: nat, cm: CaseMaps)
    requires forall k :: 0 <= k < |ind| ==> ind[k] == ' ' || ind[k] == '\t'
    ensures ParseLine(s, ind + raw, n, cm) == ParseLine(s, raw, n, cm)
  {
    TrimIndent(ind, raw);
  }

  /** A line that is neither blank nor a comment is a command line. */
  lemma CommandRoute(s: Script, line: string, n: nat, cm: CaseMaps)
    requires !AllSpace(line) && !("#" <= line)
    ensures ParseTrimmedLine(s, line, n, cm) == ParseCommandLine(s, line, n, cm)
  {
    assert !("#~ " <= line) && !("#~d " <= line);
  }

  /** A line starting with `!` or `-` is neither blank nor a comment. */
  lemma MarkedCommand(line: string)
    requires line != [] && (line[0] == '!' || line[0] == '-')
    ensures !AllSpace(line) && !("#" <= line)
  {
    assert !IsSpace(line[0]);
  }

  lemma ClientRoute(s: Script, line: string, n: nat, cm: CaseMaps)
    requires "! " <= line
    ensures ParseTrimmedLine(s, line, n, cm) == ParseClientLine(s, line, n, cm)
  {
    MarkedCommand(line);
    CommandRoute(s, line, n, cm);
  }

  lemma SyncRoute(s: Script, line: string, n: nat, cm: CaseMaps)
    requires "-> " <= line
    ensures ParseTrimmedLine(s, line, n, cm) == ParseSyncLine(s, line, n, cm)
  {
    MarkedCommand(line);
    CommandRoute(s, line, n, cm);
  }

  lemma ActionRoute(s: Script, line: string, n: nat, cm: CaseMaps)
    requires !AllSpace(line) && !("#" <= line) && !("!" <= line) && !("-" <= line)
    ensures ParseTrimmedLine(s, line, n, cm) == ParseActionLine(s, line, n)
  { }

  // ---------------------------------------------------------------------
  // Lines.
  // ---------------------------------------------------------------------

  /** A sync line: with no earlier action it is an error; otherwise it
      appends exactly one action, which sends nothing and waits for the
      lower-cased words of its verb text, and whose client is, without a
      `:`, the previous action's client provided that action sends
      something, and with a `:`, the one declared id that `<id>:` starts
      the folded text with; when there is no such client it is an error. */
  lemma SyncLineSpec(s: Script, line: string, n: nat, cm: CaseMaps)
    requires WellFormed(s) && "-> " <= line
    ensures s.actions == [] ==> ParseSyncLine(s, line, n, cm) == Failure(NothingToSync(n))
    ensures var body := TrimSpace(line[3..]);
            var r := ParseSyncLine(s, line, n, cm);
            s.actions != [] ==>
              && (r.Failure? ==> r.error == NoMatchingClient(n, line))
              && (':' !in body ==> (r.Success? <==> s.actions[|s.actions| - 1].lineToSend != ""))
              && (':' in body ==> (r.Success? <==> exists id :: id in s.clients && id != "" && id + ":" <= cm.fold(body)))
              && (r.Success? ==>
                    && r.value.clients == s.clients
                    && |r.value.actions| == |s.actions| + 1 && r.value.actions[..|s.actions|] == s.actions
                    && r.value.actions[|s.actions|].lineToSend == ""
                    && r.value.actions[|s.actions|].waitAfterFor == VerbSet(Fields(SyncVerbText(body)), cm.lower)
                    && (':' !in body ==> r.value.actions[|s.actions|].client == s.actions[|s.actions| - 1].client)
                    && (':' in body ==> r.value.actions[|s.actions|].client in s.clients
                                        && r.value.actions[|s.actions|].client + ":" <= cm.fold(body)))
  {
    if s.actions != [] {
      SyncClientSpec(s, TrimSpace(line[3..]), cm);
    }
  }

  /** An action line appends exactly one action when a declared id
      followed by a space or a tab starts it, for that id and sending the
      rest of the line; otherwise it is not understood. */
  lemma ActionLineSpec(s: Script, line: string, n: nat)
    requires WellFormedIds(s.clients)
    ensures var r := ParseActionLine(s, line, n);
            && (r.Success? <==> exists id :: id in s.clients && (id + " " <= line || id + "\t" <= line))
            && (r.Failure? ==> r.error == NotUnderstood(n, line))
            && (r.Success? ==>
                  && r.value.clients == s.clients
                  && |r.value.actions| == |s.actions| + 1 && r.value.actions[..|s.actions|] == s.actions
                  && var a := r.value.actions[|s.actions|];
                     && a.client in s.clients && (a.client + " " <= line || a.client + "\t" <= line)
                     && a.lineToSend == line[|a.client| + 1..] && a.waitAfterFor == {})
  {
    ActionForSpec(s.clients, line);
  }

  /** Lines that start like a declaration or a sync line but lack the
      space that must follow are errors; so is a declaration without
      tokens. */
  lemma TrimmedMalformed(s: Script, line: string, n: nat, cm: CaseMaps)
    ensures "!" <= line && !("! " <= line) ==> ParseTrimmedLine(s, line, n, cm) == Failure(MalformedClientLine(n, line))
    ensures "-" <= line && !("-> " <= line) ==> ParseTrimmedLine(s, line, n, cm) == Failure(MalformedSyncLine(n, line))
    ensures "! " <= line && Fields(line[2..]) == [] ==> ParseTrimmedLine(s, line, n, cm) == Failure(NoClientIds(n))
  {
    if line != [] && (line[0] == '!' || line[0] == '-') {
      assert !IsSpace(line[0]);
    }
  }

  /** Only a declaration changes the client set. */
  lemma TrimmedKeepsClients(s: Script, line: string, n: nat, cm: CaseMaps)
    requires !("! " <= line)
    ensures ParseTrimmedLine(s, line, n, cm).Success? ==> ParseTrimmedLine(s, line, n, cm).value.clients == s.clients
  { }

  lemma LineKeepsClients(s: Script, raw: string, n: nat, cm: CaseMaps)
    requires !("! " <= TrimLeftSpTab(raw))
    ensures ParseLine(s, raw, n, cm).Success? ==> ParseLine(s, raw, n, cm).value.clients == s.clients
  {
    LineUnfold(s, raw, n, cm);
    TrimmedKeepsClients(s, TrimLeftSpTab(raw), n, cm);
  }

  // ---------------------------------------------------------------------
  // Error line numbers.
  // ---------------------------------------------------------------------

  /** The line number an error carries, if it carries one. */
  function ErrorLine(e: ParseError): Option<nat> {
    match e
    case NoClientIds(n) => Some(n)
    case ClientRedefined(_, n) => Some(n)
    case MalformedClientLine(n, _) => Some(n)
    case NothingToSync(n) => Some(n)
    case NoMatchingClient(n, _) => Some(n)
    case MalformedSyncLine(n, _) => Some(n)
    case NotUnderstood(n, _) => Some(n)
    case DisallowedStart(_) => None
    case DisallowedChar(_) => None
    case WhitespaceInId(_) => None
    case NoClients => None
  }

  /** The errors a bad token of a declaration gives. */
  predicate IdError(e: ParseError) {
    e.DisallowedStart? || e.DisallowedChar? || e.WhitespaceInId?
  }

  /** The error is about a declared token, or it carries a line number in
      `lo + 1 .. hi`. */
  predicate Located(e: ParseError, lo: nat, hi: nat) {
    IdError(e) || (ErrorLine(e).Some? && lo < ErrorLine(e).value <= hi)
  }

  lemma {:induction false} DeclareIdsErrors(clients: set<string>, ids: seq<string>, n: nat, cm: CaseMaps)
    ensures var r := DeclareIds(clients, ids, n, cm);
            r.Failure? ==> ErrorLine(r.error) == Some(n) || IdError(r.error)
    decreases |ids|
  {
    if ids != [] {
      DeclareIdsErrors(clients + {cm.fold(ids[0])}, ids[1..], n, cm);
    }
  }

  lemma ClientLineErrors(s: Script, line: string, n: nat, cm: CaseMaps)
    requires "! " <= line
    ensures var r := ParseClientLine(s, line, n, cm);
            r.Failure? ==> ErrorLine(r.error) == Some(n) || IdError(r.error)
  {
    DeclareIdsErrors(s.clients, Fields(line[2..]), n, cm);
  }

  lemma CommandErrors(s: Script, line: string, n: nat, cm: CaseMaps)
    ensures var r := ParseCommandLine(s, line, n, cm);
            r.Failure? ==> ErrorLine(r.error) == Some(n) || IdError(r.error)
  {
    if "! " <= line {
      ClientLineErrors(s, line, n, cm);
    }
  }

  lemma TrimmedErrors(s: Script, line: string, n: nat, cm: CaseMaps)
    ensures var r := ParseTrimmedLine(s, line, n, cm);
            r.Failure? ==> ErrorLine(r.error) == Some(n) || IdError(r.error)
  {
    if !AllSpace(line) && !("#" <= line) {
      CommandRoute(s, line, n, cm);
      CommandErrors(s, line, n, cm);
    }
  }

  /** Every error of line `n` carries the number `n`, except the errors
      about a declared token, which carry none. */
  lemma LineErrors(s: Script, raw: string, n: nat, cm: CaseMaps)
    ensures var r := ParseLine(s, raw, n, cm);
            r.Failure? ==> ErrorLine(r.error) == Some(n) || IdError(r.error)
  {
    LineUnfold(s, raw, n, cm);
    TrimmedErrors(s, TrimLeftSpTab(raw), n, cm);
  }

  /** An error from the lines after the first `n` carries the number of
      one of those lines. */
  lemma {:induction false} LinesErrors(s: Script, lines: seq<string>, n: nat, cm: CaseMaps)
    ensures ParseLines(s, lines, n, cm).Failure? ==> Located(ParseLines(s, lines, n, cm).error, n, n + |lines|)
    decreases |lines|
  {
    if lines != [] {
      LineErrors(s, lines[0], n + 1, cm);
      var r := ParseLine(s, lines[0], n + 1, cm);
      if r.Success? {
        LinesErrors(r.value, lines[1..], n + 1, cm);
      }
    }
  }

  /** Every error `ReadScript` reports is the missing-client error, an
      error about a declared token, or one carrying the 1-based number of
      a line of the text. */
  lemma ParseErrors(t: string, cm: CaseMaps)
    ensures Parse(t, cm).Failure? ==>
              Parse(t, cm).error == NoClients || Located(Parse(t, cm).error, 0, |Split(t, '\n')|)
  {
    LinesErrors(EmptyScript, Split(t, '\n'), 0, cm);
  }

  // ---------------------------------------------------------------------
  // Whole scripts.
  // ---------------------------------------------------------------------

  /** Without a `! ` line no client is ever declared. */
  lemma {:induction false} NoDeclarationKeepsClients(s: Script, lines: seq<string>, n: nat, cm: CaseMaps)
    requires forall k :: 0 <= k < |lines| ==> !("! " <= TrimLeftSpTab(lines[k]))
    ensures ParseLines(s, lines, n, cm).Success? ==> ParseLines(s, lines, n, cm).value.clients == s.clients
    decreases |lines|
  {
    if lines != [] {
      LineKeepsClients(s, lines[0], n + 1, cm);
      var r := ParseLine(s, lines[0], n + 1, cm);
      if r.Success? {
        NoDeclarationKeepsClients(r.value, lines[1..], n + 1, cm);
      }
    }
  }

  /** A script without a `! ` line fails to parse. */
  lemma NoDeclarationFails(t: string, cm: CaseMaps)
    requires forall k :: 0 <= k < |Split(t, '\n')| ==> !("! " <= TrimLeftSpTab(Split(t, '\n')[k]))
    ensures Parse(t, cm).Failure?
    ensures ParseLines(EmptyScript, Split(t, '\n'), 0, cm).Success? ==> Parse(t, cm).error == NoClients
  {
    NoDeclarationKeepsClients(EmptyScript, Split(t, '\n'), 0, cm);
  }

  /** A declaration keeps a script well formed and only adds clients. */
  lemma ClientLineWellFormed(s: Script, line: string, n: nat, cm: CaseMaps)
    requires WellFormed(s) && "! " <= line && ParseClientLine(s, line, n, cm).Success?
    ensures WellFormed(ParseClientLine(s, line, n, cm).value)
    ensures s.clients <= ParseClientLine(s, line, n, cm).value.clients
  {
    var ids := Fields(line[2..]);
    DeclaredWellFormed(s.clients, ids, n, cm);
    DeclareIdsSpec(s.clients, ids, n, cm);
  }

  /** An action line keeps a script well formed: the matched id is not
      empty, because the line does not start with a space or a tab. */
  lemma ActionLineWellFormed(s: Script, line: string, n: nat)
    requires WellFormed(s) && ParseActionLine(s, line, n).Success?
    requires line != [] ==> line[0] != ' ' && line[0] != '\t'
    ensures WellFormed(ParseActionLine(s, line, n).value)
    ensures s.clients == ParseActionLine(s, line, n).value.clients
  {
    ActionLineSpec(s, line, n);
    var r := ParseActionLine(s, line, n).value;
    forall k | 0 <= k < |r.actions| ensures r.actions[k].client in r.clients && r.actions[k].client != "" {
      if k < |s.actions| {
        assert r.actions[k] == r.actions[..|s.actions|][k];
      }
    }
  }

  /** Appending an action for a declared, non-empty client keeps a script
      well formed. */
  lemma AppendWellFormed(s: Script, a: ScriptAction)
    requires WellFormed(s) && a.client in s.clients && a.client != ""
    ensures WellFormed(s.(actions := s.actions + [a]))
  {
    var actions := s.actions + [a];
    forall k | 0 <= k < |actions| ensures actions[k].client in s.clients && actions[k].client != "" {
      if k < |s.actions| {
        assert actions[k] == s.actions[k];
      }
    }
  }

  /** A sync line keeps a script well formed. */
  lemma SyncLineWellFormed(s: Script, line: string, n: nat, cm: CaseMaps)
    requires WellFormed(s) && "-> " <= line && ParseSyncLine(s, line, n, cm).Success?
    ensures WellFormed(ParseSyncLine(s, line, n, cm).value)
    ensures s.clients == ParseSyncLine(s, line, n, cm).value.clients
  {
    var body := TrimSpace(line[3..]);
    SyncClientSpec(s, body, cm);
    var id := SyncClient(s, body, cm);
    var action := NewScriptAction().(client := id, waitAfterFor := VerbSet(Fields(SyncVerbText(body)), cm.lower));
    assert ParseSyncLine(s, line, n, cm).value == s.(actions := s.actions + [action]);
    AppendWellFormed(s, action);
  }

  /** One line, its indentation gone, keeps a script well formed and
      never removes a client. */
  lemma TrimmedWellFormed(s: Script, line: string, n: nat, cm: CaseMaps)
    requires WellFormed(s) && ParseTrimmedLine(s, line, n, cm).Success?
    requires line != [] ==> line[0] != ' ' && line[0] != '\t'
    ensures WellFormed(ParseTrimmedLine(s, line, n, cm).value)
    ensures s.clients <= ParseTrimmedLine(s, line, n, cm).value.clients
  {
    if AllSpace(line) || "#" <= line {
    } else if "! " <= line {
      ClientRoute(s, line, n, cm);
      ClientLineWellFormed(s, line, n, cm);
    } else if "-> " <= line {
      SyncRoute(s, line, n, cm);
      SyncLineWellFormed(s, line, n, cm);
    } else if !("!" <= line) && !("-" <= line) {
      ActionRoute(s, line, n, cm);
      ActionLineWellFormed(s, line, n);
    }
  }

  lemma LineWellFormed(s: Script, raw: string, n: nat, cm: CaseMaps)
    requires WellFormed(s) && ParseLine(s, raw, n, cm).Success?
    ensures WellFormed(ParseLine(s, raw, n, cm).value)
    ensures s.clients <= ParseLine(s, raw, n, cm).value.clients
  {
    LineUnfold(s, raw, n, cm);
    TrimmedWellFormed(s, TrimLeftSpTab(raw), n, cm);
  }

  lemma {:induction false} LinesWellFormed(s: Script, lines: seq<string>, n: nat, cm: CaseMaps)
    requires WellFormed(s) && ParseLines(s, lines, n, cm).Success?
    ensures WellFormed(ParseLines(s, lines, n, cm).value)
    decreases |lines|
  {
    if lines != [] {
      LineWellFormed(s, lines[0], n + 1, cm);
      LinesWellFormed(ParseLine(s, lines[0], n + 1, cm).value, lines[1..], n + 1, cm);
    }
  }

  /** Every script `ReadScript` returns declares at least one client, its
      ids are free of `:`, spaces and tabs and do not start with `!`, `#`
      or `-`, and every action names a declared, non-empty client. */
  lemma ParseWellFormed(t: string, cm: CaseMaps)
    requires Parse(t, cm).Success?
    ensures WellFormed(Parse(t, cm).value) && Parse(t, cm).value.clients != {}
  {
    LinesWellFormed(EmptyScript, Split(t, '\n'), 0, cm);
  }
  // ---------------------------------------------------------------------
  // Non-empty client ids.
  // ---------------------------------------------------------------------

  /** Declaring non-empty tokens never adds the empty id, when folding keeps
      non-empty strings non-empty. */
  lemma {:induction false} DeclareIdsNonEmpty(clients: set<string>, ids: seq<string>, n: nat, cm: CaseMaps)
    requires FoldKeepsNonEmpty(cm) && "" !in clients
    requires forall k :: 0 <= k < |ids| ==> ids[k] != []
    requires DeclareIds(clients, ids, n, cm).Success?
    ensures "" !in DeclareIds(clients, ids, n, cm).value
    decreases |ids|
  {
    if ids != [] {
      assert cm.fold(ids[0]) != [];
      DeclareIdsNonEmpty(clients + {cm.fold(ids[0])}, ids[1..], n, cm);
    }
  }

  /** A declaration never adds the empty id: its tokens are non-empty. */
  lemma ClientLineNonEmpty(s: Script, line: string, n: nat, cm: CaseMaps)
    requires FoldKeepsNonEmpty(cm) && "" !in s.clients
    requires "! " <= line && ParseClientLine(s, line, n, cm).Success?
    ensures "" !in ParseClientLine(s, line, n, cm).value.clients
  {
    DeclareIdsNonEmpty(s.clients, Fields(line[2..]), n, cm);
  }

  lemma TrimmedNonEmpty(s: Script, line: string, n: nat, cm: CaseMaps)
    requires FoldKeepsNonEmpty(cm) && "" !in s.clients && ParseTrimmedLine(s, line, n, cm).Success?
    ensures "" !in ParseTrimmedLine(s, line, n, cm).value.clients
  {
    if "! " <= line {
      ClientRoute(s, line, n, cm);
      ClientLineNonEmpty(s, line, n, cm);
    } else {
      TrimmedKeepsClients(s, line, n, cm);
    }
  }

  lemma LineNonEmpty(s: Script, raw: string, n: nat, cm: CaseMaps)
    requires FoldKeepsNonEmpty(cm) && "" !in s.clients && ParseLine(s, raw, n, cm).Success?
    ensures "" !in ParseLine(s, raw, n, cm).value.clients
  {
    LineUnfold(s, raw, n, cm);
    TrimmedNonEmpty(s, TrimLeftSpTab(raw), n, cm);
  }

  lemma {:induction false} LinesNonEmpty(s: Script, lines: seq<string>, n: nat, cm: CaseMaps)
    requires FoldKeepsNonEmpty(cm) && "" !in s.clients && ParseLines(s, lines, n, cm).Success?
    ensures "" !in ParseLines(s, lines, n, cm).value.clients
    decreases |lines|
  {
    if lines != [] {
      LineNonEmpty(s, lines[0], n + 1, cm);
      LinesNonEmpty(ParseLine(s, lines[0], n + 1, cm).value, lines[1..], n + 1, cm);
    }
  }

  /** When case folding keeps non-empty strings non-empty, every client id
      of a parsed script is non-empty. */
  lemma ParseNonEmptyIds(t: string, cm: CaseMaps)
    requires FoldKeepsNonEmpty(cm) && Parse(t, cm).Success?
    ensures forall id :: id in Parse(t, cm).value.clients ==> id != ""
  {
    LinesNonEmpty(EmptyScript, Split(t, '\n'), 0, cm);
  }
}
