/** lib/scripts.go: the script model, the script-language parser
    (`ReadScript`) and the script printer (`Script.String`). */
module Scripts {
  import opened Wrappers
  import opened Text

  /** The two foreign Unicode case maps the parser calls:
      `cases.Fold().String` and `strings.ToLower`.  They are parameters, so
      nothing is assumed about them except where a property says so. */
  datatype CaseMaps = CaseMaps(fold: string -> string, lower: string -> string)

  /** Case folding maps a non-empty string to a non-empty string. */
  ghost predicate FoldKeepsNonEmpty(cm: CaseMaps) {
    forall w: string :: w != [] ==> cm.fold(w) != []
  }

  /** An action to perform with one client: a line to send (`""` for none)
      and the set of lower-case verbs to wait for afterwards. */
  datatype ScriptAction = ScriptAction(client: string, lineToSend: string, waitAfterFor: set<string>)

  function NewScriptAction(): ScriptAction {
    ScriptAction("", "", {})
  }

  /** A parsed script.  `clients` models the `map[string]bool` whose only
      values are `true`. */
  datatype Script = Script(name: string, shortDescription: string, clients: set<string>, actions: seq<ScriptAction>)

  const EmptyScript := Script("", "", {}, [])

  datatype ResultLineType = ResultIRCMessage | ResultDisconnected | ResultActionSync

  datatype ScriptResultLine = ScriptResultLine(lineType: ResultLineType, client: string, rawLine: string)

  /** The output of running a script on one server. */
  datatype ScriptResults = ScriptResults(clients: set<string>, lines: seq<ScriptResultLine>)

  function NewScriptResults(): ScriptResults {
    ScriptResults({}, [])
  }

  /** The errors `ReadScript` returns; `line` is the 1-based line number. */
  datatype ParseError =
    | NoClientIds(line: nat)
    | ClientRedefined(id: string, line: nat)
    | DisallowedStart(id: string)
    | DisallowedChar(id: string)
    | WhitespaceInId(id: string)
    | MalformedClientLine(line: nat, text: string)
    | NothingToSync(line: nat)
    | NoMatchingClient(line: nat, text: string)
    | MalformedSyncLine(line: nat, text: string)
    | NotUnderstood(line: nat, text: string)
    | NoClients

  predicate StartsReserved(id: string) {
    "!" <= id || "#" <= id || "-" <= id
  }

  /** What the declaration checks leave in the client set. */
  predicate WellFormedId(id: string) {
    !StartsReserved(id) && ':' !in id && ' ' !in id && '\t' !in id
  }

  predicate WellFormedIds(clients: set<string>) {
    forall id :: id in clients ==> WellFormedId(id)
  }

  /** What holds of every script the parser builds. */
  predicate WellFormed(s: Script) {
    && WellFormedIds(s.clients)
    && forall k :: 0 <= k < |s.actions| ==> s.actions[k].client in s.clients && s.actions[k].client != ""
  }

  // ---------------------------------------------------------------------
  // The parser, as functions: one line at a time, in the order of the
  // source's classification.
  // ---------------------------------------------------------------------

  /** The checks on the tokens of a `! ` line, in the source's order; each
      accepted token joins the set before the next is checked. */
  function DeclareIds(clients: set<string>, ids: seq<string>, n: nat, cm: CaseMaps): Result<set<string>, ParseError>
    decreases |ids|
  {
    if ids == [] then Success(clients)
    else
      var id := cm.fold(ids[0]);
      if id in clients then Failure(ClientRedefined(id, n))
      else if StartsReserved(id) then Failure(DisallowedStart(id))
      else if ':' in id then Failure(DisallowedChar(id))
      else if ' ' in id || '\t' in id then Failure(WhitespaceInId(id))
      else DeclareIds(clients + {id}, ids[1..], n, cm)
  }

  /** The declared id that `<id>:` starts `folded` with, or `""`.  Since no
      id holds a `:`, such an id is the text before the first `:`. */
  function SyncTarget(clients: set<string>, folded: string): string {
    var k := IndexOf(folded, ':');
    if k < |folded| && folded[..k] in clients then folded[..k] else ""
  }

  /** The owning client of a sync line whose text after `-> ` is `body`,
      or `""` when there is none. */
  function SyncClient(s: Script, body: string, cm: CaseMaps): string
    requires s.actions != []
  {
    if ':' in body then SyncTarget(s.clients, cm.fold(body))
    else
      var last := s.actions[|s.actions| - 1];
      if last.lineToSend != "" then last.client else ""
  }

  /** The verb text of a sync line: after the first `:`, if there is one. */
  function SyncVerbText(body: string): string {
    if ':' in body then AfterFirst(body, ':') else body
  }

  function VerbSet(words: seq<string>, lower: string -> string): set<string> {
    set w | w in words :: lower(w)
  }

  /** The action an action line stands for, if a declared id followed by a
      space or a tab starts it.  Since no id holds a space or a tab, such an
      id is the text before the first space or tab. */
  function ActionFor(clients: set<string>, line: string): Option<ScriptAction> {
    var k := IndexOfBlank(line);
    if k < |line| && line[..k] in clients then
      Some(NewScriptAction().(client := line[..k], lineToSend := line[k + 1..]))
    else None
  }

  /** A `! ` line: every token is folded, checked and declared. */
  function ParseClientLine(s: Script, line: string, n: nat, cm: CaseMaps): Result<Script, ParseError>
    requires "! " <= line
  {
    var ids := Fields(line[2..]);
    if ids == [] then Failure(NoClientIds(n))
    else
      match DeclareIds(s.clients, ids, n, cm)
      case Failure(e) => Failure(e)
      case Success(clients) => Success(s.(clients := clients))
  }

  /** A `-> ` line: a new action for the owning client, sending nothing and
      waiting for the lower-cased verbs. */
  function ParseSyncLine(s: Script, line: string, n: nat, cm: CaseMaps): Result<Script, ParseError>
    requires "-> " <= line
  {
    if s.actions == [] then Failure(NothingToSync(n))
    else
      var body := TrimSpace(line[3..]);
      var id := SyncClient(s, body, cm);
      if id == "" then Failure(NoMatchingClient(n, line))
      else
        var action := NewScriptAction().(client := id, waitAfterFor := VerbSet(Fields(SyncVerbText(body)), cm.lower));
        Success(s.(actions := s.actions + [action]))
  }

  /** Any other line must be an action line. */
  function ParseActionLine(s: Script, line: string, n: nat): Result<Script, ParseError> {
    match ActionFor(s.clients, line)
    case Some(action) => Success(s.(actions := s.actions + [action]))
    case None => Failure(NotUnderstood(n, line))
  }

  /** A line whose leading spaces and tabs are gone, numbered `n`:
      blank lines, metadata and comments, then the other kinds. */
  function ParseTrimmedLine(s: Script, line: string, n: nat, cm: CaseMaps): Result<Script, ParseError> {
    if AllSpace(line) then Success(s)
    else if "#~ " <= line then Success(s.(name := TrimSpace(line[3..])))
    else if "#~d " <= line then Success(s.(shortDescription := TrimSpace(line[4..])))
    else if "#" <= line then Success(s)
    else ParseCommandLine(s, line, n, cm)
  }

  /** Client declarations, sync lines, action lines, and the malformed
      forms of the first two. */
  function ParseCommandLine(s: Script, line: string, n: nat, cm: CaseMaps): Result<Script, ParseError> {
    if "! " <= line then ParseClientLine(s, line, n, cm)
    else if "!" <= line then Failure(MalformedClientLine(n, line))
    else if "-> " <= line then ParseSyncLine(s, line, n, cm)
    else if "-" <= line then Failure(MalformedSyncLine(n, line))
    else ParseActionLine(s, line, n)
  }

  /** One line of the script, numbered `n`; indentation does not matter. */
  function ParseLine(s: Script, raw: string, n: nat, cm: CaseMaps): Result<Script, ParseError> {
    ParseTrimmedLine(s, TrimLeftSpTab(raw), n, cm)
  }

  /** The lines after the first `n`, in order; the first error stops it. */
  function ParseLines(s: Script, lines: seq<string>, n: nat, cm: CaseMaps): Result<Script, ParseError>
    decreases |lines|
  {
    if lines == [] then Success(s)
    else
      match ParseLine(s, lines[0], n + 1, cm)
      case Failure(e) => Failure(e)
      case Success(next) => ParseLines(next, lines[1..], n + 1, cm)
  }

  /** The whole script text. */
  function Parse(t: string, cm: CaseMaps): Result<Script, ParseError> {
    match ParseLines(EmptyScript, Split(t, '\n'), 0, cm)
    case Failure(e) => Failure(e)
    case Success(s) => if s.clients == {} then Failure(NoClients) else Success(s)
  }

  lemma ParseLinesStep(s: Script, lines: seq<string>, i: nat, cm: CaseMaps)
    requires i < |lines|
    ensures ParseLines(s, lines[i..], i, cm) ==
      match ParseLine(s, lines[i], i + 1, cm)
      case Failure(e) => Failure(e)
      case Success(next) => ParseLines(next, lines[i + 1..], i + 1, cm)
  {
    assert lines[i..][0] == lines[i] && lines[i..][1..] == lines[i + 1..];
  }

  /** When `<id><c>` starts `s` and `id` has no `c`, the first `c` of `s`
      is the one right after `id`. */
  lemma SeparatorAt(id: string, c: char, s: string)
    requires c !in id && id + [c] <= s
    ensures IndexOf(s, c) == |id| && s[..|id|] == id
  {
    assert s[|id|] == (id + [c])[|id|];
    forall j | 0 <= j < |id| ensures s[j] == id[j] {
      assert s[j] == (id + [c])[j];
    }
    assert s[..|id|] == id;
  }

  /** Likewise for the first space or tab. */
  lemma BlankAt(id: string, c: char, s: string)
    requires c == ' ' || c == '\t'
    requires ' ' !in id && '\t' !in id && id + [c] <= s
    ensures IndexOfBlank(s) == |id| && s[..|id|] == id
  {
    assert s[|id|] == (id + [c])[|id|];
    forall j | 0 <= j < |id| ensures s[j] == id[j] {
      assert s[j] == (id + [c])[j];
    }
    assert s[..|id|] == id;
  }

  /** The text before the `k`-th character, followed by it, starts `s`. */
  lemma PrefixThrough(s: string, k: nat)
    requires k < |s|
    ensures s[..k] + [s[k]] <= s
  {
    assert s[..k] + [s[k]] == s[..k + 1];
  }

  /** For an id free of `:`, `<id>:` starts `folded` exactly when the id is
      the text before the first `:` of `folded`. */
  lemma SyncPrefixMatch(id: string, folded: string)
    requires ':' !in id
    ensures id + ":" <= folded <==> IndexOf(folded, ':') < |folded| && id == folded[..IndexOf(folded, ':')]
  {
    var k := IndexOf(folded, ':');
    if id + ":" <= folded {
      SeparatorAt(id, ':', folded);
    }
    if k < |folded| && id == folded[..k] {
      PrefixThrough(folded, k);
    }
  }

  /** For an id free of spaces and tabs, `<id> ` or `<id>\t` starts `line`
      exactly when the id is the text before the first space or tab. */
  lemma ActionPrefixMatch(id: string, line: string)
    requires ' ' !in id && '\t' !in id
    ensures (id + " " <= line || id + "\t" <= line) <==>
            IndexOfBlank(line) < |line| && id == line[..IndexOfBlank(line)]
  {
    var k := IndexOfBlank(line);
    if id + " " <= line {
      BlankAt(id, ' ', line);
    } else if id + "\t" <= line {
      BlankAt(id, '\t', line);
    }
    if k < |line| && id == line[..k] {
      PrefixThrough(line, k);
    }
  }

  /** For an id free of the separator `c`, the text after the first `c` of
      a line that `<id><c>` starts is what follows that prefix. */
  lemma AfterPrefix(id: string, c: char, line: string)
    requires c !in id && id + [c] <= line
    ensures c in line && AfterFirst(line, c) == line[|id| + 1..]
  {
    SeparatorAt(id, c, line);
  }

  // ---------------------------------------------------------------------
  // ReadScript, as the source writes it: a loop over the lines, and inner
  // loops over the tokens of a `! ` line and over the declared ids.
  // ---------------------------------------------------------------------

  /** The loop over the tokens of a `! ` line. */
  method DeclareClients(clients: set<string>, ids: seq<string>, n: nat, cm: CaseMaps)
    returns (r: Result<set<string>, ParseError>)
    ensures r == DeclareIds(clients, ids, n, cm)
  {
    var declared := clients;
    for k := 0 to |ids|
      invariant DeclareIds(clients, ids, n, cm) == DeclareIds(declared, ids[k..], n, cm)
    {
      assert ids[k..][0] == ids[k] && ids[k..][1..] == ids[k + 1..];
      var id := cm.fold(ids[k]);
      if id in declared {
        return Failure(ClientRedefined(id, n));
      }
      if "!" <= id || "#" <= id || "-" <= id {
        return Failure(DisallowedStart(id));
      }
      if ':' in id {
        return Failure(DisallowedChar(id));
      }
      if ' ' in id || '\t' in id {
        return Failure(WhitespaceInId(id));
      }
      declared := declared + {id};
    }
    return Success(declared);
  }

  /** The walk over the declared ids, in the map's arbitrary order, for one
      whose `<id>:` starts the folded sync text; the first hit is taken.
      Because no id holds a `:`, at most one can hit, so the order does not
      matter. */
  method FindSyncTarget(clients: set<string>, folded: string) returns (clientID: string)
    requires WellFormedIds(clients)
    ensures clientID == SyncTarget(clients, folded)
  {
    var rest := clients;
    while rest != {}
      invariant rest <= clients
      invariant forall id :: id in clients - rest ==> !(id + ":" <= folded)
      decreases |rest|
    {
      var id :| id in rest;
      rest := rest - {id};
      SyncPrefixMatch(id, folded);
      if id + ":" <= folded {
        return id;
      }
    }
    var k := IndexOf(folded, ':');
    if k < |folded| && folded[..k] in clients {
      SyncPrefixMatch(folded[..k], folded);
    }
    return "";
  }

  /** The walk over the declared ids, in the map's arbitrary order, testing
      `<id> ` and `<id>\t` against the unfolded line; every hit yields an
      action.  Because no id holds a space or a tab, at most one hits. */
  method MatchActionLine(clients: set<string>, line: string) returns (found: seq<ScriptAction>)
    requires WellFormedIds(clients)
    ensures found == match ActionFor(clients, line) case Some(a) => [a] case None => []
  {
    found := [];
    var k := IndexOfBlank(line);
    var rest := clients;
    while rest != {}
      invariant rest <= clients
      invariant found == if k < |line| && line[..k] in clients - rest
                         then [NewScriptAction().(client := line[..k], lineToSend := line[k + 1..])]
                         else []
      decreases |rest|
    {
      var id :| id in rest;
      rest := rest - {id};
      ActionPrefixMatch(id, line);
      if id + " " <= line {
        AfterPrefix(id, ' ', line);
        var newAction := NewScriptAction().(client := id, lineToSend := AfterFirst(line, ' '));
        found := found + [newAction];
      } else if id + "\t" <= line {
        AfterPrefix(id, '\t', line);
        var newAction := NewScriptAction().(client := id, lineToSend := AfterFirst(line, '\t'));
        found := found + [newAction];
      }
    }
  }

  /** The handling of a `! ` line. */
  method ReadClientLine(s: Script, line: string, lineNumber: nat, cm: CaseMaps) returns (r: Result<Script, ParseError>)
    requires "! " <= line
    requires WellFormedIds(s.clients)
    ensures r == ParseClientLine(s, line, lineNumber, cm)
    ensures r.Success? ==> WellFormedIds(r.value.clients)
  {
    var ids := Fields(line[2..]);
    if |ids| < 1 {
      return Failure(NoClientIds(lineNumber));
    }
    var declared := DeclareClients(s.clients, ids, lineNumber, cm);
    if declared.Failure? {
      return Failure(declared.error);
    }
    DeclaredWellFormed(s.clients, ids, lineNumber, cm);
    return Success(s.(clients := declared.value));
  }

  /** The loop that lower-cases the verbs of a sync line into its wait set. */
  method LowerVerbs(verbs: seq<string>, lower: string -> string) returns (waitFor: set<string>)
    ensures waitFor == VerbSet(verbs, lower)
  {
    waitFor := {};
    for k := 0 to |verbs|
      invariant waitFor == VerbSet(verbs[..k], lower)
    {
      assert verbs[..k + 1] == verbs[..k] + [verbs[k]];
      waitFor := waitFor + {lower(verbs[k])};
    }
    assert verbs[..|verbs|] == verbs;
  }

  /** The handling of a `-> ` line. */
  method ReadSyncLine(s: Script, line: string, lineNumber: nat, cm: CaseMaps) returns (r: Result<Script, ParseError>)
    requires "-> " <= line
    requires WellFormedIds(s.clients)
    ensures r == ParseSyncLine(s, line, lineNumber, cm)
  {
    if |s.actions| < 1 {
      return Failure(NothingToSync(lineNumber));
    }
    var originalLine := line;
    var text := TrimSpace(line[3..]);
    var clientID := "";
    if ':' in text {
      var foldedLine := cm.fold(text);
      clientID := FindSyncTarget(s.clients, foldedLine);
      text := AfterFirst(text, ':');
    } else {
      var lastAction := s.actions[|s.actions| - 1];
      if lastAction.lineToSend != "" {
        clientID := lastAction.client;
      }
    }
    if clientID == "" {
      return Failure(NoMatchingClient(lineNumber, originalLine));
    }
    var verbs := Fields(text);
    var newAction := NewScriptAction().(client := clientID);
    var waitFor := LowerVerbs(verbs, cm.lower);
    newAction := newAction.(waitAfterFor := waitFor);
    return Success(s.(actions := s.actions + [newAction]));
  }

  /** One pass of `ReadScript`'s loop: the indentation is dropped, then
      blank lines, metadata and comments are handled. */
  method ReadLine(s: Script, raw: string, lineNumber: nat, cm: CaseMaps) returns (r: Result<Script, ParseError>)
    requires WellFormedIds(s.clients)
    ensures r == ParseLine(s, raw, lineNumber, cm)
    ensures r.Success? ==> WellFormedIds(r.value.clients)
  {
    var line := TrimLeftSpTab(raw);
    assert ParseLine(s, raw, lineNumber, cm) == ParseTrimmedLine(s, line, lineNumber, cm);
    if |TrimSpace(line)| < 1 {
      return Success(s);
    }
    assert !AllSpace(line);
    if "#~ " <= line {
      return Success(s.(name := TrimSpace(line[3..])));
    }
    if "#~d " <= line {
      return Success(s.(shortDescription := TrimSpace(line[4..])));
    }
    if "#" <= line {
      return Success(s);
    }
    r := ReadCommandLine(s, line, lineNumber, cm);
  }

  /** The rest of one pass of `ReadScript`'s loop: client declarations,
      sync lines and action lines, and the malformed forms of the first
      two. */
  method ReadCommandLine(s: Script, line: string, lineNumber: nat, cm: CaseMaps) returns (r: Result<Script, ParseError>)
    requires WellFormedIds(s.clients)
    ensures r == ParseCommandLine(s, line, lineNumber, cm)
    ensures r.Success? ==> WellFormedIds(r.value.clients)
  {
    if "! " <= line {
      r := ReadClientLine(s, line, lineNumber, cm);
      return;
    }
    if "!" <= line {
      return Failure(MalformedClientLine(lineNumber, line));
    }
    if "-> " <= line {
      r := ReadSyncLine(s, line, lineNumber, cm);
      return;
    }
    if "-" <= line {
      return Failure(MalformedSyncLine(lineNumber, line));
    }
    var found := MatchActionLine(s.clients, line);
    if found != [] {
      return Success(s.(actions := s.actions + found));
    }
    return Failure(NotUnderstood(lineNumber, line));
  }

  /** `ReadScript`: the script text to a script or the first error.  The
      declared ids are walked in an arbitrary order, as Go walks a map, and
      still the result is the one `Parse` gives. */
  method ReadScript(t: string, cm: CaseMaps) returns (r: Result<Script, ParseError>)
    ensures r == Parse(t, cm)
  {
    var s := EmptyScript;
    var lines := Split(t, '\n');
    ghost var whole := ParseLines(EmptyScript, lines, 0, cm);
    var lineNumber := 0;
    while lineNumber < |lines|
      invariant lineNumber <= |lines|
      invariant WellFormedIds(s.clients)
      invariant ParseLines(s, lines[lineNumber..], lineNumber, cm) == whole
    {
      ParseLinesStep(s, lines, lineNumber, cm);
      var line := lines[lineNumber];
      lineNumber := lineNumber + 1;
      var next := ReadLine(s, line, lineNumber, cm);
      if next.Failure? {
        return Failure(next.error);
      }
      s := next.value;
    }

    if |s.clients| == 0 {
      return Failure(NoClients);
    }
    return Success(s);
  }

  /** Every id a successful declaration adds passed the checks. */
  lemma {:induction false} DeclaredWellFormed(clients: set<string>, ids: seq<string>, n: nat, cm: CaseMaps)
    requires WellFormedIds(clients)
    requires DeclareIds(clients, ids, n, cm).Success?
    ensures WellFormedIds(DeclareIds(clients, ids, n, cm).value)
    decreases |ids|
  {
    if ids != [] {
      var id := cm.fold(ids[0]);
      DeclaredWellFormed(clients + {id}, ids[1..], n, cm);
    }
  }

  // ---------------------------------------------------------------------
  // Script.String
  // ---------------------------------------------------------------------

  ghost function RenderAction(a: ScriptAction): string {
    (if a.lineToSend != "" then a.client + " will send: " + a.lineToSend + "\n" else "")
    + (if 0 < |a.waitAfterFor| then "  " + a.client + " will wait for: " + Join(SortedSeq(a.waitAfterFor), " ") + "\n" else "")
  }

  ghost function RenderActions(actions: seq<ScriptAction>): string
    decreases |actions|
  {
    if actions == [] then ""
    else RenderActions(actions[..|actions| - 1]) + RenderAction(actions[|actions| - 1])
  }

  lemma RenderActionsStep(actions: seq<ScriptAction>, k: nat)
    requires k < |actions|
    ensures RenderActions(actions[..k + 1]) == RenderActions(actions[..k]) + RenderAction(actions[k])
  {
    assert actions[..k + 1][..k] == actions[..k];
  }

  /** The text form of a script: the clients in ascending order joined by
      `", "`, then per action a send line when it sends something and a wait
      line listing its verbs in ascending order when it waits for any. */
  ghost function Render(s: Script): string {
    "Clients: " + Join(SortedSeq(s.clients), ", ") + "\n" + RenderActions(s.actions)
  }

  /** The text of one action inside `Script.String`'s loop. */
  method ActionString(action: ScriptAction) returns (text: string)
    ensures text == RenderAction(action)
  {
    text := "";
    if action.lineToSend != "" {
      text := action.client + " will send: " + action.lineToSend + "\n";
    }
    if 0 < |action.waitAfterFor| {
      var verbs := SortedKeys(action.waitAfterFor);
      text := text + ("  " + action.client + " will wait for: " + Join(verbs, " ") + "\n");
    }
  }

  /** `Script.String`: gathers the client ids and each action's verbs in the
      maps' arbitrary order and sorts them, so the text is `Render(s)`
      whatever that order was. */
  method ScriptString(s: Script) returns (t: string)
    ensures t == Render(s)
  {
    var clientIDs := SortedKeys(s.clients);
    t := "Clients: " + Join(clientIDs, ", ") + "\n";
    ghost var header := t;
    assert RenderActions(s.actions[..0]) == "";
    for k := 0 to |s.actions|
      invariant t == header + RenderActions(s.actions[..k])
    {
      var text := ActionString(s.actions[k]);
      RenderActionsStep(s.actions, k);
      t := t + text;
    }
    assert s.actions[..|s.actions|] == s.actions;
  }
}
