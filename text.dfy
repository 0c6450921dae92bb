/** The parts of Go's `strings`, `strconv` and `sort` packages that the
    script parser, the script printer and the run loop rely on, written out
    over `string` (a sequence of Unicode scalar values). */
module Text {

  /** Go's `unicode.IsSpace`: the Latin-1 spaces and the other characters
      with the Unicode White_Space property. */
  predicate IsSpace(c: char) {
    || c == ' ' || c == '\t' || c == '\n' || c == '\U{000B}' || c == '\U{000C}' || c == '\r'
    || c == '\U{0085}' || c == '\U{00A0}' || c == '\U{1680}'
    || ('\U{2000}' <= c <= '\U{200A}')
    || c == '\U{2028}' || c == '\U{2029}' || c == '\U{202F}' || c == '\U{205F}' || c == '\U{3000}'
  }

  predicate NoSpace(w: string) {
    forall j :: 0 <= j < |w| ==> !IsSpace(w[j])
  }

  predicate AllSpace(w: string) {
    forall j :: 0 <= j < |w| ==> IsSpace(w[j])
  }

  /** `strings.TrimLeft(s, " \t")`: drops the longest prefix of spaces and tabs. */
  function TrimLeftSpTab(s: string): (r: string)
    ensures |r| <= |s| && r == s[|s| - |r|..]
    ensures r != [] ==> r[0] != ' ' && r[0] != '\t'
    ensures forall j :: 0 <= j < |s| - |r| ==> s[j] == ' ' || s[j] == '\t'
  {
    if s != [] && (s[0] == ' ' || s[0] == '\t') then TrimLeftSpTab(s[1..]) else s
  }

  /** Spaces and tabs put in front of a text are all dropped again. */
  lemma {:induction false} TrimIndent(ind: string, s: string)
    requires forall k :: 0 <= k < |ind| ==> ind[k] == ' ' || ind[k] == '\t'
    ensures TrimLeftSpTab(ind + s) == TrimLeftSpTab(s)
    decreases |ind|
  {
    if ind == [] {
      assert ind + s == s;
    } else {
      assert (ind + s)[0] == ind[0] && (ind + s)[1..] == ind[1..] + s;
      TrimIndent(ind[1..], s);
    }
  }

  /** Drops the longest prefix of white space. */
  function TrimLeftSpace(s: string): (r: string)
    ensures |r| <= |s| && r == s[|s| - |r|..]
    ensures r != [] ==> !IsSpace(r[0])
    ensures AllSpace(s[..|s| - |r|])
  {
    if s != [] && IsSpace(s[0]) then
      var r := TrimLeftSpace(s[1..]);
      TrimLeftStep(s, r);
      r
    else s
  }

  /** What trimming the tail gives holds of the whole when the head is
      white space. */
  lemma TrimLeftStep(s: string, r: string)
    requires s != [] && IsSpace(s[0])
    requires |r| <= |s| - 1 && r == s[1..][|s| - 1 - |r|..] && AllSpace(s[1..][..|s| - 1 - |r|])
    ensures r == s[|s| - |r|..] && AllSpace(s[..|s| - |r|])
  {
    var k := |s| - |r|;
    forall j | 0 < j < k ensures IsSpace(s[j]) {
      assert s[j] == s[1..][..k - 1][j - 1];
    }
  }

  /** Drops the longest suffix of white space. */
  function TrimRightSpace(s: string): (r: string)
    ensures |r| <= |s| && r == s[..|r|]
    ensures r != [] ==> !IsSpace(r[|r| - 1])
    ensures AllSpace(s[|r|..])
  {
    if s != [] && IsSpace(s[|s| - 1]) then
      var r := TrimRightSpace(s[..|s| - 1]);
      assert s[|r|..] == s[..|s| - 1][|r|..] + [s[|s| - 1]];
      r
    else s
  }

  /** `strings.TrimSpace`. */
  function TrimSpace(s: string): (r: string)
    ensures r == [] <==> AllSpace(s)
  {
    var l := TrimLeftSpace(s);
    var r := TrimRightSpace(l);
    assert r == [] ==> s == s[..|s| - |l|] + l;
    assert !AllSpace(s) ==> l != [];
    r
  }

  /** The longest prefix of `s` holding no white space. */
  function Word(s: string): (w: string)
    ensures |w| <= |s| && w == s[..|w|] && NoSpace(w)
    ensures |w| < |s| ==> IsSpace(s[|w|])
  {
    if s == [] || IsSpace(s[0]) then [] else [s[0]] + Word(s[1..])
  }

  /** `strings.Fields`: the maximal runs of non-space characters, in order.
      Every token is non-empty and holds no white space, so in particular no
      space and no tab. */
  function Fields(s: string): (r: seq<string>)
    ensures forall k :: 0 <= k < |r| ==> r[k] != [] && NoSpace(r[k])
    decreases |s|
  {
    var t := TrimLeftSpace(s);
    if t == [] then []
    else
      var w := Word(t);
      assert w != [] by { assert w == [t[0]] + Word(t[1..]); }
      var rest := Fields(t[|w|..]);
      TokensCons(w, rest);
      [w] + rest
  }

  /** A token followed by tokens: all of them non-empty and free of white
      space. */
  lemma TokensCons(w: string, rest: seq<string>)
    requires w != [] && NoSpace(w)
    requires forall k :: 0 <= k < |rest| ==> rest[k] != [] && NoSpace(rest[k])
    ensures forall k :: 0 <= k < |[w] + rest| ==> ([w] + rest)[k] != [] && NoSpace(([w] + rest)[k])
  {
    forall k | 0 < k < |[w] + rest| ensures ([w] + rest)[k] == rest[k - 1] { }
  }

  /** `strings.Index` for a single character: the first index of `c`, or `|s|`. */
  function IndexOf(s: string, c: char): (k: nat)
    ensures k <= |s|
    ensures k < |s| ==> s[k] == c
    ensures forall j :: 0 <= j < k ==> s[j] != c
  {
    if s == [] || s[0] == c then 0 else 1 + IndexOf(s[1..], c)
  }

  /** The first index holding a space or a tab, or `|s|`. */
  function IndexOfBlank(s: string): (k: nat)
    ensures k <= |s|
    ensures k < |s| ==> s[k] == ' ' || s[k] == '\t'
    ensures forall j :: 0 <= j < k ==> s[j] != ' ' && s[j] != '\t'
  {
    if s == [] || s[0] == ' ' || s[0] == '\t' then 0 else 1 + IndexOfBlank(s[1..])
  }

  /** `strings.SplitN(s, string(c), 2)[1]`: the text after the first `c`. */
  function AfterFirst(s: string, c: char): string
    requires c in s
  {
    s[IndexOf(s, c) + 1..]
  }

  /** `strings.Split(s, string(c))`. */
  function Split(s: string, c: char): (r: seq<string>)
    ensures |r| >= 1
    ensures forall k :: 0 <= k < |r| ==> c !in r[k]
    decreases |s|
  {
    var k := IndexOf(s, c);
    if k == |s| then [s] else [s[..k]] + Split(s[k + 1..], c)
  }

  /** `strings.Join`. */
  function Join(xs: seq<string>, sep: string): string
  {
    if xs == [] then "" else if |xs| == 1 then xs[0] else xs[0] + sep + Join(xs[1..], sep)
  }

  /** Splitting on a character and joining with it again gives back the text. */
  lemma {:induction false} JoinSplit(s: string, c: char)
    ensures Join(Split(s, c), [c]) == s
    decreases |s|
  {
    var k := IndexOf(s, c);
    if k < |s| {
      var rest := s[k + 1..];
      JoinSplit(rest, c);
      assert Split(s, c) == [s[..k]] + Split(rest, c);
      assert s == s[..k] + [c] + rest;
    }
  }

  function DigitChar(d: nat): (c: char)
    requires d < 10
  {
    ('0' as int + d) as char
  }

  /** `strconv.Itoa` (the `%d` verb) on a natural number. */
  function NatToString(n: nat): (r: string)
    ensures |r| >= 1
    ensures n >= 10 ==> |r| >= 2
  {
    if n < 10 then [DigitChar(n)] else NatToString(n / 10) + [DigitChar(n % 10)]
  }

  /** Distinct numbers print differently. */
  lemma {:induction false} NatToStringInjective(n: nat, m: nat)
    requires NatToString(n) == NatToString(m)
    ensures n == m
  {
    if n >= 10 && m >= 10 {
      var a, b := NatToString(n), NatToString(m);
      assert a[|a| - 1] == DigitChar(n % 10) && b[|b| - 1] == DigitChar(m % 10);
      assert a[..|a| - 1] == NatToString(n / 10) && b[..|b| - 1] == NatToString(m / 10);
      NatToStringInjective(n / 10, m / 10);
    }
  }

  /** Go's `<` on strings: byte-wise comparison of the UTF-8 encodings, which
      orders strings exactly as the code-point-wise comparison below does. */
  predicate Less(a: string, b: string)
    decreases |a|
  {
    if a == [] then b != []
    else b != [] && (a[0] < b[0] || (a[0] == b[0] && Less(a[1..], b[1..])))
  }

  lemma {:induction false} LessIrreflexive(a: string)
    ensures !Less(a, a)
    decreases |a|
  {
    if a != [] { LessIrreflexive(a[1..]); }
  }

  lemma {:induction false} LessTransitive(a: string, b: string, c: string)
    requires Less(a, b) && Less(b, c)
    ensures Less(a, c)
    decreases |a|
  {
    if a != [] && a[0] == b[0] && b[0] == c[0] {
      LessTransitive(a[1..], b[1..], c[1..]);
    }
  }

  lemma {:induction false} LessTotal(a: string, b: string)
    requires a != b
    ensures Less(a, b) || Less(b, a)
    decreases |a|
  {
    if a != [] && b != [] && a[0] == b[0] {
      assert a == [a[0]] + a[1..] && b == [b[0]] + b[1..];
      LessTotal(a[1..], b[1..]);
    }
  }

  lemma LessAsymmetric(a: string, b: string)
    requires Less(a, b)
    ensures !Less(b, a)
  {
    if Less(b, a) {
      LessTransitive(a, b, a);
      LessIrreflexive(a);
    }
  }

  function Elems(xs: seq<string>): set<string> {
    set x | x in xs
  }

  predicate Distinct(xs: seq<string>) {
    forall i, j :: 0 <= i < j < |xs| ==> xs[i] != xs[j]
  }

  predicate StrictlySorted(xs: seq<string>) {
    forall i, j :: 0 <= i < j < |xs| ==> Less(xs[i], xs[j])
  }

  /** The least element of a non-empty set. */
  ghost function Minimum(s: set<string>): (m: string)
    requires s != {}
    ensures m in s && forall y :: y in s && y != m ==> Less(m, y)
    decreases |s|
  {
    var x :| x in s;
    if s == {x} then x
    else
      var m := Minimum(s - {x});
      LessTotal(x, m);
      if Less(x, m) then
        BelowMinimum(x, m, s - {x});
        x
      else m
  }

  lemma BelowMinimum(x: string, m: string, t: set<string>)
    requires m in t && Less(x, m)
    requires forall y :: y in t && y != m ==> Less(m, y)
    ensures forall y :: y in t ==> Less(x, y)
  {
    forall y | y in t ensures Less(x, y) {
      if y != m { LessTransitive(x, m, y); }
    }
  }

  /** The elements of a set in ascending order: the one sequence that is
      strictly sorted and holds exactly those elements (see SortedUnique). */
  ghost function SortedSeq(s: set<string>): (r: seq<string>)
    ensures StrictlySorted(r) && Elems(r) == s
    decreases |s|
  {
    if s == {} then []
    else
      var m := Minimum(s);
      var rest := SortedSeq(s - {m});
      ConsSorted(m, rest);
      [m] + rest
  }

  lemma ConsSorted(m: string, rest: seq<string>)
    requires StrictlySorted(rest)
    requires forall y :: y in Elems(rest) ==> Less(m, y)
    ensures StrictlySorted([m] + rest) && Elems([m] + rest) == {m} + Elems(rest)
  {
    var r := [m] + rest;
    forall i, j | 0 <= i < j < |r| ensures Less(r[i], r[j]) {
      assert r[j] == rest[j - 1] && rest[j - 1] in Elems(rest);
      if i > 0 { assert r[i] == rest[i - 1]; }
    }
    ElemsCons(r);
    assert r[1..] == rest;
  }

  lemma ElemsCons(xs: seq<string>)
    requires xs != []
    ensures Elems(xs) == {xs[0]} + Elems(xs[1..])
  {
    assert xs == [xs[0]] + xs[1..];
  }

  lemma HeadNotInTail(xs: seq<string>)
    requires StrictlySorted(xs) && xs != []
    ensures xs[0] !in Elems(xs[1..])
  {
    if xs[0] in Elems(xs[1..]) {
      var j :| 0 <= j < |xs[1..]| && xs[1..][j] == xs[0];
      assert Less(xs[0], xs[j + 1]);
      LessIrreflexive(xs[0]);
    }
  }

  /** Two strictly sorted sequences with the same elements start alike:
      each head is the least element. */
  lemma SortedHeads(xs: seq<string>, ys: seq<string>)
    requires StrictlySorted(xs) && StrictlySorted(ys) && Elems(xs) == Elems(ys) && (xs != [] || ys != [])
    ensures xs != [] && ys != [] && xs[0] == ys[0]
  {
    assert forall j :: 0 <= j < |ys| ==> ys[j] in Elems(ys);
    assert forall j :: 0 <= j < |xs| ==> xs[j] in Elems(xs);
    if xs[0] != ys[0] {
      var j :| 0 <= j < |ys| && ys[j] == xs[0];
      var k :| 0 <= k < |xs| && xs[k] == ys[0];
      LessAsymmetric(xs[0], ys[0]);
      assert false;
    }
  }

  /** A strictly sorted sequence is determined by its elements: whatever order
      the elements are gathered in, sorting them gives the same sequence. */
  lemma {:induction false} SortedUnique(xs: seq<string>, ys: seq<string>)
    requires StrictlySorted(xs) && StrictlySorted(ys) && Elems(xs) == Elems(ys)
    ensures xs == ys
    decreases |xs|
  {
    if xs != [] || ys != [] {
      SortedHeads(xs, ys);
      ElemsCons(xs);
      ElemsCons(ys);
      HeadNotInTail(xs);
      HeadNotInTail(ys);
      SortedUnique(xs[1..], ys[1..]);
      assert xs == [xs[0]] + xs[1..] && ys == [ys[0]] + ys[1..];
    }
  }

  /** Inserts a new element into a strictly sorted sequence. */
  function Insert(xs: seq<string>, x: string): (r: seq<string>)
    requires StrictlySorted(xs) && x !in xs
    ensures StrictlySorted(r) && Elems(r) == Elems(xs) + {x} && |r| == |xs| + 1
    decreases |xs|
  {
    if xs == [] then [x]
    else if Less(x, xs[0]) then
      BelowHead(x, xs);
      [x] + xs
    else
      LessTotal(x, xs[0]);
      var rest := Insert(xs[1..], x);
      assert Elems(xs) == {xs[0]} + Elems(xs[1..]) by {
        assert forall y :: y in xs <==> y == xs[0] || y in xs[1..];
      }
      assert forall j :: 0 <= j < |rest| ==> rest[j] in Elems(rest);
      [xs[0]] + rest
  }

  lemma BelowHead(x: string, xs: seq<string>)
    requires StrictlySorted(xs) && xs != [] && Less(x, xs[0])
    ensures forall j :: 0 <= j < |xs| ==> Less(x, xs[j])
  {
    forall j | 0 < j < |xs| ensures Less(x, xs[j]) { LessTransitive(x, xs[0], xs[j]); }
  }

  /** `sort.Strings` on a slice of distinct strings (insertion sort). */
  method SortStrings(xs: seq<string>) returns (ys: seq<string>)
    requires Distinct(xs)
    ensures StrictlySorted(ys) && Elems(ys) == Elems(xs)
  {
    ys := [];
    for k := 0 to |xs|
      invariant StrictlySorted(ys) && Elems(ys) == Elems(xs[..k])
    {
      assert xs[k] !in Elems(xs[..k]);
      ys := Insert(ys, xs[k]);
      assert xs[..k + 1] == xs[..k] + [xs[k]];
    }
    assert xs[..|xs|] == xs;
  }

  /** The Go idiom `for k := range m { ks = append(ks, k) }; sort.Strings(ks)`:
      the keys are gathered in the map's arbitrary iteration order (modelled
      by an arbitrary choice), then sorted.  The result does not depend on
      that order. */
  method SortedKeys(s: set<string>) returns (r: seq<string>)
    ensures r == SortedSeq(s)
  {
    var ks: seq<string> := [];
    var rest := s;
    while rest != {}
      invariant Distinct(ks) && Elems(ks) + rest == s && Elems(ks) !! rest
      decreases |rest|
    {
      var k :| k in rest;
      ks := ks + [k];
      rest := rest - {k};
    }
    r := SortStrings(ks);
    SortedUnique(r, SortedSeq(s));
  }
}
