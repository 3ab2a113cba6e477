// The parts of Go's strings package that the playlist code uses, and their laws.
module Strings {
  import opened Prelude

  predicate HasPrefix(s: string, p: string) { p <= s }

  predicate HasSuffix(s: string, p: string) { |p| <= |s| && s[|s| - |p|..] == p }

  function TrimPrefix(s: string, p: string): string { if p <= s then s[|p|..] else s }

  predicate Lacks(s: string, c: char) { forall i | 0 <= i < |s| :: s[i] != c }

  // ---- Searching -----------------------------------------------------------------

  predicate At(s: string, sub: string, i: int) {
    0 <= i && i + |sub| <= |s| && forall k | 0 <= k < |sub| :: s[i + k] == sub[k]
  }

  predicate Contains(s: string, sub: string) {
    exists i | 0 <= i <= |s| :: At(s, sub, i)
  }

  // The first position of sub in s, or -1.
  function Index(s: string, sub: string): (i: int)
    ensures i == -1 || (0 <= i && i + |sub| <= |s|)
  {
    IndexFrom(s, sub, 0)
  }

  function IndexFrom(s: string, sub: string, from: nat): (i: int)
    requires from <= |s| + 1
    ensures i == -1 || (from <= i && i + |sub| <= |s|)
    decreases |s| + 1 - from
  {
    if from > |s| then -1
    else if At(s, sub, from) then from
    else IndexFrom(s, sub, from + 1)
  }

  lemma {:induction false} IndexFromIs(s: string, sub: string, from: nat, i: nat)
    requires from <= i <= |s| && At(s, sub, i) && forall k | from <= k < i :: !At(s, sub, k)
    ensures IndexFrom(s, sub, from) == i
    decreases i - from
  {
    if from < i {
      IndexFromIs(s, sub, from + 1, i);
    }
  }

  lemma {:induction false} IndexFromNone(s: string, sub: string, from: nat)
    requires from <= |s| + 1 && forall k | from <= k <= |s| :: !At(s, sub, k)
    ensures IndexFrom(s, sub, from) == -1
    decreases |s| + 1 - from
  {
    if from <= |s| {
      IndexFromNone(s, sub, from + 1);
    }
  }

  lemma IndexIs(s: string, sub: string, i: int)
    requires At(s, sub, i) && forall k | 0 <= k < i :: !At(s, sub, k)
    ensures Index(s, sub) == i
  {
    IndexFromIs(s, sub, 0, i);
  }

  lemma IndexNone(s: string, sub: string)
    requires !Contains(s, sub)
    ensures Index(s, sub) == -1
  {
    IndexFromNone(s, sub, 0);
  }

  lemma IndexFirst(s: string, sub: string)
    requires Contains(s, sub)
    ensures At(s, sub, Index(s, sub)) && forall k | 0 <= k < Index(s, sub) :: !At(s, sub, k)
  {
    var i :| 0 <= i <= |s| && At(s, sub, i);
    var first := FirstAt(s, sub, i);
    IndexIs(s, sub, first);
  }

  lemma {:induction false} FirstAt(s: string, sub: string, i: nat) returns (first: nat)
    requires At(s, sub, i)
    ensures first <= i && At(s, sub, first) && forall k | 0 <= k < first :: !At(s, sub, k)
  {
    if k :| 0 <= k < i && At(s, sub, k) {
      first := FirstAt(s, sub, k);
    } else {
      first := i;
    }
  }

  function LastIndexOf(s: string, c: char): (i: int)
    ensures -1 <= i < |s|
    ensures i >= 0 ==> s[i] == c
    ensures forall k | i < k < |s| :: s[k] != c
  {
    if s == [] then -1
    else if s[|s| - 1] == c then |s| - 1
    else
      LastIndexOf(s[..|s| - 1], c)
  }

  // Searching across a separator that does not occur in the pattern.
  lemma AtAcross(a: string, c: char, b: string, sub: string, i: int)
    requires Lacks(sub, c) && sub != []
    ensures At(a + [c] + b, sub, i) <==> At(a, sub, i) || At(b, sub, i - |a| - 1)
  {
    var s := a + [c] + b;
    assert forall k | 0 <= k < |a| :: s[k] == a[k];
    assert forall k | 0 <= k < |b| :: s[|a| + 1 + k] == b[k];
    if 0 <= |a| - i < |sub| && 0 <= i && i + |sub| <= |s| {
      assert s[i + (|a| - i)] != sub[|a| - i];
    }
    if At(s, sub, i) {
      if |a| < i {
        forall k | 0 <= k < |sub| ensures b[i - |a| - 1 + k] == sub[k] {
          assert s[i + k] == sub[k];
        }
      } else {
        assert i + |sub| <= |a|;
        forall k | 0 <= k < |sub| ensures a[i + k] == sub[k] {
          assert s[i + k] == sub[k];
        }
      }
    }
  }

  lemma ContainsAcross(a: string, c: char, b: string, sub: string)
    requires Lacks(sub, c) && sub != []
    ensures Contains(a + [c] + b, sub) <==> Contains(a, sub) || Contains(b, sub)
  {
    var s := a + [c] + b;
    if Contains(s, sub) {
      var i :| 0 <= i <= |s| && At(s, sub, i);
      AtAcross(a, c, b, sub, i);
    } else {
      forall i ensures !At(a, sub, i) && !At(b, sub, i) {
        AtAcross(a, c, b, sub, i);
        AtAcross(a, c, b, sub, i + |a| + 1);
      }
    }
  }

  lemma IndexAcross(a: string, c: char, b: string, sub: string)
    requires Lacks(sub, c) && sub != []
    ensures Contains(a, sub) ==> Index(a + [c] + b, sub) == Index(a, sub)
    ensures !Contains(a, sub) && Contains(b, sub) ==> Index(a + [c] + b, sub) == |a| + 1 + Index(b, sub)
  {
    forall i ensures At(a + [c] + b, sub, i) <==> At(a, sub, i) || At(b, sub, i - |a| - 1) {
      AtAcross(a, c, b, sub, i);
    }
    if Contains(a, sub) {
      IndexFirst(a, sub);
      IndexIs(a + [c] + b, sub, Index(a, sub));
    } else if Contains(b, sub) {
      IndexFirst(b, sub);
      IndexIs(a + [c] + b, sub, |a| + 1 + Index(b, sub));
    }
  }

  lemma AtFirstChar(s: string, sub: string, i: int)
    requires sub != [] && At(s, sub, i)
    ensures s[i] == sub[0]
  {
    assert s[i + 0] == sub[0];
  }

  lemma AtChar(s: string, sub: string, i: int, k: nat)
    requires k < |sub| && At(s, sub, i)
    ensures s[i + k] == sub[k]
  {
  }

  // A pattern whose first character is missing does not occur.
  lemma NoFirstChar(s: string, sub: string)
    requires sub != [] && Lacks(s, sub[0])
    ensures !Contains(s, sub)
  {
    if i :| 0 <= i <= |s| && At(s, sub, i) {
      AtFirstChar(s, sub, i);
    }
  }

  // A pattern whose first character occurs only at the start occurs only as a prefix.
  lemma OnlyAtStart(s: string, sub: string)
    requires sub != [] && s != [] && forall i | 0 < i < |s| :: s[i] != sub[0]
    ensures Contains(s, sub) <==> HasPrefix(s, sub)
    ensures forall i | At(s, sub, i) :: i == 0
  {
    forall i | At(s, sub, i) ensures i == 0 {
      AtFirstChar(s, sub, i);
    }
    AtStartIsPrefix(s, sub);
  }

  lemma AtStartIsPrefix(s: string, sub: string)
    ensures At(s, sub, 0) <==> HasPrefix(s, sub)
  {
    if At(s, sub, 0) {
      forall k | 0 <= k < |sub| ensures s[k] == sub[k] {
        assert s[0 + k] == sub[k];
      }
    }
  }

  // strings.Replace(s, old, new, 1)
  function ReplaceFirst(s: string, was: string, now: string): string {
    var i := Index(s, was);
    if i < 0 then s else Cut(s, i, i + |was|, now)
  }

  // s with the part between two positions replaced.
  function Cut(s: string, from: nat, upto: nat, value: string): string
    requires from <= upto <= |s|
  {
    s[..from] + value + s[upto..]
  }

  lemma CutBehindQuote(a: string, t: string, from: nat, upto: nat, value: string)
    requires from <= upto <= |t|
    ensures Cut(a + "\"" + t, |a| + 1 + from, |a| + 1 + upto, value) == a + "\"" + Cut(t, from, upto, value)
  {
    var s := a + "\"" + t;
    assert s[..|a| + 1 + from] == a + "\"" + t[..from];
    assert s[|a| + 1 + upto..] == t[upto..];
  }

  lemma DropBehindQuote(a: string, t: string, from: nat)
    requires from <= |t|
    ensures (a + "\"" + t)[|a| + 1 + from..] == t[from..]
  {
  }

  lemma TakeBehindQuote(a: string, t: string, upto: nat)
    requires upto <= |t|
    ensures (a + "\"" + t)[..|a| + 1 + upto] == a + "\"" + t[..upto]
  {
  }

  // Replacing beyond a quote that the pattern does not contain.
  lemma ReplaceSkips(a: string, t: string, was: string, now: string)
    requires was != [] && Lacks(was, '"') && !Contains(a, was)
    ensures ReplaceFirst(a + "\"" + t, was, now) == a + "\"" + ReplaceFirst(t, was, now)
  {
    IndexSkips(a, t, was);
    ReplaceAt(t, was, now, Index(t, was));
    ReplaceAt(a + "\"" + t, was, now, Index(a + "\"" + t, was));
    if Index(t, was) >= 0 {
      CutBehindQuote(a, t, Index(t, was), Index(t, was) + |was|, now);
    }
  }

  lemma ReplaceAt(s: string, was: string, now: string, i: int)
    requires i == Index(s, was)
    ensures ReplaceFirst(s, was, now) == if i < 0 then s else Cut(s, i, i + |was|, now)
  {
  }

  lemma IndexSkips(a: string, t: string, sub: string)
    requires sub != [] && Lacks(sub, '"') && !Contains(a, sub)
    ensures Index(a + "\"" + t, sub) == if Index(t, sub) >= 0 then |a| + 1 + Index(t, sub) else -1
  {
    ContainsAcross(a, '"', t, sub);
    IndexAcross(a, '"', t, sub);
    assert a + ['"'] + t == a + "\"" + t;
    if Contains(t, sub) {
      IndexFound(t, sub);
    } else {
      IndexNone(t, sub);
      IndexNone(a + "\"" + t, sub);
    }
  }

  lemma IndexFound(s: string, sub: string)
    requires Contains(s, sub)
    ensures Index(s, sub) >= 0
  {
    IndexFirst(s, sub);
  }

  lemma ReplaceHere(a: string, t: string, was: string, now: string)
    requires was != [] && Lacks(was, '"') && Contains(a, was)
    ensures ReplaceFirst(a + "\"" + t, was, now) == ReplaceFirst(a, was, now) + "\"" + t
  {
    IndexAcross(a, '"', t, was);
    IndexFirst(a, was);
    var s, i := a + "\"" + t, Index(a, was);
    assert a + ['"'] + t == s;
    assert s[..i] == a[..i] && s[i + |was|..] == a[i + |was|..] + "\"" + t;
  }

  // ---- The URI attribute of a tag ---------------------------------------------------

  const URI := "URI=\""

  // What precedes the value of URI="...", the value, and what follows it.
  datatype UriParts = UriParts(before: string, value: string, after: string)

  function SplitUri(line: string): Option<UriParts> {
    var i := Index(line, URI);
    if i < 0 then None
    else
      var rest := line[i + |URI|..];
      var end := Index(rest, "\"");
      if end < 0 then None else Some(UriParts(line[..i + |URI|], rest[..end], rest[end..]))
  }

  function UriValue(line: string): Option<string> {
    var parts := SplitUri(line);
    if parts.Some? then Some(parts.value.value) else None
  }

  // The line with another value for URI="...", if it has that attribute.
  function ReplaceUri(line: string, value: string): string {
    var parts := SplitUri(line);
    if parts.Some? then parts.value.before + value + parts.value.after else line
  }

  lemma AtShifted(s: string, from: nat, sub: string, i: nat)
    requires from <= |s| && At(s[from..], sub, i)
    ensures At(s, sub, from + i)
  {
    forall k | 0 <= k < |sub| ensures s[from + i + k] == sub[k] {
      assert s[from..][i + k] == sub[k];
    }
  }

  lemma AtUnshifted(s: string, from: nat, sub: string, i: nat)
    requires from <= i <= |s| && At(s, sub, i)
    ensures At(s[from..], sub, i - from)
  {
    forall k | 0 <= k < |sub| ensures s[from..][i - from + k] == sub[k] {
      AtChar(s, sub, i, k);
    }
  }

  lemma UriChars()
    ensures |URI| == 5 && URI[4] == '"' && URI[..4] == "URI=" && forall k | 0 <= k < 4 :: URI[k] != '"'
  {
  }

  // At the end of a, in front of the quote, or behind it.
  lemma UriAt(a: string, t: string, i: int)
    requires Lacks(a, '"')
    ensures At(a + "\"" + t, URI, i) <==> (i == |a| - 4 && HasSuffix(a, "URI=")) || At(t, URI, i - |a| - 1)
  {
    var s := a + "\"" + t;
    assert s[|a| + 1..] == t && s[|a|] == '"' && s[..|a|] == a;
    UriChars();
    if At(s, URI, i) {
      AtChar(s, URI, i, 4);
      if i <= |a| {
        QuoteIsLast(s, |a|, i);
        UriBefore(a, t);
      } else {
        AtUnshifted(s, |a| + 1, URI, i);
      }
    }
    if At(t, URI, i - |a| - 1) {
      AtShifted(s, |a| + 1, URI, i - |a| - 1);
    }
    if i == |a| - 4 && HasSuffix(a, "URI=") {
      UriBefore(a, t);
    }
  }

  lemma QuoteIsLast(s: string, q: nat, i: nat)
    requires At(s, URI, i) && i <= q < |s| && s[q] == '"' && forall k | 0 <= k < q :: s[k] != '"'
    ensures i + 4 == q
  {
    UriChars();
    AtChar(s, URI, i, 4);
    if q < i + 4 {
      AtChar(s, URI, i, q - i);
    }
  }

  lemma UriBefore(a: string, t: string)
    requires |a| >= 4
    ensures At(a + "\"" + t, URI, |a| - 4) <==> HasSuffix(a, "URI=")
  {
    var s, i := a + "\"" + t, |a| - 4;
    UriChars();
    assert s[i..i + 5] == a[i..] + "\"" && URI == URI[..4] + "\"";
    AtIsSlice(s, URI, i);
  }

  lemma AtIsSlice(s: string, sub: string, i: nat)
    requires i + |sub| <= |s|
    ensures At(s, sub, i) <==> s[i..i + |sub|] == sub
  {
    if At(s, sub, i) {
      forall k | 0 <= k < |sub| ensures s[i..i + |sub|][k] == sub[k] {
        AtChar(s, sub, i, k);
      }
    }
    if s[i..i + |sub|] == sub {
      forall k | 0 <= k < |sub| ensures s[i + k] == sub[k] {
        assert s[i..i + |sub|][k] == sub[k];
      }
    }
  }

  lemma UriIndexSkips(a: string, t: string)
    requires Lacks(a, '"') && !HasSuffix(a, "URI=")
    ensures Contains(a + "\"" + t, URI) <==> Contains(t, URI)
    ensures Contains(t, URI) ==> Index(a + "\"" + t, URI) == |a| + 1 + Index(t, URI)
  {
    var s := a + "\"" + t;
    forall i ensures At(s, URI, i) <==> At(t, URI, i - |a| - 1) {
      UriAt(a, t, i);
    }
    if Contains(t, URI) {
      IndexFirst(t, URI);
      IndexIs(s, URI, |a| + 1 + Index(t, URI));
    }
  }

  lemma SplitUriSkips(a: string, t: string)
    requires Lacks(a, '"') && !HasSuffix(a, "URI=")
    ensures SplitUri(a + "\"" + t)
            == match SplitUri(t)
               case None => None
               case Some(parts) => Some(parts.(before := a + "\"" + parts.before))
  {
    UriIndexSkips(a, t);
    if Contains(t, URI) {
      IndexFirst(t, URI);
      var i := Index(t, URI) + |URI|;
      DropBehindQuote(a, t, i);
      TakeBehindQuote(a, t, i);
    } else {
      IndexNone(t, URI);
      IndexNone(a + "\"" + t, URI);
    }
  }

  lemma UriSkips(a: string, t: string, value: string)
    requires Lacks(a, '"') && !HasSuffix(a, "URI=")
    ensures UriValue(a + "\"" + t) == UriValue(t)
    ensures ReplaceUri(a + "\"" + t, value) == a + "\"" + ReplaceUri(t, value)
  {
    SplitUriSkips(a, t);
    if SplitUri(t).Some? {
      var x, y := SplitUri(t).value.before, SplitUri(t).value.after;
      assert (a + "\"" + x) + value + y == a + "\"" + (x + value + y);
    }
  }

  lemma UriHere(a: string, b: string, rest: string, value: string)
    requires Lacks(a, '"') && HasSuffix(a, "URI=") && Lacks(b, '"')
    ensures UriValue(a + "\"" + (b + "\"" + rest)) == Some(b)
    ensures ReplaceUri(a + "\"" + (b + "\"" + rest), value) == a + "\"" + (value + "\"" + rest)
  {
    var t := b + "\"" + rest;
    var s := a + "\"" + t;
    forall i ensures At(s, URI, i) ==> |a| - 4 <= i {
      UriAt(a, t, i);
    }
    UriAt(a, t, |a| - 4);
    IndexIs(s, URI, |a| - 4);
    CharIndex(b, '"', rest);
    assert t == b + ['"'] + rest && ['"'] == "\"";
    assert s[|a| + 1..] == t && s[..|a| + 1] == a + "\"";
    assert t[..|b|] == b && t[|b|..] == "\"" + rest;
    assert SplitUri(s) == Some(UriParts(a + "\"", b, "\"" + rest));
    assert (a + "\"") + value + ("\"" + rest) == a + "\"" + (value + "\"" + rest);
  }

  lemma CharIndex(b: string, c: char, rest: string)
    requires Lacks(b, c)
    ensures Index(b + [c] + rest, [c]) == |b|
  {
    var t := b + [c] + rest;
    forall k | 0 <= k < |b| ensures !At(t, [c], k) {
      assert t[k + 0] == b[k] && [c][0] == c;
    }
    IndexIs(t, [c], |b|);
  }

  // ---- Splitting and joining ---------------------------------------------------------

  function Split(s: string, sep: char): (parts: seq<string>)
    ensures |parts| >= 1
    ensures forall i | 0 <= i < |parts| :: Lacks(parts[i], sep)
  {
    if s == [] then [""]
    else
      var rest := Split(s[1..], sep);
      if s[0] == sep then [""] + rest else [[s[0]] + rest[0]] + rest[1..]
  }

  function Join(parts: seq<string>, sep: char): string {
    if parts == [] then []
    else if |parts| == 1 then parts[0]
    else parts[0] + [sep] + Join(parts[1..], sep)
  }

  lemma {:induction false} JoinSplit(s: string, sep: char)
    ensures Join(Split(s, sep), sep) == s
  {
    if s != [] {
      var rest := Split(s[1..], sep);
      JoinSplit(s[1..], sep);
      if s[0] == sep {
        assert ([""] + rest)[1..] == rest;
      } else {
        assert ([[s[0]] + rest[0]] + rest[1..])[1..] == rest[1..];
      }
    }
  }

  lemma {:induction false} SplitOne(s: string, sep: char)
    requires Lacks(s, sep)
    ensures Split(s, sep) == [s]
  {
    if s != [] {
      SplitOne(s[1..], sep);
      assert [s[0]] + s[1..] == s;
    }
  }

  lemma {:induction false} SplitAcross(a: string, sep: char, b: string)
    requires Lacks(a, sep)
    ensures Split(a + [sep] + b, sep) == [a] + Split(b, sep)
  {
    var s := a + [sep] + b;
    if a == [] {
      assert s[1..] == b;
    } else {
      assert s[1..] == a[1..] + [sep] + b;
      SplitAcross(a[1..], sep, b);
      assert [s[0]] + a[1..] == a;
      assert ([a[1..]] + Split(b, sep))[1..] == Split(b, sep);
    }
  }

  lemma {:induction false} SplitJoin(parts: seq<string>, sep: char)
    requires parts != [] && forall p | p in parts :: Lacks(p, sep)
    ensures Split(Join(parts, sep), sep) == parts
  {
    if |parts| == 1 {
      SplitOne(parts[0], sep);
    } else {
      SplitJoin(parts[1..], sep);
      SplitAcross(parts[0], sep, Join(parts[1..], sep));
    }
  }

  lemma {:induction false} JoinAppend(a: seq<string>, b: seq<string>, sep: char)
    requires a != [] && b != []
    ensures Join(a + b, sep) == Join(a, sep) + [sep] + Join(b, sep)
  {
    if |a| == 1 {
      assert (a + b)[1..] == b;
    } else {
      assert (a + b)[1..] == a[1..] + b;
      JoinAppend(a[1..], b, sep);
    }
  }

  lemma {:induction false} JoinLacks(parts: seq<string>, sep: char, c: char)
    requires c != sep && forall i | 0 <= i < |parts| :: Lacks(parts[i], c)
    ensures Lacks(Join(parts, sep), c)
  {
    if |parts| > 1 {
      JoinLacks(parts[1..], sep, c);
    }
  }

  lemma {:induction false} ContainsJoin(parts: seq<string>, sep: char, sub: string)
    requires sub != [] && Lacks(sub, sep)
    ensures Contains(Join(parts, sep), sub) <==> exists i | 0 <= i < |parts| :: Contains(parts[i], sub)
  {
    if parts == [] {
      assert !Contains([], sub);
    } else if |parts| == 1 {
      assert Contains(parts[0], sub) <==> exists i | 0 <= i < |parts| :: Contains(parts[i], sub);
    } else {
      ContainsJoin(parts[1..], sep, sub);
      ContainsAcross(parts[0], sep, Join(parts[1..], sep), sub);
      if i :| 0 <= i < |parts| && Contains(parts[i], sub) {
        assert i > 0 ==> parts[1..][i - 1] == parts[i];
      }
      if i :| 0 <= i < |parts| - 1 && Contains(parts[1..][i], sub) {
        assert parts[i + 1] == parts[1..][i];
      }
    }
  }

  // Every line with its line break.
  function Unlines(lines: seq<string>): string {
    if lines == [] then [] else lines[0] + "\n" + Unlines(lines[1..])
  }

  lemma {:induction false} UnlinesAppend(a: seq<string>, b: seq<string>)
    ensures Unlines(a + b) == Unlines(a) + Unlines(b)
  {
    if a == [] {
      assert a + b == b;
    } else {
      assert (a + b)[1..] == a[1..] + b;
      UnlinesAppend(a[1..], b);
    }
  }

  lemma {:induction false} UnlinesIsJoin(lines: seq<string>)
    ensures Unlines(lines) == Join(lines + [""], '\n')
  {
    if lines != [] {
      assert (lines + [""])[1..] == lines[1..] + [""];
      UnlinesIsJoin(lines[1..]);
    }
  }

  lemma SplitUnlines(lines: seq<string>)
    requires forall l | l in lines :: Lacks(l, '\n')
    ensures Split(Unlines(lines), '\n') == lines + [""]
  {
    UnlinesIsJoin(lines);
    SplitJoin(lines + [""], '\n');
  }

  lemma {:induction false} SplitBoth(a: string, sep: char, b: string)
    ensures Split(a + [sep] + b, sep) == Split(a, sep) + Split(b, sep)
  {
    var s := a + [sep] + b;
    if a == [] {
      assert s[1..] == b;
    } else {
      assert s[1..] == a[1..] + [sep] + b;
      SplitBoth(a[1..], sep, b);
    }
  }

  lemma {:induction false} SplitLacks(s: string, sep: char, c: char)
    requires Lacks(s, c)
    ensures forall i | 0 <= i < |Split(s, sep)| :: Lacks(Split(s, sep)[i], c)
  {
    if s != [] {
      SplitLacks(s[1..], sep, c);
    }
  }

  // The lines of a text made of pieces with line breaks of their own.
  function AllLines(pieces: seq<string>): (lines: seq<string>)
    ensures forall i | 0 <= i < |lines| :: Lacks(lines[i], '\n')
  {
    if pieces == [] then [] else Split(pieces[0], '\n') + AllLines(pieces[1..])
  }

  lemma {:induction false} SplitAllLines(pieces: seq<string>)
    ensures Split(Unlines(pieces), '\n') == AllLines(pieces) + [""]
  {
    if pieces != [] {
      SplitAllLines(pieces[1..]);
      SplitBoth(pieces[0], '\n', Unlines(pieces[1..]));
      assert pieces[0] + ['\n'] + Unlines(pieces[1..]) == Unlines(pieces);
      assert Split(pieces[0], '\n') + (AllLines(pieces[1..]) + [""]) == AllLines(pieces) + [""];
    }
  }

  lemma UnlinesAllLines(pieces: seq<string>)
    ensures Unlines(AllLines(pieces)) == Unlines(pieces)
  {
    SplitAllLines(pieces);
    JoinSplit(Unlines(pieces), '\n');
    UnlinesIsJoin(AllLines(pieces));
  }

  lemma {:induction false} AllLinesAppend(a: seq<string>, b: seq<string>)
    ensures AllLines(a + b) == AllLines(a) + AllLines(b)
  {
    if a == [] {
      assert a + b == b;
    } else {
      assert (a + b)[1..] == a[1..] + b;
      AllLinesAppend(a[1..], b);
    }
  }

  lemma {:induction false} AllLinesOfLines(lines: seq<string>)
    requires forall i | 0 <= i < |lines| :: Lacks(lines[i], '\n')
    ensures AllLines(lines) == lines
  {
    if lines != [] {
      SplitOne(lines[0], '\n');
      AllLinesOfLines(lines[1..]);
      assert [lines[0]] + lines[1..] == lines;
    }
  }

  // A text determines its lines.
  lemma UnlinesInjective(a: seq<string>, b: seq<string>)
    requires forall i | 0 <= i < |a| :: Lacks(a[i], '\n')
    requires forall i | 0 <= i < |b| :: Lacks(b[i], '\n')
    ensures Unlines(a) == Unlines(b) <==> a == b
  {
    SplitUnlines(a);
    SplitUnlines(b);
    if Unlines(a) == Unlines(b) {
      assert (a + [""])[..|a|] == a && (b + [""])[..|b|] == b;
    }
  }

  // ---- White space -----------------------------------------------------------------------

  // unicode.IsSpace
  predicate IsSpace(c: char) {
    '\t' <= c <= '\r' || c == ' ' || c == '\U{85}' || c == '\U{A0}' || c == '\U{1680}'
    || '\U{2000}' <= c <= '\U{200A}' || c == '\U{2028}' || c == '\U{2029}' || c == '\U{202F}'
    || c == '\U{205F}' || c == '\U{3000}'
  }

  function TrimLeft(s: string): string {
    if s != [] && IsSpace(s[0]) then TrimLeft(s[1..]) else s
  }

  function TrimRight(s: string): (t: string)
    ensures t <= s && (t != [] ==> !IsSpace(t[|t| - 1]))
    ensures forall i | |t| <= i < |s| :: IsSpace(s[i])
  {
    if s != [] && IsSpace(s[|s| - 1]) then TrimRight(s[..|s| - 1]) else s
  }

  function TrimSpace(s: string): string { TrimRight(TrimLeft(s)) }

  lemma {:induction false} TrimSpaceWithin(s: string, c: char)
    requires Lacks(s, c)
    ensures Lacks(TrimSpace(s), c)
  {
    TrimLeftWithin(s, c);
  }

  lemma {:induction false} TrimLeftWithin(s: string, c: char)
    requires Lacks(s, c)
    ensures Lacks(TrimLeft(s), c)
  {
    if s != [] && IsSpace(s[0]) {
      TrimLeftWithin(s[1..], c);
    }
  }

  // A string that starts with a visible character is only trimmed on the right,
  // and keeps every prefix that ends in a visible character.
  lemma TrimKeepsPrefix(s: string, p: string)
    requires s != [] && !IsSpace(s[0])
    requires p != [] && !IsSpace(p[|p| - 1])
    ensures HasPrefix(TrimSpace(s), p) <==> HasPrefix(s, p)
    ensures TrimSpace(s) != [] && TrimSpace(s)[0] == s[0]
  {
    var t := TrimRight(s);
    assert HasPrefix(s, p) ==> s[|p| - 1] == p[|p| - 1];
  }

  // Trimming removes white space at both ends, and only that.
  lemma {:induction false} TrimSpaceIs(s: string) returns (front: string, back: string)
    ensures s == front + TrimSpace(s) + back
    ensures (forall i | 0 <= i < |front| :: IsSpace(front[i])) && forall i | 0 <= i < |back| :: IsSpace(back[i])
    ensures TrimSpace(s) != "" ==> !IsSpace(TrimSpace(s)[0]) && !IsSpace(TrimSpace(s)[|TrimSpace(s)| - 1])
  {
    front := TrimLeftIs(s);
    var rest, kept := TrimLeft(s), TrimSpace(s);
    back := rest[|kept|..];
    assert rest == kept + back;
    assert s == front + (kept + back) == front + kept + back;
  }

  lemma {:induction false} TrimLeftIs(s: string) returns (front: string)
    ensures s == front + TrimLeft(s) && forall i | 0 <= i < |front| :: IsSpace(front[i])
    ensures TrimLeft(s) != "" ==> !IsSpace(TrimLeft(s)[0])
  {
    front := "";
    if s != [] && IsSpace(s[0]) {
      front := TrimLeftIs(s[1..]);
      assert s == [s[0]] + s[1..];
      front := [s[0]] + front;
    }
  }

  // Trimming adds no occurrence of a text.
  lemma {:induction false} TrimContains(s: string, sub: string)
    requires Contains(TrimSpace(s), sub)
    ensures Contains(s, sub)
  {
    if s != [] && IsSpace(s[0]) {
      TrimContains(s[1..], sub);
      var i :| 0 <= i <= |s[1..]| && At(s[1..], sub, i);
      AtShifted(s, 1, sub, i);
    } else {
      var i :| 0 <= i <= |TrimSpace(s)| && At(TrimSpace(s), sub, i);
      assert At(s, sub, i);
    }
  }

  lemma TrimNothing(s: string)
    requires s != [] && !IsSpace(s[0]) && !IsSpace(s[|s| - 1])
    ensures TrimSpace(s) == s
  {
  }

  // ---- Decimal numbers -------------------------------------------------------------------

  function Digit(d: nat): char
    requires d < 10
  {
    "0123456789"[d]
  }

  function Decimal(n: nat): (s: string)
    ensures s != [] && forall c | c in s :: '0' <= c <= '9'
  {
    if n < 10 then [Digit(n)] else Decimal(n / 10) + [Digit(n % 10)]
  }

  lemma {:induction false} DecimalInjective(n: nat, m: nat)
    requires Decimal(n) == Decimal(m)
    ensures n == m
  {
    var s := Decimal(n);
    assert s[|s| - 1] == Digit(n % 10) == Digit(m % 10);
    if n >= 10 && m >= 10 {
      assert Decimal(n / 10) == s[..|s| - 1] == Decimal(m / 10);
      DecimalInjective(n / 10, m / 10);
    } else {
      assert |s| == 1 <==> n < 10;
      assert |s| == 1 <==> m < 10;
    }
  }

  // The number that a text of digits stands for.
  function Value(s: string): int {
    if s == "" then 0 else 10 * Value(s[..|s| - 1]) + (s[|s| - 1] as int - '0' as int)
  }

  lemma {:induction false} DecimalValue(n: nat)
    ensures Value(Decimal(n)) == n && (Decimal(n)[0] == '0' ==> n == 0)
  {
    DigitIs(n % 10);
    if n >= 10 {
      DecimalValue(n / 10);
      var s := Decimal(n);
      assert s[..|s| - 1] == Decimal(n / 10) && s[0] == Decimal(n / 10)[0];
    } else {
      assert Decimal(n)[..0] == "";
    }
  }

  lemma DigitIs(d: nat)
    requires d < 10
    ensures Digit(d) as int == '0' as int + d
  {
  }

  lemma DecimalLacks(n: nat, c: char)
    requires c < '0' || '9' < c
    ensures Lacks(Decimal(n), c)
  {
    forall i | 0 <= i < |Decimal(n)| ensures Decimal(n)[i] != c {
      assert Decimal(n)[i] in Decimal(n);
    }
  }

  lemma {:induction false} LastIsUnique(s: string, c: char, i: nat)
    requires i < |s| && s[i] == c && forall k | i < k < |s| :: s[k] != c
    ensures LastIndexOf(s, c) == i
  {
    if i < |s| - 1 {
      LastIsUnique(s[..|s| - 1], c, i);
    }
  }

  // A separator that occurs in neither tail splits two equal strings the same way.
  lemma SameSplit(a: string, b: string, c: string, d: string, sep: char)
    requires a + [sep] + b == c + [sep] + d && Lacks(b, sep) && Lacks(d, sep)
    ensures a == c && b == d
  {
    var s := a + [sep] + b;
    LastIsUnique(s, sep, |a|);
    LastIsUnique(s, sep, |c|);
    assert s[..|a|] == a && s[..|a|] == c && s[|a| + 1..] == b && s[|a| + 1..] == d;
  }
}
