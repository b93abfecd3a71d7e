/**
 * The pieces of Go's string handling the providers rely on: strings.Split,
 * the byte-wise `<` on strings, strings.Contains, strings.TrimSpace and the
 * two small regular expressions. Go compares strings byte by byte in UTF-8;
 * UTF-8 preserves code-point order, so comparing chars gives the same order.
 */
module Text {

  predicate IsDigit(c: char) { '0' <= c <= '9' }

  predicate IsUpper(c: char) { 'A' <= c <= 'Z' }

  predicate IsLetter(c: char) { 'a' <= c <= 'z' || 'A' <= c <= 'Z' }

  /** The language of the regular expressions `^\d{5}$` and `^[0-9]{5}$`
      (Go's `\d` is ASCII only and `$` matches only at the end of the text). */
  predicate IsZip(s: string)
    ensures IsZip(s) ==> IndexOf(s, ',') == |s| && IndexOf(s, ' ') == |s|
  {
    |s| == 5 && forall i :: 0 <= i < |s| ==> IsDigit(s[i])
  }

  /** Index of the first `c` in `s`, or |s| when there is none. */
  function IndexOf(s: string, c: char): (i: nat)
    ensures i <= |s|
    ensures i < |s| ==> s[i] == c
    ensures forall j :: 0 <= j < i ==> s[j] != c
  {
    if s == [] then 0
    else if s[0] == c then 0
    else 1 + IndexOf(s[1..], c)
  }

  /** strings.Split with a one-character separator: the pieces between
      separators. The contract is phrased with IndexOf, which is cheap for
      the solver; SplitShape restates it with `in`. */
  function Split(s: string, sep: char): (parts: seq<string>)
    ensures IndexOf(s, sep) == |s| ==> parts == [s]
    ensures IndexOf(s, sep) < |s| ==> |parts| >= 2
    decreases |s|
  {
    var i := IndexOf(s, sep);
    if i == |s| then
      [s]
    else
      [s[..i]] + Split(s[i + 1..], sep)
  }

  /** A text without the separator is its only piece; one with it has at
      least two; no piece contains the separator. */
  lemma {:induction false} SplitShape(s: string, sep: char)
    ensures sep !in s ==> Split(s, sep) == [s]
    ensures sep in s ==> |Split(s, sep)| >= 2
    ensures forall k :: 0 <= k < |Split(s, sep)| ==> sep !in Split(s, sep)[k]
    decreases |s|
  {
    var i := IndexOf(s, sep);
    if i == |s| {
      assert sep !in s;
    } else {
      var head, rest := s[..i], s[i + 1..];
      SplitShape(rest, sep);
      assert sep !in head;
      assert Split(s, sep) == [head] + Split(rest, sep);
    }
  }

  /** Split yields one more piece than there are separators. */
  lemma {:induction false} SplitCount(s: string, sep: char)
    ensures |Split(s, sep)| == multiset(s)[sep] + 1
    decreases |s|
  {
    var i := IndexOf(s, sep);
    if i == |s| {
      assert multiset(s)[sep] == 0 by { assert sep !in s; }
    } else {
      SplitStep(s, sep, i);
      CountStep(s, sep, i);
      SplitCount(s[i + 1..], sep);
    }
  }

  /** Cutting at the first separator, at i, removes one piece... */
  lemma SplitStep(s: string, sep: char, i: nat)
    requires i == IndexOf(s, sep) < |s|
    ensures |Split(s, sep)| == |Split(s[i + 1..], sep)| + 1
  {
    assert Split(s, sep) == [s[..i]] + Split(s[i + 1..], sep);
  }

  /** ... and one occurrence of the separator. */
  lemma CountStep(s: string, sep: char, i: nat)
    requires i == IndexOf(s, sep) < |s|
    ensures multiset(s)[sep] == multiset(s[i + 1..])[sep] + 1
  {
    assert sep !in s[..i];
    assert s == s[..i] + [sep] + s[i + 1..];
  }

  /** strings.Join with a one-character separator. */
  function Join(parts: seq<string>, sep: char): string
    requires |parts| >= 1
  {
    if |parts| == 1 then parts[0] else parts[0] + [sep] + Join(parts[1..], sep)
  }

  lemma {:induction false} JoinSplit(s: string, sep: char)
    ensures Join(Split(s, sep), sep) == s
    decreases |s|
  {
    var i := IndexOf(s, sep);
    if i < |s| {
      var head, rest := s[..i], s[i + 1..];
      var tail := Split(rest, sep);
      JoinSplit(rest, sep);
      assert Split(s, sep) == [head] + tail;
      assert ([head] + tail)[1..] == tail;
      assert Join([head] + tail, sep) == head + [sep] + Join(tail, sep);
      assert s == head + [sep] + rest;
    }
  }

  lemma {:induction false} SplitJoin(parts: seq<string>, sep: char)
    requires |parts| >= 1
    requires forall k :: 0 <= k < |parts| ==> sep !in parts[k]
    ensures Split(Join(parts, sep), sep) == parts
  {
    if |parts| == 1 {
      assert sep !in parts[0];
    } else {
      var p, others := parts[0], parts[1..];
      assert forall k :: 0 <= k < |others| ==> others[k] == parts[k + 1];
      SplitJoin(others, sep);
      assert sep !in p;
      SplitAfterPiece(p, sep, Join(others, sep));
      assert Join(parts, sep) == p + [sep] + Join(others, sep);
      assert parts == [p] + others;
    }
  }

  /** A separator-free piece followed by the separator splits off first. */
  lemma SplitAfterPiece(p: string, sep: char, rest: string)
    requires sep !in p
    ensures Split(p + [sep] + rest, sep) == [p] + Split(rest, sep)
  {
    var s := p + [sep] + rest;
    IndexOfPrefix(p, sep, rest);
    assert s[..|p|] == p && s[|p| + 1..] == rest;
  }

  lemma {:induction false} IndexOfPrefix(p: string, sep: char, rest: string)
    requires sep !in p
    ensures IndexOf(p + [sep] + rest, sep) == |p|
  {
    var s := p + [sep] + rest;
    assert forall j :: 0 <= j < |p| ==> s[j] == p[j];
    assert s[|p|] == sep;
  }

  /** The first piece of Split is the text before the first separator. */
  lemma SplitFirst(s: string, sep: char)
    ensures Split(s, sep)[0] == s[..IndexOf(s, sep)]
  {
  }

  /** Go's `a < b` on strings, compared element by element from the front:
      it is the order Precedes describes. */
  predicate LexLess(a: string, b: string)
    ensures LexLess(a, b) <==> Precedes(a, b)
  {
    if a == [] then b != []
    else if b == [] then false
    else if a[0] != b[0] then PrecedesHead(a, b); a[0] < b[0]
    else PrecedesTail(a, b); LexLess(a[1..], b[1..])
  }

  /** `a` comes before `b`: it is a proper prefix of `b`, or the two first
      differ at some position where `a` holds the smaller character. */
  ghost predicate Precedes(a: string, b: string) {
    || (|a| < |b| && a == b[..|a|])
    || exists k: nat :: FirstDifference(a, b, k) && a[k] < b[k]
  }

  /** `a` and `b` agree before position `k` and differ at it. */
  predicate FirstDifference(a: string, b: string, k: nat) {
    k < |a| && k < |b| && a[..k] == b[..k] && a[k] != b[k]
  }

  /** Texts that differ in their first character are ordered by it. */
  lemma PrecedesHead(a: string, b: string)
    requires a != [] && b != [] && a[0] != b[0]
    ensures Precedes(a, b) <==> a[0] < b[0]
  {
    if a[0] < b[0] {
      assert a[..0] == b[..0];
    }
  }

  /** Texts that share their first character are ordered by what follows it. */
  lemma PrecedesTail(a: string, b: string)
    requires a != [] && b != [] && a[0] == b[0]
    ensures Precedes(a, b) <==> Precedes(a[1..], b[1..])
  {
    var ta, tb := a[1..], b[1..];
    if |a| < |b| && a == b[..|a|] {
      assert ta == tb[..|ta|];
    }
    if |ta| < |tb| && ta == tb[..|ta|] {
      assert b[..|a|] == [b[0]] + tb[..|ta|];
      assert a == [a[0]] + ta;
    }
    forall k: nat | FirstDifference(a, b, k) && a[k] < b[k]
      ensures Precedes(ta, tb)
    {
      assert k > 0;
      assert ta[..k - 1] == a[..k][1..] && tb[..k - 1] == b[..k][1..];
      assert ta[k - 1] == a[k] && tb[k - 1] == b[k];
    }
    forall k: nat | FirstDifference(ta, tb, k) && ta[k] < tb[k]
      ensures Precedes(a, b)
    {
      assert a[..k + 1] == [a[0]] + ta[..k] && b[..k + 1] == [b[0]] + tb[..k];
      assert a[k + 1] == ta[k] && b[k + 1] == tb[k];
    }
  }

  lemma {:induction false} LexLessIrreflexive(a: string)
    ensures !LexLess(a, a)
  {
    if a != [] { LexLessIrreflexive(a[1..]); }
  }

  lemma {:induction false} LexLessTransitive(a: string, b: string, c: string)
    requires LexLess(a, b) && LexLess(b, c)
    ensures LexLess(a, c)
  {
    if a != [] && b != [] && c != [] && a[0] == b[0] == c[0] {
      LexLessTransitive(a[1..], b[1..], c[1..]);
    }
  }

  lemma {:induction false} LexLessTotal(a: string, b: string)
    ensures a == b || LexLess(a, b) || LexLess(b, a)
  {
    if a != [] && b != [] && a[0] == b[0] {
      LexLessTotal(a[1..], b[1..]);
      if a[1..] == b[1..] {
        assert a == [a[0]] + a[1..] && b == [b[0]] + b[1..];
      }
    }
  }

  lemma LexLessAsymmetric(a: string, b: string)
    requires LexLess(a, b)
    ensures !LexLess(b, a)
  {
    if LexLess(b, a) {
      LexLessTransitive(a, b, a);
      LexLessIrreflexive(a);
    }
  }

  predicate StartsWith(s: string, prefix: string) {
    |prefix| <= |s| && s[..|prefix|] == prefix
  }

  /** strings.Contains. */
  predicate Contains(s: string, sub: string)
    ensures Contains(s, sub) <==> exists i: nat :: OccursAt(s, sub, i)
    decreases |s|
  {
    if s == [] then
      assert s[0..] == s;
      assert StartsWith(s, sub) ==> OccursAt(s, sub, 0);
      StartsWith(s, sub)
    else
      ContainsStep(s, sub);
      StartsWith(s, sub) || Contains(s[1..], sub)
  }

  /** An occurrence in `s` is one at its start or one in its tail. */
  lemma ContainsStep(s: string, sub: string)
    requires s != []
    ensures (exists i: nat :: OccursAt(s, sub, i)) <==>
      StartsWith(s, sub) || exists i: nat :: OccursAt(s[1..], sub, i)
  {
    assert s[0..] == s;
    if StartsWith(s, sub) {
      assert OccursAt(s, sub, 0);
    }
    forall i: nat | 0 < i && OccursAt(s, sub, i)
      ensures OccursAt(s[1..], sub, i - 1)
    {
      assert s[1..][i - 1..] == s[i..];
    }
    forall i: nat | OccursAt(s[1..], sub, i)
      ensures OccursAt(s, sub, i + 1)
    {
      assert s[1..][i..] == s[i + 1..];
    }
  }

  /** `sub` occurs in `s` starting at position `i`. */
  predicate OccursAt(s: string, sub: string, i: nat) {
    i + |sub| <= |s| && StartsWith(s[i..], sub)
  }

  lemma {:induction false} ContainsAt(s: string, sub: string, i: nat)
    requires i + |sub| <= |s| && s[i..i + |sub|] == sub
    ensures Contains(s, sub)
  {
    if i > 0 {
      assert s[1..][i - 1..i - 1 + |sub|] == sub;
      ContainsAt(s[1..], sub, i - 1);
    }
  }

  /** unicode.IsSpace, the set of characters strings.TrimSpace removes. */
  predicate IsSpace(c: char) {
    || c == '\t' || c == '\n' || c == '\U{000B}' || c == '\U{000C}' || c == '\r' || c == ' '
    || c == '\U{0085}' || c == '\U{00A0}' || c == '\U{1680}'
    || ('\U{2000}' <= c <= '\U{200A}')
    || c == '\U{2028}' || c == '\U{2029}' || c == '\U{202F}' || c == '\U{205F}' || c == '\U{3000}'
  }

  /** Removes leading white space: the result is a suffix of `s`, begins
      with no space, and everything removed was space. */
  function TrimLeft(s: string): (r: string)
    ensures |r| <= |s| && r == s[|s| - |r|..]
    ensures r == [] || !IsSpace(r[0])
    ensures forall k :: 0 <= k < |s| - |r| ==> IsSpace(s[k])
  {
    if s != [] && IsSpace(s[0]) then TrimLeft(s[1..]) else s
  }

  /** Removes trailing white space: the result is a prefix of `s`, ends with
      no space, and everything removed was space. */
  function TrimRight(s: string): (r: string)
    ensures |r| <= |s| && r == s[..|r|]
    ensures r == [] || !IsSpace(r[|r| - 1])
    ensures forall k :: |r| <= k < |s| ==> IsSpace(s[k])
  {
    if s != [] && IsSpace(s[|s| - 1]) then TrimRight(s[..|s| - 1]) else s
  }

  /** strings.TrimSpace: `s` with leading and trailing white space removed. */
  function TrimSpace(s: string): (r: string)
    ensures Contains(s, r)
    ensures r == [] || (!IsSpace(r[0]) && !IsSpace(r[|r| - 1]))
    ensures exists i :: SpaceAround(s, r, i)
  {
    var l := TrimLeft(s);
    var r := TrimRight(l);
    ContainsSlice(s, l, r);
    assert r != [] ==> r[0] == l[0] && l != [];
    TrimmedSpaceAround(s, l, r);
    r
  }

  /** A prefix of a suffix, each cut only at white space, sits in `s` with
      nothing but white space around it. */
  lemma TrimmedSpaceAround(s: string, suffix: string, r: string)
    requires |suffix| <= |s| && suffix == s[|s| - |suffix|..]
    requires forall k :: 0 <= k < |s| - |suffix| ==> IsSpace(s[k])
    requires |r| <= |suffix| && r == suffix[..|r|]
    requires forall k :: |r| <= k < |suffix| ==> IsSpace(suffix[k])
    ensures SpaceAround(s, r, |s| - |suffix|)
  {
    var i := |s| - |suffix|;
    assert r == s[i..i + |r|];
    forall k | i + |r| <= k < |s|
      ensures IsSpace(s[k])
    {
      assert s[k] == suffix[k - i];
    }
  }

  /** `r` occurs at `i` in `s` with nothing but white space before and after it. */
  predicate SpaceAround(s: string, r: string, i: nat) {
    && i + |r| <= |s|
    && s[i..i + |r|] == r
    && (forall k :: 0 <= k < i ==> IsSpace(s[k]))
    && (forall k :: i + |r| <= k < |s| ==> IsSpace(s[k]))
  }

  /** A prefix of a suffix of `s` occurs in `s`. */
  lemma ContainsSlice(s: string, suffix: string, r: string)
    requires |suffix| <= |s| && suffix == s[|s| - |suffix|..]
    requires |r| <= |suffix| && r == suffix[..|r|]
    ensures Contains(s, r)
  {
    var i := |s| - |suffix|;
    assert r == s[i..i + |r|];
    ContainsAt(s, r, i);
  }

  /** TrimSpace drops a leading space character. */
  lemma TrimSpaceLeadingSpace(c: char, s: string)
    requires IsSpace(c)
    ensures TrimSpace([c] + s) == TrimSpace(s)
  {
    assert ([c] + s)[1..] == s;
  }

  /** TrimSpace leaves a string without surrounding space unchanged. */
  lemma {:induction false} TrimSpaceNoop(s: string)
    requires s == [] || (!IsSpace(s[0]) && !IsSpace(s[|s| - 1]))
    ensures TrimSpace(s) == s
  {
  }
}
