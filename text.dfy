/** Text vocabulary shared by the style template, the style-list splice and
    the GUID formatting: blank runs, occurrences of a substring, and the
    one-character `split` / `join` of Python strings. */
module Text {

  predicate IsBlank(c: char) {
    c == ' ' || c == '\n' || c == '\r' || c == '\t'
  }

  predicate AllBlank(s: string) {
    forall i :: 0 <= i < |s| ==> IsBlank(s[i])
  }

  /** A line break followed by `indent` spaces: how the templates indent. */
  function Newline(indent: nat): (r: string)
    ensures |r| == indent + 1 && r[0] == '\n' && AllBlank(r)
  {
    "\n" + seq(indent, _ => ' ')
  }

  /** `t` occurs in `s` starting at index `i`. */
  predicate OccursAt(s: string, t: string, i: nat) {
    i + |t| <= |s| && s[i..i + |t|] == t
  }

  ghost predicate Contains(s: string, t: string) {
    exists i: nat :: OccursAt(s, t, i)
  }

  /** `s` is blank up to an occurrence of `t`: `s.lstrip()` starts with `t`. */
  ghost predicate BeginsAfterBlank(s: string, t: string) {
    exists k: nat :: k <= |s| && AllBlank(s[..k]) && OccursAt(s, t, k)
  }

  /** After an occurrence of `t`, `s` is blank: `s.rstrip()` ends with `t`. */
  ghost predicate EndsBeforeBlank(s: string, t: string) {
    exists k: nat :: |t| <= k <= |s| && AllBlank(s[k..]) && OccursAt(s, t, k - |t|)
  }

  lemma OccursInMiddle(a: string, t: string, b: string)
    ensures OccursAt(a + t + b, t, |a|)
  {
    assert (a + t + b)[|a|..|a| + |t|] == t;
  }

  lemma OccursAtEnd(a: string, t: string)
    ensures OccursAt(a + t, t, |a|)
  {
    assert (a + t)[|a|..|a| + |t|] == t;
  }

  /** An occurrence stays where it is when text is added after it. */
  lemma OccursBefore(x: string, y: string, t: string, i: nat)
    requires OccursAt(x, t, i)
    ensures OccursAt(x + y, t, i)
  {
    assert (x + y)[i..i + |t|] == x[i..i + |t|];
  }

  /** An occurrence moves right by `|x|` when `x` is added before it. */
  lemma OccursAfter(x: string, y: string, t: string, i: nat)
    requires OccursAt(y, t, i)
    ensures OccursAt(x + y, t, |x| + i)
  {
    assert (x + y)[|x| + i..|x| + i + |t|] == y[i..i + |t|];
  }

  /** An occurrence survives text being added on either side. */
  lemma ContainsWidened(a: string, s: string, b: string, t: string)
    requires Contains(s, t)
    ensures Contains(a + s + b, t)
  {
    var i: nat :| OccursAt(s, t, i);
    OccursAfter(a, s, t, i);
    OccursBefore(a + s, b, t, |a| + i);
  }

  lemma ContainsAfter(a: string, s: string, t: string)
    requires Contains(s, t)
    ensures Contains(a + s, t)
  {
    var i: nat :| OccursAt(s, t, i);
    OccursAfter(a, s, t, i);
  }

  lemma BeginsContains(s: string, t: string)
    requires BeginsAfterBlank(s, t)
    ensures Contains(s, t)
  {
  }

  lemma BlankThen(a: string, t: string)
    requires AllBlank(a)
    ensures BeginsAfterBlank(a + t, t)
  {
    assert (a + t)[..|a|] == a;
    OccursAtEnd(a, t);
  }

  lemma BeginsBefore(x: string, y: string, t: string)
    requires BeginsAfterBlank(x, t)
    ensures BeginsAfterBlank(x + y, t)
  {
    var k: nat :| k <= |x| && AllBlank(x[..k]) && OccursAt(x, t, k);
    assert (x + y)[..k] == x[..k];
    OccursBefore(x, y, t, k);
  }

  lemma ThenBlank(a: string, t: string, b: string)
    requires AllBlank(b)
    ensures EndsBeforeBlank(a + t + b, t)
  {
    assert (a + t + b)[|a| + |t|..] == b;
    OccursInMiddle(a, t, b);
  }

  lemma EndsAfter(x: string, y: string, t: string)
    requires EndsBeforeBlank(y, t)
    ensures EndsBeforeBlank(x + y, t)
  {
    var k: nat :| |t| <= k <= |y| && AllBlank(y[k..]) && OccursAt(y, t, k - |t|);
    assert (x + y)[|x| + k..] == y[k..];
    OccursAfter(x, y, t, k - |t|);
  }

  /** No occurrence of `t` starts at index `i` of `s`, not even one cut off
      by the end of `s`. */
  predicate NoneAt(s: string, t: string, i: nat)
    requires i < |s|
  {
    if |s| - i < |t| then s[i..] != t[..|s| - i] else s[i..i + |t|] != t
  }

  ghost predicate CleanFrom(s: string, t: string, i: nat)
    decreases |s| - i
  {
    i < |s| ==> NoneAt(s, t, i) && CleanFrom(s, t, i + 1)
  }

  /** `s` holds no occurrence of `t`, and no tail of `s` is the start of
      one, so `t` cannot appear across the end of `s` either. Written as a
      recursion, so that a fact `Clean(s, t)` is opened only on demand. */
  ghost predicate Clean(s: string, t: string) {
    CleanFrom(s, t, 0)
  }

  lemma {:induction false} CleanFromAll(s: string, t: string, i: nat)
    ensures CleanFrom(s, t, i) <==> forall j | i <= j < |s| :: NoneAt(s, t, j)
    decreases |s| - i
  {
    if i < |s| {
      CleanFromAll(s, t, i + 1);
    }
  }

  lemma CleanAll(s: string, t: string)
    ensures Clean(s, t) <==> forall j | 0 <= j < |s| :: NoneAt(s, t, j)
  {
    CleanFromAll(s, t, 0);
  }

  /** Clean text holds no occurrence of a non-empty `t`. */
  lemma CleanNotContains(s: string, t: string)
    requires |t| > 0 && Clean(s, t)
    ensures !Contains(s, t)
  {
    CleanAll(s, t);
    forall i: nat | i + |t| <= |s| ensures !OccursAt(s, t, i) {
      assert NoneAt(s, t, i);
    }
  }

  lemma NoneAtLeft(x: string, y: string, t: string, j: nat)
    requires j < |x| && NoneAt(x, t, j)
    ensures NoneAt(x + y, t, j)
  {
    var s := x + y;
    if |x| - j >= |t| {
      assert s[j..j + |t|] == x[j..j + |t|];
    } else if |s| - j < |t| {
      assert x[j..] == s[j..][..|x| - j];
    } else {
      assert x[j..] == s[j..j + |t|][..|x| - j];
    }
  }

  lemma NoneAtRight(x: string, y: string, t: string, j: nat)
    requires j < |y| && NoneAt(y, t, j)
    ensures NoneAt(x + y, t, |x| + j)
  {
    var s := x + y;
    assert s[|x| + j..] == y[j..];
    if |y| - j >= |t| {
      assert s[|x| + j..|x| + j + |t|] == y[j..j + |t|];
    }
  }

  /** Clean runs stay clean when put side by side. */
  lemma CleanAppend(x: string, y: string, t: string)
    requires Clean(x, t) && Clean(y, t)
    ensures Clean(x + y, t)
  {
    var s := x + y;
    CleanAll(x, t);
    CleanAll(y, t);
    forall j | 0 <= j < |s| ensures NoneAt(s, t, j) {
      if j < |x| {
        NoneAtLeft(x, y, t, j);
      } else {
        NoneAtRight(x, y, t, j - |x|);
      }
    }
    CleanAll(s, t);
  }

  /** Text without `'<'` cannot hold or begin a tag `t`. */
  lemma PlainClean(v: string, t: string)
    requires |t| > 0 && t[0] == '<' && '<' !in v
    ensures Clean(v, t)
  {
    forall j | 0 <= j < |v| ensures NoneAt(v, t, j) {
      if |v| - j < |t| {
        assert v[j..][0] == v[j];
      } else {
        assert v[j..j + |t|][0] == v[j];
      }
    }
    CleanAll(v, t);
  }

  /** A tag `"<" + x` whose text `x` holds no `'<'` and differs from the
      text of the tag `t` at index `k` is not, and does not begin, `t`. */
  lemma TagClean(x: string, t: string, k: nat)
    requires |t| > 0 && t[0] == '<' && '<' !in x
    requires k < |x| && k + 1 < |t| && x[k] != t[k + 1]
    ensures Clean("<" + x, t)
  {
    var u := "<" + x;
    forall j | 0 <= j < |u| ensures NoneAt(u, t, j) {
      if j == 0 && |u| < |t| {
        assert u[..][k + 1] == x[k];
      } else if j == 0 {
        assert u[..|t|][k + 1] == x[k];
      } else if |u| - j < |t| {
        assert u[j..][0] == x[j - 1];
      } else {
        assert u[j..j + |t|][0] == x[j - 1];
      }
    }
    CleanAll(u, t);
  }

  /** Text `u` that opens with `'<'`, holds no other, and differs from the
      tag `t` at index `k` is not, and does not begin, `t`. */
  lemma OpenedClean(u: string, t: string, k: nat)
    requires |t| > 0 && t[0] == '<' && |u| > 0 && u[0] == '<'
    requires forall i | 1 <= i < |u| :: u[i] != '<'
    requires k < |u| && k < |t| && u[k] != t[k]
    ensures Clean(u, t)
  {
    forall j | 0 <= j < |u| ensures NoneAt(u, t, j) {
      if j == 0 && |u| < |t| {
        assert u[..][k] == u[k];
      } else if j == 0 {
        assert u[..|t|][k] == u[k];
      } else if |u| - j < |t| {
        assert u[j..][0] == u[j];
      } else {
        assert u[j..j + |t|][0] == u[j];
      }
    }
    CleanAll(u, t);
  }

  lemma NewlineClean(indent: nat, t: string)
    requires |t| > 0 && t[0] == '<'
    ensures Clean(Newline(indent), t)
  {
    var r := Newline(indent);
    assert forall i | 0 <= i < |r| :: r[i] != '<' by {
      forall i | 0 <= i < |r| ensures r[i] != '<' {
        assert IsBlank(r[i]);
      }
    }
    PlainClean(r, t);
  }

  /** Number of occurrences of the character `c` in `s`. */
  function Count(s: string, c: char): nat
  {
    if |s| == 0 then 0 else (if s[0] == c then 1 else 0) + Count(s[1..], c)
  }

  lemma {:induction false} CountAppend(a: string, b: string, c: char)
    ensures Count(a + b, c) == Count(a, c) + Count(b, c)
  {
    if |a| == 0 {
      assert a + b == b;
    } else {
      assert (a + b)[1..] == a[1..] + b;
      CountAppend(a[1..], b, c);
    }
  }

  lemma {:induction false} CountZero(s: string, c: char)
    ensures Count(s, c) == 0 <==> c !in s
  {
    if |s| > 0 {
      CountZero(s[1..], c);
      assert s == [s[0]] + s[1..];
    }
  }

  /** Python's `s.split(c)` for a one-character separator: the pieces
      between occurrences of `c`; `""` splits into `[""]`. */
  function Split(s: string, c: char): (parts: seq<string>)
    ensures |parts| >= 1
    decreases |s|
  {
    if |s| == 0 then [""]
    else
      var rest := Split(s[1..], c);
      if s[0] == c then [""] + rest else [[s[0]] + rest[0]] + rest[1..]
  }

  /** Python's `sep.join(parts)`; joining no parts gives `""`. */
  function Join(sep: string, parts: seq<string>): string
    decreases |parts|
  {
    if |parts| == 0 then ""
    else if |parts| == 1 then parts[0]
    else parts[0] + sep + Join(sep, parts[1..])
  }

  /** Python's `xs[:n]`: clamps when `xs` is shorter than `n`. */
  function SliceTo<T>(xs: seq<T>, n: nat): seq<T> {
    if n <= |xs| then xs[..n] else xs
  }

  /** Python's `xs[n:]`: empty when `xs` is shorter than `n`. */
  function SliceFrom<T>(xs: seq<T>, n: nat): seq<T> {
    if n <= |xs| then xs[n..] else []
  }

  lemma JoinCons(sep: string, p: string, rest: seq<string>)
    requires |rest| >= 1
    ensures Join(sep, [p] + rest) == p + sep + Join(sep, rest)
  {
    assert ([p] + rest)[1..] == rest;
  }

  /** Joining the pieces of a split with the separator gives the text back. */
  lemma {:induction false} JoinSplit(s: string, c: char)
    ensures Join([c], Split(s, c)) == s
    decreases |s|
  {
    if |s| > 0 {
      var rest := Split(s[1..], c);
      JoinSplit(s[1..], c);
      assert s == [s[0]] + s[1..];
      if s[0] == c {
        JoinCons([c], "", rest);
      } else if |rest| == 1 {
        assert Split(s, c) == [[s[0]] + rest[0]];
      } else {
        assert rest == [rest[0]] + rest[1..];
        JoinCons([c], [s[0]] + rest[0], rest[1..]);
        JoinCons([c], rest[0], rest[1..]);
      }
    }
  }

  /** No piece of a split holds the separator, and there is one piece more
      than there are separators. */
  lemma {:induction false} SplitPieces(s: string, c: char)
    ensures |Split(s, c)| == Count(s, c) + 1
    ensures forall i :: 0 <= i < |Split(s, c)| ==> c !in Split(s, c)[i]
    decreases |s|
  {
    if |s| > 0 {
      SplitPieces(s[1..], c);
      var rest := Split(s[1..], c);
      if s[0] != c {
        var parts := Split(s, c);
        assert parts[0] == [s[0]] + rest[0];
        forall i | 1 <= i < |parts| ensures c !in parts[i] {
          assert parts[i] == rest[i];
        }
      }
    }
  }

  /** Joining splits at any inner boundary `n` into the two joined halves. */
  lemma {:induction false} JoinAt(sep: string, parts: seq<string>, n: nat)
    requires 1 <= n < |parts|
    ensures Join(sep, parts) == Join(sep, parts[..n]) + sep + Join(sep, parts[n..])
    decreases n
  {
    if n > 1 {
      JoinAt(sep, parts[1..], n - 1);
      assert parts[1..][..n - 1] == parts[..n][1..];
      assert parts[1..][n - 1..] == parts[n..];
    }
  }

  /** Joining separator-free pieces puts exactly one separator between each. */
  lemma {:induction false} CountJoin(parts: seq<string>, c: char)
    requires |parts| >= 1
    requires forall i :: 0 <= i < |parts| ==> c !in parts[i]
    ensures Count(Join([c], parts), c) == |parts| - 1
    decreases |parts|
  {
    CountZero(parts[0], c);
    if |parts| > 1 {
      CountJoin(parts[1..], c);
      CountAppend(parts[0] + [c], Join([c], parts[1..]), c);
      CountAppend(parts[0], [c], c);
      assert Count([c], c) == 1;
    }
  }

  /** Three or more separators: the text is the first three pieces joined,
      the third separator, then the remaining pieces joined. */
  lemma SplitAtThird(s: string, c: char)
    requires Count(s, c) >= 3
    ensures var parts := Split(s, c);
      && |parts| >= 4
      && s == Join([c], parts[..3]) + [c] + Join([c], parts[3..])
      && Count(Join([c], parts[..3]), c) == 2
  {
    var parts := Split(s, c);
    SplitPieces(s, c);
    JoinSplit(s, c);
    JoinAt([c], parts, 3);
    CountJoin(parts[..3], c);
  }

  /** Text put in front of the separator that follows `pre`. */
  lemma CutBefore(pre: string, c: char, post: string, fragment: string)
    ensures var s := pre + [c] + post;
      && |pre| < |s| && s[|pre|] == c && s[..|pre|] == pre
      && pre + fragment + [c] + post == s[..|pre|] + fragment + s[|pre|..]
  {
    var s := pre + [c] + post;
    assert s[..|pre|] == pre;
    assert s[|pre|..] == [c] + post;
  }
}
