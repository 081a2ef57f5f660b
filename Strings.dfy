/**
 * The JavaScript string operations the pipeline uses: `trim`, `startsWith`,
 * `split("\n")`, `lastIndexOf` and `join`, over `seq<char>`.
 */
module Strings {

  /** The characters `String.prototype.trim` removes (ECMAScript WhiteSpace and LineTerminator). */
  predicate IsWhitespace(c: char) {
    c == '\t' || c == '\n' || c == '\U{000B}' || c == '\U{000C}' || c == '\r' || c == ' '
    || c == '\U{00A0}' || c == '\U{1680}' || ('\U{2000}' <= c <= '\U{200A}')
    || c == '\U{2028}' || c == '\U{2029}' || c == '\U{202F}' || c == '\U{205F}'
    || c == '\U{3000}' || c == '\U{FEFF}'
  }

  predicate AllWhitespace(s: string) {
    forall i :: 0 <= i < |s| ==> IsWhitespace(s[i])
  }

  function TrimStart(s: string): string
    decreases |s|
  {
    if |s| > 0 && IsWhitespace(s[0]) then TrimStart(s[1..]) else s
  }

  function TrimEnd(s: string): string
    decreases |s|
  {
    if |s| > 0 && IsWhitespace(s[|s| - 1]) then TrimEnd(s[..|s| - 1]) else s
  }

  /** `s.trim()` */
  function Trim(s: string): string {
    TrimEnd(TrimStart(s))
  }

  /** `s.startsWith(p)` */
  predicate StartsWith(s: string, p: string) {
    |p| <= |s| && s[..|p|] == p
  }

  /** Leading whitespace is dropped by `trim` in front of text that starts and ends with a non-blank. */
  lemma {:induction false} TrimPadded(w: string, x: string)
    requires AllWhitespace(w)
    requires |x| > 0 && !IsWhitespace(x[0]) && !IsWhitespace(x[|x| - 1])
    ensures Trim(w + x) == x
  {
    TrimStartPadded(w, x);
    assert TrimEnd(x) == x;
  }

  lemma {:induction false} TrimStartPadded(w: string, x: string)
    requires AllWhitespace(w)
    requires |x| > 0 && !IsWhitespace(x[0])
    ensures TrimStart(w + x) == x
    decreases |w|
  {
    if |w| > 0 {
      assert (w + x)[1..] == w[1..] + x;
      TrimStartPadded(w[1..], x);
    } else {
      assert w + x == x;
    }
  }

  /** A blank line trims to the empty string. */
  lemma {:induction false} TrimBlank(s: string)
    requires AllWhitespace(s)
    ensures Trim(s) == ""
  {
    TrimStartBlank(s);
  }

  lemma {:induction false} TrimStartBlank(s: string)
    requires AllWhitespace(s)
    ensures TrimStart(s) == ""
    decreases |s|
  {
    if |s| > 0 {
      TrimStartBlank(s[1..]);
    }
  }

  // ---------------------------------------------------------------------------
  // split("\n")

  /** `s.split("\n")`: the pieces between newlines, always at least one. */
  function Split(s: string): (r: seq<string>)
    ensures |r| >= 1
    decreases |s|
  {
    if |s| == 0 then [""]
    else if s[0] == '\n' then [""] + Split(s[1..])
    else
      var t := Split(s[1..]);
      [[s[0]] + t[0]] + t[1..]
  }

  /** The newline-terminated lines of `s`: every piece of the split except the last. */
  function Lines(s: string): seq<string> {
    var p := Split(s);
    p[..|p| - 1]
  }

  /** The last piece of the split: what `lines.pop()` removes. */
  function Rest(s: string): string {
    var p := Split(s);
    p[|p| - 1]
  }

  /** The text made of the given lines, each followed by a newline. */
  function Terminated(ls: seq<string>): string {
    if ls == [] then "" else ls[0] + "\n" + Terminated(ls[1..])
  }

  predicate NoNewline(s: string) {
    '\n' !in s
  }

  predicate AllNoNewline(ls: seq<string>) {
    forall i :: 0 <= i < |ls| ==> NoNewline(ls[i])
  }

  lemma {:induction false} TerminatedAppend(a: seq<string>, b: seq<string>)
    ensures Terminated(a + b) == Terminated(a) + Terminated(b)
    decreases |a|
  {
    if a == [] {
      assert a + b == b;
    } else {
      assert (a + b)[1..] == a[1..] + b;
      TerminatedAppend(a[1..], b);
    }
  }

  /**
   * The split is a layout of `s`: `s` is its complete lines, each followed by a
   * newline, then the rest; no piece holds a newline.
   */
  lemma {:induction false} SplitLayout(s: string)
    ensures Split(s) == Lines(s) + [Rest(s)]
    ensures s == Terminated(Lines(s)) + Rest(s)
    ensures AllNoNewline(Lines(s)) && NoNewline(Rest(s))
    decreases |s|
  {
    if |s| == 0 {
    } else {
      SplitLayout(s[1..]);
      if s[0] == '\n' {
        SplitLayoutNewline(s);
      } else {
        SplitLayoutChar(s);
      }
    }
  }

  lemma SplitLayoutNewline(s: string)
    requires |s| > 0 && s[0] == '\n'
    requires s[1..] == Terminated(Lines(s[1..])) + Rest(s[1..])
    requires AllNoNewline(Lines(s[1..])) && NoNewline(Rest(s[1..]))
    ensures s == Terminated(Lines(s)) + Rest(s)
    ensures AllNoNewline(Lines(s)) && NoNewline(Rest(s))
  {
    var l := Lines(s[1..]);
    assert Split(s) == [""] + Split(s[1..]);
    assert Lines(s) == [""] + l;
    assert Rest(s) == Rest(s[1..]);
    assert ([""] + l)[1..] == l;
    assert Terminated(Lines(s)) == "\n" + Terminated(l);
    assert s == "\n" + s[1..];
  }

  lemma SplitLayoutChar(s: string)
    requires |s| > 0 && s[0] != '\n'
    requires s[1..] == Terminated(Lines(s[1..])) + Rest(s[1..])
    requires AllNoNewline(Lines(s[1..])) && NoNewline(Rest(s[1..]))
    ensures s == Terminated(Lines(s)) + Rest(s)
    ensures AllNoNewline(Lines(s)) && NoNewline(Rest(s))
  {
    var q := Split(s[1..]);
    var l := Lines(s[1..]);
    assert Split(s) == [[s[0]] + q[0]] + q[1..];
    assert s == [s[0]] + s[1..];
    if |q| == 1 {
      assert l == [];
      assert Lines(s) == [];
      assert Rest(s) == [s[0]] + q[0];
    } else {
      assert l[0] == q[0];
      var ls := [[s[0]] + l[0]] + l[1..];
      assert Lines(s) == ls;
      assert Rest(s) == Rest(s[1..]);
      assert ls[1..] == l[1..];
      assert Terminated(ls) == [s[0]] + l[0] + "\n" + Terminated(l[1..]);
      assert Terminated(l) == l[0] + "\n" + Terminated(l[1..]);
      forall i | 0 <= i < |ls| ensures NoNewline(ls[i]) {
        if i == 0 {
          assert ls[0] == [s[0]] + l[0];
        } else {
          assert ls[i] == l[i];
        }
      }
    }
  }

  lemma {:induction false} SplitSingleLine(r: string)
    requires NoNewline(r)
    ensures Split(r) == [r]
    decreases |r|
  {
    if |r| > 0 {
      SplitSingleLine(r[1..]);
      assert [r[0]] + r[1..] == r;
    }
  }

  lemma {:induction false} SplitAfterLine(l: string, z: string)
    requires NoNewline(l)
    ensures Split(l + "\n" + z) == [l] + Split(z)
    decreases |l|
  {
    var s := l + "\n" + z;
    if |l| == 0 {
      assert s[0] == '\n' && s[1..] == z;
    } else {
      assert s[0] == l[0] && s[1..] == l[1..] + "\n" + z;
      SplitAfterLine(l[1..], z);
      assert [l[0]] + l[1..] == l;
    }
  }

  /** Conversely, a layout determines the split (the split is its inverse). */
  lemma {:induction false} SplitOfLayout(ls: seq<string>, r: string)
    requires AllNoNewline(ls) && NoNewline(r)
    ensures Split(Terminated(ls) + r) == ls + [r]
    ensures Lines(Terminated(ls) + r) == ls && Rest(Terminated(ls) + r) == r
    decreases |ls|
  {
    if ls == [] {
      assert Terminated(ls) + r == r;
      SplitSingleLine(r);
    } else {
      assert Terminated(ls) + r == ls[0] + "\n" + (Terminated(ls[1..]) + r);
      SplitOfLayout(ls[1..], r);
      SplitAfterLine(ls[0], Terminated(ls[1..]) + r);
      assert [ls[0]] + (ls[1..] + [r]) == ls + [r];
    }
    var p := Split(Terminated(ls) + r);
    assert p[..|p| - 1] == ls;
  }

  /**
   * Splitting a concatenation: the complete lines of `x`, then the split of the
   * rest of `x` continued by `y`.
   */
  lemma SplitAppend(x: string, y: string)
    ensures Lines(x + y) == Lines(x) + Lines(Rest(x) + y)
    ensures Rest(x + y) == Rest(Rest(x) + y)
  {
    var lx, l2, r2 := Lines(x), Lines(Rest(x) + y), Rest(Rest(x) + y);
    AppendLayout(x, y);
    SplitLayout(x);
    SplitLayout(Rest(x) + y);
    AllNoNewlineAppend(lx, l2);
    SplitOfLayout(lx + l2, r2);
  }

  /** The lines of `x`, then those of its rest followed by `y`, lay out `x + y`. */
  lemma AppendLayout(x: string, y: string)
    ensures x + y == Terminated(Lines(x) + Lines(Rest(x) + y)) + Rest(Rest(x) + y)
  {
    var lx, l2, r2 := Lines(x), Lines(Rest(x) + y), Rest(Rest(x) + y);
    LayoutOf(x);
    LayoutOf(Rest(x) + y);
    TerminatedAppend(lx, l2);
    Regroup(x, y, Terminated(lx), Rest(x), Terminated(l2), r2);
  }

  /** A text is its complete lines, each with its newline, followed by its rest. */
  lemma LayoutOf(s: string)
    ensures s == Terminated(Lines(s)) + Rest(s)
  {
    SplitLayout(s);
  }

  lemma Regroup(x: string, y: string, t1: string, r1: string, t2: string, r2: string)
    requires x == t1 + r1 && r1 + y == t2 + r2
    ensures x + y == (t1 + t2) + r2
  {
    assert x + y == t1 + (r1 + y);
  }

  lemma AllNoNewlineAppend(a: seq<string>, b: seq<string>)
    requires AllNoNewline(a) && AllNoNewline(b)
    ensures AllNoNewline(a + b)
  {
    forall i | 0 <= i < |a + b| ensures NoNewline((a + b)[i]) {
      if i < |a| { assert (a + b)[i] == a[i]; } else { assert (a + b)[i] == b[i - |a|]; }
    }
  }

  /** After the split, the rest is exactly the text after the last newline. */
  lemma RestIsTextAfterLastNewline(s: string)
    ensures |Rest(s)| <= |s| && s[|s| - |Rest(s)|..] == Rest(s)
    ensures NoNewline(Rest(s))
    ensures |Rest(s)| < |s| ==> s[|s| - |Rest(s)| - 1] == '\n'
  {
    SplitLayout(s);
    var t := Terminated(Lines(s));
    assert s == t + Rest(s);
    if Lines(s) != [] {
      TerminatedLastNewline(Lines(s));
    }
  }

  lemma {:induction false} TerminatedLastNewline(ls: seq<string>)
    requires ls != []
    ensures |Terminated(ls)| > 0 && Terminated(ls)[|Terminated(ls)| - 1] == '\n'
    decreases |ls|
  {
    if ls[1..] != [] {
      TerminatedLastNewline(ls[1..]);
    }
  }

  // ---------------------------------------------------------------------------
  // lastIndexOf

  predicate OccursAt(s: string, pat: string, k: int) {
    0 <= k && k + |pat| <= |s| && s[k..k + |pat|] == pat
  }

  /** `s.lastIndexOf(pat)`: the last position where `pat` occurs, or -1. */
  function LastIndexOf(s: string, pat: string): (r: int)
    ensures -1 <= r
    ensures r >= 0 ==> OccursAt(s, pat, r)
    ensures forall k :: r < k && OccursAt(s, pat, k) ==> false
  {
    LastIndexFrom(s, pat, |s| - |pat|)
  }

  function LastIndexFrom(s: string, pat: string, k: int): (r: int)
    requires k <= |s| - |pat|
    ensures -1 <= r && r <= (if k < 0 then -1 else k)
    ensures r >= 0 ==> OccursAt(s, pat, r)
    ensures forall j :: r < j <= k ==> !OccursAt(s, pat, j)
    decreases k + 1
  {
    if k < 0 then -1
    else if s[k..k + |pat|] == pat then k
    else LastIndexFrom(s, pat, k - 1)
  }

  /** `ls.join(sep)` */
  function JoinWith(ls: seq<string>, sep: string): string
    decreases |ls|
  {
    if ls == [] then ""
    else if |ls| == 1 then ls[0]
    else ls[0] + sep + JoinWith(ls[1..], sep)
  }

  /** Joining one more piece adds the separator and the piece at the end. */
  lemma {:induction false} JoinWithAppend(ls: seq<string>, x: string, sep: string)
    ensures JoinWith(ls + [x], sep) == if ls == [] then x else JoinWith(ls, sep) + sep + x
    decreases |ls|
  {
    if |ls| == 1 {
      assert ls + [x] == [ls[0], x];
      assert [ls[0], x][1..] == [x];
    } else if |ls| > 1 {
      assert (ls + [x])[0] == ls[0];
      assert (ls + [x])[1..] == ls[1..] + [x];
      JoinWithAppend(ls[1..], x, sep);
    }
  }
}
