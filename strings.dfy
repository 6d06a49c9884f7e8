/** The parts of Go's `strings` package that the command line tool relies on,
    over sequences of Unicode code points. */
module GoStrings {

  /** Go's `unicode.IsSpace`: the Latin-1 spaces and the characters with the
      Unicode White_Space property. */
  predicate IsSpace(c: char)
  {
    c == ' ' || c == '\t' || c == '\n' || c == '\U{000B}' || c == '\U{000C}' || c == '\r'
    || c == '\U{0085}' || c == '\U{00A0}' || c == '\U{1680}'
    || ('\U{2000}' <= c <= '\U{200A}')
    || c == '\U{2028}' || c == '\U{2029}' || c == '\U{202F}' || c == '\U{205F}' || c == '\U{3000}'
  }

  predicate AllSpace(s: string)
  {
    forall k :: 0 <= k < |s| ==> IsSpace(s[k])
  }

  /** Neither end of `s` is white space. */
  predicate IsTrimmed(s: string)
  {
    s == [] || (!IsSpace(s[0]) && !IsSpace(s[|s| - 1]))
  }

  /** `strings.HasPrefix` */
  predicate HasPrefix(s: string, prefix: string)
  {
    |prefix| <= |s| && s[..|prefix|] == prefix
  }

  /** `strings.HasSuffix` */
  predicate HasSuffix(s: string, suffix: string)
  {
    |suffix| <= |s| && s[|s| - |suffix|..] == suffix
  }

  /** `strings.TrimPrefix`: drops one leading `prefix`, if there is one. */
  function TrimPrefix(s: string, prefix: string): (r: string)
    ensures HasPrefix(s, prefix) ==> s == prefix + r
    ensures !HasPrefix(s, prefix) ==> r == s
  {
    if HasPrefix(s, prefix) then s[|prefix|..] else s
  }

  /** `strings.TrimSuffix`: drops one trailing `suffix`, if there is one. */
  function TrimSuffix(s: string, suffix: string): (r: string)
    ensures HasSuffix(s, suffix) ==> s == r + suffix
    ensures !HasSuffix(s, suffix) ==> r == s
  {
    if HasSuffix(s, suffix) then s[..|s| - |suffix|] else s
  }

  /** `strings.TrimLeftFunc(s, unicode.IsSpace)`: `s` without its leading
      white space (`TrimLeftCutsSpace` says what is cut off). */
  function TrimLeft(s: string): (r: string)
    ensures |r| <= |s|
    ensures r == [] || !IsSpace(r[0])
  {
    if s != [] && IsSpace(s[0]) then TrimLeft(s[1..]) else s
  }

  /** `strings.TrimRightFunc(s, unicode.IsSpace)`: `s` without its trailing
      white space (`TrimRightCutsSpace` says what is cut off). */
  function TrimRight(s: string): (r: string)
    ensures |r| <= |s|
    ensures r == [] || !IsSpace(r[|r| - 1])
    ensures r != [] ==> r[0] == s[0]
  {
    if s != [] && IsSpace(s[|s| - 1]) then TrimRight(s[..|s| - 1]) else s
  }

  /** `TrimLeft` keeps a suffix of `s` and cuts off only white space. */
  lemma {:induction false} TrimLeftCutsSpace(s: string)
    ensures var r := TrimLeft(s); r == s[|s| - |r|..] && AllSpace(s[..|s| - |r|])
  {
    if s != [] && IsSpace(s[0]) {
      TrimLeftCutsSpace(s[1..]);
      var r := TrimLeft(s[1..]);
      assert s[..|s| - |r|] == [s[0]] + s[1..][..|s[1..]| - |r|];
    }
  }

  /** `TrimRight` keeps a prefix of `s` and cuts off only white space. */
  lemma {:induction false} TrimRightCutsSpace(s: string)
    ensures var r := TrimRight(s); r == s[..|r|] && AllSpace(s[|r|..])
  {
    if s != [] && IsSpace(s[|s| - 1]) {
      TrimRightCutsSpace(s[..|s| - 1]);
      var r := TrimRight(s[..|s| - 1]);
      assert s[|r|..] == s[..|s| - 1][|r|..] + [s[|s| - 1]];
    }
  }

  /** `strings.TrimSpace`: `s` without its leading and trailing white space;
      neither end of the result is white space (`TrimSpaceCutsSpace` says
      what is cut off). */
  function TrimSpace(s: string): (r: string)
    ensures |r| <= |s|
    ensures IsTrimmed(r)
  {
    TrimRight(TrimLeft(s))
  }

  /** Trimming keeps the slice of `s` that starts right after its leading
      white space, and what it cuts off both ends is white space. */
  lemma TrimSpaceCutsSpace(s: string)
    ensures var i := |s| - |TrimLeft(s)|; var r := TrimSpace(s);
      i + |r| <= |s| && r == s[i..i + |r|] && AllSpace(s[..i]) && AllSpace(s[i + |r|..])
  {
    var left := TrimLeft(s);
    TrimLeftCutsSpace(s);
    TrimRightCutsSpace(left);
    SliceOfSuffix(s, left, |TrimRight(left)|);
  }

  /** Slices of a suffix of `s` are slices of `s`, shifted by where the
      suffix starts. */
  lemma SliceOfSuffix(s: string, t: string, n: nat)
    requires |t| <= |s| && t == s[|s| - |t|..] && n <= |t|
    ensures var i := |s| - |t|; s[i..i + n] == t[..n] && s[i + n..] == t[n..]
  {
  }

  /** A string with no white space at either end is its own trimming. */
  lemma TrimSpaceOfTrimmed(s: string)
    requires IsTrimmed(s)
    ensures TrimSpace(s) == s
  {
  }

  /** A leading white space character makes no difference to the trimming. */
  lemma TrimSpaceSkipsLeading(c: char, s: string)
    requires IsSpace(c)
    ensures TrimSpace([c] + s) == TrimSpace(s)
  {
    assert ([c] + s)[1..] == s;
  }

  /** A trailing white space character makes no difference to `TrimRight`. */
  lemma TrimRightSkipsTrailing(s: string, c: char)
    requires IsSpace(c)
    ensures TrimRight(s + [c]) == TrimRight(s)
  {
    assert (s + [c])[..|s|] == s;
  }

  lemma {:induction false} TrimLeftAllSpace(s: string)
    requires AllSpace(s)
    ensures TrimLeft(s) == []
  {
    if s != [] {
      TrimLeftAllSpace(s[1..]);
    }
  }

  lemma {:induction false} TrimRightPadded(s: string, post: string)
    requires AllSpace(post)
    requires s == [] || !IsSpace(s[|s| - 1])
    ensures TrimRight(s + post) == s
  {
    if post == [] {
      assert s + post == s;
    } else {
      var last := post[|post| - 1];
      assert s + post == (s + post[..|post| - 1]) + [last];
      TrimRightSkipsTrailing(s + post[..|post| - 1], last);
      TrimRightPadded(s, post[..|post| - 1]);
    }
  }

  /** Leading white space makes no difference to the trimming. */
  lemma {:induction false} TrimSpaceSkipsPrefix(pre: string, t: string)
    requires AllSpace(pre)
    ensures TrimSpace(pre + t) == TrimSpace(t)
  {
    if pre != [] {
      assert pre + t == [pre[0]] + (pre[1..] + t);
      TrimSpaceSkipsLeading(pre[0], pre[1..] + t);
      TrimSpaceSkipsPrefix(pre[1..], t);
    } else {
      assert pre + t == t;
    }
  }

  lemma TrimSpaceSkipsSuffix(s: string, post: string)
    requires AllSpace(post) && IsTrimmed(s)
    ensures TrimSpace(s + post) == s
  {
    if s == [] {
      assert s + post == post;
      TrimLeftAllSpace(post);
    } else {
      assert TrimLeft(s + post) == s + post by { assert (s + post)[0] == s[0]; }
      TrimRightPadded(s, post);
    }
  }

  /** Trimming removes exactly the white space padding around a trimmed
      string. */
  lemma TrimSpacePadded(pre: string, s: string, post: string)
    requires AllSpace(pre) && AllSpace(post) && IsTrimmed(s)
    ensures TrimSpace(pre + s + post) == s
  {
    assert pre + s + post == pre + (s + post);
    TrimSpaceSkipsPrefix(pre, s + post);
    TrimSpaceSkipsSuffix(s, post);
  }

  lemma TrimSpaceIdempotent(s: string)
    ensures TrimSpace(TrimSpace(s)) == TrimSpace(s)
  {
    TrimSpaceOfTrimmed(TrimSpace(s));
  }

  /** `strings.Join`: the elements of `xs` with `sep` between neighbours. */
  function Join(xs: seq<string>, sep: string): (r: string)
    ensures xs == [] ==> r == ""
    ensures |xs| == 1 ==> r == xs[0]
  {
    if xs == [] then ""
    else if |xs| == 1 then xs[0]
    else xs[0] + sep + Join(xs[1..], sep)
  }

  /** Joining one more element adds exactly one separator and that element
      at the end. */
  lemma {:induction false} JoinSnoc(xs: seq<string>, x: string, sep: string)
    requires xs != []
    ensures Join(xs + [x], sep) == Join(xs, sep) + sep + x
  {
    if |xs| == 1 {
      assert xs + [x] == [xs[0], x];
      assert [xs[0], x][1..] == [x];
    } else {
      JoinSnoc(xs[1..], x, sep);
      assert (xs + [x])[1..] == xs[1..] + [x];
    }
  }

  /** The inverse of joining with a one-character separator: the pieces of `s`
      between the occurrences of `sep` (`strings.Split` with a one-character
      separator). There is always at least one piece. */
  function Split(s: string, sep: char): (r: seq<string>)
    ensures |r| >= 1
  {
    if s == [] then [""]
    else if s[0] == sep then [""] + Split(s[1..], sep)
    else var rest := Split(s[1..], sep); [[s[0]] + rest[0]] + rest[1..]
  }

  lemma {:induction false} SplitNoSeparator(s: string, sep: char)
    requires sep !in s
    ensures Split(s, sep) == [s]
  {
    if s != [] {
      SplitNoSeparator(s[1..], sep);
      assert [s[0]] + s[1..] == s;
    }
  }

  lemma {:induction false} SplitAtFirst(a: string, sep: char, b: string)
    requires sep !in a
    ensures Split(a + [sep] + b, sep) == [a] + Split(b, sep)
  {
    if a == [] {
      assert a + [sep] + b == [sep] + b;
      assert ([sep] + b)[1..] == b;
    } else {
      var s := a + [sep] + b;
      assert s[0] == a[0];
      assert s[1..] == a[1..] + [sep] + b;
      SplitAtFirst(a[1..], sep, b);
      assert [a[0]] + a[1..] == a;
    }
  }

  /** Splitting undoes joining, as long as no element holds the separator and
      there is at least one element (`Join([])` and `Join([""])` are both ""). */
  lemma {:induction false} SplitJoin(xs: seq<string>, sep: char)
    requires xs != []
    requires forall i :: 0 <= i < |xs| ==> sep !in xs[i]
    ensures Split(Join(xs, [sep]), sep) == xs
  {
    if |xs| == 1 {
      SplitNoSeparator(xs[0], sep);
    } else {
      SplitJoin(xs[1..], sep);
      SplitAtFirst(xs[0], sep, Join(xs[1..], [sep]));
      assert [xs[0]] + xs[1..] == xs;
    }
  }

  /** The concatenation of `xs`, in order; what a `bytes.Buffer` holds after
      one `WriteString` per element. */
  function Concat(xs: seq<string>): (r: string)
    ensures xs == [] ==> r == ""
  {
    if xs == [] then "" else Concat(xs[..|xs| - 1]) + xs[|xs| - 1]
  }

  /** Writing one more string to the buffer appends it. */
  lemma ConcatSnoc(xs: seq<string>, x: string)
    ensures Concat(xs + [x]) == Concat(xs) + x
  {
    assert (xs + [x])[..|xs|] == xs;
  }

  lemma {:induction false} ConcatAppend(xs: seq<string>, ys: seq<string>)
    ensures Concat(xs + ys) == Concat(xs) + Concat(ys)
  {
    if ys != [] {
      assert (xs + ys)[..|xs + ys| - 1] == xs + ys[..|ys| - 1];
      ConcatAppend(xs, ys[..|ys| - 1]);
    } else {
      assert xs + ys == xs;
    }
  }
}
