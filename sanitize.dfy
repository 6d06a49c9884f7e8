/** `cleanAIMessage`: the commit message made from the streamed text. */
module Sanitize {
  import opened GoStrings

  const Fence: string := "```"

  /** Only when the text starts with a fence is anything but white space
      cut off: first a trailing fence, if there is one, and then a leading
      fence, if one is still there (of "````" the trailing fence takes three
      of the four backquotes, so only "`" is left). The result is then
      trimmed of white space, so it never starts or ends with white space. */
  function CleanAIMessage(msg: string): (r: string)
    ensures IsTrimmed(r)
    ensures !HasPrefix(msg, Fence) ==> r == TrimSpace(msg)
  {
    var unfenced := if HasPrefix(msg, Fence) then TrimPrefix(TrimSuffix(msg, Fence), Fence) else msg;
    TrimSpace(unfenced)
  }

  /** Text wrapped in one fence on each side comes out as the trimmed text
      between them. */
  lemma CleanFenced(s: string)
    ensures CleanAIMessage(Fence + s + Fence) == TrimSpace(s)
  {
    var msg := Fence + s + Fence;
    assert msg[..|Fence|] == Fence;
    assert msg[|msg| - |Fence|..] == Fence;
    var once := TrimSuffix(msg, Fence);
    assert once == Fence + s;
    assert once[..|Fence|] == Fence;
    assert TrimPrefix(once, Fence) == s;
  }

  /** A message that opens with a fence but does not end with one loses
      only the opening fence before trimming. */
  lemma CleanOpeningFenceOnly(s: string)
    requires !HasSuffix(Fence + s, Fence)
    ensures CleanAIMessage(Fence + s) == TrimSpace(s)
  {
    var msg := Fence + s;
    assert msg[..|Fence|] == Fence;
    assert TrimSuffix(msg, Fence) == msg;
    assert TrimPrefix(msg, Fence) == s;
  }

  /** A cleaned message that does not itself start with a fence is left alone
      by a second cleaning. */
  lemma CleanStableWithoutFence(msg: string)
    requires !HasPrefix(CleanAIMessage(msg), Fence)
    ensures CleanAIMessage(CleanAIMessage(msg)) == CleanAIMessage(msg)
  {
    TrimSpaceOfTrimmed(CleanAIMessage(msg));
  }

  /** A leading white space character hides any fence behind it. */
  lemma CleanLeadingSpace(c: char, rest: string)
    requires IsSpace(c)
    ensures CleanAIMessage([c] + rest) == TrimSpace(rest)
  {
    var m := [c] + rest;
    assert !HasPrefix(m, Fence) by { assert m[0] == c; }
    TrimSpaceSkipsLeading(c, rest);
  }

  lemma FencedIsTrimmed(s: string)
    ensures IsTrimmed(Fence + s + Fence)
  {
    var fenced := Fence + s + Fence;
    assert fenced[0] == '`' && fenced[|fenced| - 1] == '`';
  }

  /** Cleaning is not idempotent: one leading white space character hides
      the fence from the first cleaning, which trims it and so uncovers the
      fence for the second (with `c == ' '` and `s == "x"`: " ```x```" cleans
      to "```x```", and that to "x"). */
  lemma CleanNotIdempotent(c: char, s: string)
    requires IsSpace(c)
    ensures var m := [c] + (Fence + s + Fence);
      CleanAIMessage(m) == Fence + s + Fence &&
      CleanAIMessage(CleanAIMessage(m)) == TrimSpace(s) &&
      CleanAIMessage(CleanAIMessage(m)) != CleanAIMessage(m)
  {
    var fenced := Fence + s + Fence;
    CleanLeadingSpace(c, fenced);
    FencedIsTrimmed(s);
    TrimSpaceOfTrimmed(fenced);
    CleanFenced(s);
  }

  /** White space around a message is removed and nothing else changes, as
      long as the text does not start with a backtick. */
  lemma CleanPadded(pre: string, s: string, post: string)
    requires AllSpace(pre) && AllSpace(post) && IsTrimmed(s)
    requires pre != [] || s == [] || s[0] != '`'
    ensures CleanAIMessage(pre + s + post) == s
  {
    var m := pre + s + post;
    assert !HasPrefix(m, Fence) by {
      if pre != [] {
        assert m[0] == pre[0];
      } else if s != [] {
        assert m[0] == s[0];
      } else if m != [] {
        assert m == post;
        assert m[0] == post[0];
      }
    }
    TrimSpacePadded(pre, s, post);
  }
}
