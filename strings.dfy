/** Substring search, as JavaScript's `String.prototype.includes` performs it.
    The storage layer uses it twice: a token is a placeholder when it includes
    `YOUR_`, and a read error means "absent" when its message includes
    `not found`. */
module Strings {

  /** `s.includes(t)`: some suffix of `s` starts with `t`. */
  predicate Contains(s: string, t: string)
    ensures Contains(s, t) ==> |t| <= |s|
    ensures t == [] ==> Contains(s, t)
    decreases |s|
  {
    (|t| <= |s| && s[..|t|] == t) || (|s| > 0 && Contains(s[1..], t))
  }

  /** Whatever stands before and after it, `t` is found. */
  lemma {:induction false} ContainsInside(pre: string, t: string, post: string)
    ensures Contains(pre + t + post, t)
  {
    var s := pre + t + post;
    if pre == [] {
      assert s[..|t|] == t;
    } else {
      ContainsInside(pre[1..], t, post);
      assert s[1..] == pre[1..] + t + post;
    }
  }

  /** A text holding `t` at position `i` contains `t`. */
  lemma {:induction false} ContainsAt(s: string, t: string, i: nat)
    requires i + |t| <= |s| && s[i..i + |t|] == t
    ensures Contains(s, t)
    decreases i
  {
    if i > 0 {
      assert s[1..][i - 1..i - 1 + |t|] == s[i..i + |t|];
      ContainsAt(s[1..], t, i - 1);
    } else {
      assert s[..|t|] == s[i..i + |t|];
    }
  }

  /** A text that never holds `t[0]` at a place where `t` would fit does not contain `t`. */
  lemma {:induction false} NotContainsWithoutFirst(s: string, t: string)
    requires |t| > 0
    requires forall i :: 0 <= i && i + |t| <= |s| ==> s[i] != t[0]
    ensures !Contains(s, t)
  {
    if |s| > 0 {
      NotContainsWithoutFirst(s[1..], t);
      if |t| <= |s| {
        assert s[0] != t[0];
      }
    }
  }
}
