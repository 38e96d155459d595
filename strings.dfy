/**
 * Strings as sequences of characters, JavaScript truthiness of optional
 * strings, and the substring facts the template proofs rest on.
 */
module Strings {
  import opened Wrappers

  /** JavaScript truthiness of an optional string: `undefined` and `""` are falsy. */
  predicate Truthy(v: Option<string>) {
    v.Some? && v.value != ""
  }

  /**
   * The value a template or a condition actually sees: a falsy value
   * behaves exactly like an absent one.
   */
  function Shown(v: Option<string>): (r: Option<string>)
    ensures r.Some? <==> Truthy(v)
    ensures r.Some? ==> r == v
  {
    if Truthy(v) then v else None
  }

  /** `t` occurs in `s` starting at index `i`. */
  predicate OccursAt(s: string, t: string, i: int) {
    0 <= i && i + |t| <= |s| && s[i..i + |t|] == t
  }

  /** `s.includes(t)`: `t` occurs in `s` at some position. */
  predicate Contains(s: string, t: string) {
    exists i | 0 <= i <= |s| :: OccursAt(s, t, i)
  }

  /** `s.endsWith(t)`. */
  predicate EndsWith(s: string, t: string) {
    |t| <= |s| && s[|s| - |t|..] == t
  }

  lemma ContainsSelf(t: string)
    ensures Contains(t, t)
  {
    assert t[0..|t|] == t;
    assert OccursAt(t, t, 0);
  }

  lemma ContainsLeft(p: string, s: string, t: string)
    requires Contains(s, t)
    ensures Contains(p + s, t)
  {
    var i :| 0 <= i <= |s| && OccursAt(s, t, i);
    var w := p + s;
    assert w[|p| + i..|p| + i + |t|] == s[i..i + |t|];
    assert OccursAt(w, t, |p| + i);
  }

  lemma ContainsRight(s: string, q: string, t: string)
    requires Contains(s, t)
    ensures Contains(s + q, t)
  {
    var i :| 0 <= i <= |s| && OccursAt(s, t, i);
    var w := s + q;
    assert w[i..i + |t|] == s[i..i + |t|];
    assert OccursAt(w, t, i);
  }

  /** A string between a fixed prefix and a fixed suffix is determined by the whole. */
  lemma ConcatInjective(pre: string, x: string, y: string, post: string)
    ensures pre + x + post == pre + y + post <==> x == y
  {
    if pre + x + post == pre + y + post {
      assert |x| == |y|;
      assert x == (pre + x + post)[|pre|..|pre| + |x|];
      assert y == (pre + y + post)[|pre|..|pre| + |y|];
    }
  }

  /** The same, for the second of five concatenated parts. */
  lemma SecondOfFiveInjective(a: string, x: string, y: string, b: string, c: string, d: string)
    ensures a + x + b + c + d == a + y + b + c + d <==> x == y
  {
    if a + x + b + c + d == a + y + b + c + d {
      assert |x| == |y|;
      assert x == (a + x + b + c + d)[|a|..|a| + |x|];
      assert y == (a + y + b + c + d)[|a|..|a| + |y|];
    }
  }
}
