/** Searching and comparing strings as `std::string` does. */
module Strings {

  /** The first `c` at or after `i`, or the length. */
  function FindFrom(s: string, c: char, i: nat): (n: nat)
    requires i <= |s|
    ensures i <= n <= |s| && (n < |s| ==> s[n] == c) && forall j | i <= j < n :: s[j] != c
    decreases |s| - i
  {
    if i == |s| || s[i] == c then i else FindFrom(s, c, i + 1)
  }

  /** `s` comes before `t`, comparing from position `i` on. */
  predicate Before(s: string, t: string, i: nat)
    requires i <= |s| && i <= |t|
    decreases |s| - i
  {
    i < |t| && (i == |s| || s[i] < t[i] || (s[i] == t[i] && Before(s, t, i + 1)))
  }

  lemma {:induction false} Trichotomy(s: string, t: string, i: nat)
    requires i <= |s| && i <= |t| && s[..i] == t[..i]
    ensures s == t ==> !Before(s, t, i)
    ensures s != t ==> (Before(s, t, i) <==> !Before(t, s, i))
    decreases |s| - i
  {
    if i < |s| && i < |t| && s[i] == t[i] {
      assert s[..i + 1] == s[..i] + [s[i]] && t[..i + 1] == t[..i] + [t[i]];
      Trichotomy(s, t, i + 1);
    } else if i == |s| && i == |t| {
      assert s == s[..i] && t == t[..i];
    }
  }

  lemma {:induction false} Transitive(s: string, t: string, u: string, i: nat)
    requires i <= |s| && i <= |t| && i <= |u| && Before(s, t, i) && Before(t, u, i)
    ensures Before(s, u, i)
    decreases |s| - i
  {
    if i < |s| && s[i] == t[i] == u[i] {
      Transitive(s, t, u, i + 1);
    }
  }
}
