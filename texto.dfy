/** Substring membership on strings, as Python's `sub in s` operator. */
module Texto {

  /** `sub` occurs in `s` starting at position `i`. */
  predicate OcorreEm(s: string, sub: string, i: nat)
  {
    i + |sub| <= |s| && s[i..i + |sub|] == sub
  }

  /** Python's `sub in s`: true iff `sub` is a contiguous piece of `s`
      (so the empty string is in every string). */
  function Contem(s: string, sub: string): (r: bool)
    ensures |sub| > |s| ==> !r
    ensures sub == [] ==> r
    decreases |s|
  {
    if |sub| > |s| then false
    else s[..|sub|] == sub || Contem(s[1..], sub)
  }

  /** The recursive scan agrees with the positional definition in both directions. */
  lemma {:induction false} ContemSeOcorre(s: string, sub: string)
    ensures Contem(s, sub) <==> exists i: nat :: OcorreEm(s, sub, i)
    decreases |s|
  {
    if |sub| > |s| {
    } else if s[..|sub|] == sub {
      assert OcorreEm(s, sub, 0);
    } else {
      ContemSeOcorre(s[1..], sub);
      if Contem(s[1..], sub) {
        var i: nat :| OcorreEm(s[1..], sub, i);
        assert s[1..][i..i + |sub|] == s[i + 1..i + 1 + |sub|];
        assert OcorreEm(s, sub, i + 1);
      }
      if exists i: nat :: OcorreEm(s, sub, i) {
        var i: nat :| OcorreEm(s, sub, i);
        assert i != 0;
        assert s[1..][i - 1..i - 1 + |sub|] == s[i..i + |sub|];
        assert OcorreEm(s[1..], sub, i - 1);
      }
    }
  }

  /** Anything that begins with `sub` contains it, whatever follows. */
  lemma ContemPrefixo(sub: string, resto: string)
    ensures Contem(sub + resto, sub)
  {
    assert (sub + resto)[..|sub|] == sub;
  }

  /** A non-empty `sub` is not in `s` when its first character appears at
      no position of `s` where a match could start. */
  lemma {:induction false} NaoContemSemInicio(s: string, sub: string)
    requires sub != []
    requires forall i :: 0 <= i <= |s| - |sub| ==> s[i] != sub[0]
    ensures !Contem(s, sub)
    decreases |s|
  {
    if |sub| <= |s| {
      assert s[..|sub|][0] == s[0];
      assert forall i :: 0 <= i <= |s[1..]| - |sub| ==> s[1..][i] == s[i + 1];
      NaoContemSemInicio(s[1..], sub);
    }
  }
}
