/** JavaScript's `String.prototype.includes`, used by the error mapping of the
    image-edit call, with its characterisation as "occurs at some position". */
module Strings {

  /** `s.includes(sub)`: `sub` occurs somewhere in `s` (the empty string occurs everywhere). */
  predicate Includes(s: string, sub: string)
    decreases |s|
  {
    sub <= s || (|s| > 0 && Includes(s[1..], sub))
  }

  /** `sub` occurs in `s` starting at position `k`. */
  predicate OccursAt(s: string, sub: string, k: nat)
  {
    k + |sub| <= |s| && s[k..k + |sub|] == sub
  }

  /** `Includes` agrees with the positional definition, in both directions. */
  lemma {:induction false} IncludesIffOccurs(s: string, sub: string)
    ensures Includes(s, sub) <==> exists k: nat :: OccursAt(s, sub, k)
    decreases |s|
  {
    if sub <= s {
      assert OccursAt(s, sub, 0);
    } else if |s| > 0 {
      IncludesIffOccurs(s[1..], sub);
      if Includes(s[1..], sub) {
        var k: nat :| OccursAt(s[1..], sub, k);
        ShiftedOccurrence(s, sub, k + 1);
        assert OccursAt(s, sub, k + 1);
      } else {
        forall k: nat ensures !OccursAt(s, sub, k) {
          if k == 0 {
            assert OccursAt(s, sub, 0) ==> sub <= s;
          } else {
            ShiftedOccurrence(s, sub, k);
            assert !OccursAt(s[1..], sub, k - 1);
          }
        }
      }
    } else {
      forall k: nat ensures !OccursAt(s, sub, k) {
        assert OccursAt(s, sub, k) ==> sub <= s;
      }
    }
  }

  /** Dropping the first character shifts every occurrence one position left. */
  lemma ShiftedOccurrence(s: string, sub: string, k: nat)
    requires 0 < k
    ensures OccursAt(s, sub, k) <==> |s| > 0 && OccursAt(s[1..], sub, k - 1)
  {
    if k + |sub| <= |s| {
      assert s[1..][k - 1..k - 1 + |sub|] == s[k..k + |sub|];
    }
  }

  /** A value interpolated between two fixed fragments can be found again in the result. */
  lemma {:induction false} IncludesInfix(pre: string, sub: string, post: string)
    ensures Includes(pre + sub + post, sub)
    decreases |pre|
  {
    if pre == [] {
      assert pre + sub + post == sub + post;
    } else {
      assert (pre + sub + post)[1..] == pre[1..] + sub + post;
      IncludesInfix(pre[1..], sub, post);
    }
  }

  /** Putting text in front of a string keeps every occurrence in it. */
  lemma {:induction false} IncludesSuffix(pre: string, s: string, sub: string)
    requires Includes(s, sub)
    ensures Includes(pre + s, sub)
    decreases |pre|
  {
    if pre != [] {
      assert (pre + s)[1..] == pre[1..] + s;
      IncludesSuffix(pre[1..], s, sub);
    } else {
      assert pre + s == s;
    }
  }

  /** A string without the first character of `sub` does not include `sub`. */
  lemma {:induction false} MissingFirstCharExcludes(s: string, sub: string)
    requires |sub| > 0 && sub[0] !in s
    ensures !Includes(s, sub)
    decreases |s|
  {
    if |s| > 0 {
      assert s[0] in s;
      assert forall c :: c in s[1..] ==> c in s;
      MissingFirstCharExcludes(s[1..], sub);
    }
  }
}
