/**
 * `String.prototype.replace` with a string pattern, as `handleMint` uses it on the contract
 * address (frontend/src/app/home/page.tsx, line 197), and the occurrence facts behind it.
 */
module Strings {
  /** `s.replace(p, "")` with a string pattern: the first occurrence of `p`, if any, is removed. */
  function RemoveFirst(s: string, p: string): (r: string)
    ensures Contains(s, p) ==> |r| == |s| - |p|
    ensures !Contains(s, p) ==> r == s
    ensures |p| <= |s| && s[..|p|] == p ==> r == s[|p|..]
    decreases |s|
  {
    if |p| <= |s| && s[..|p|] == p then s[|p|..]
    else if s == [] then s
    else [s[0]] + RemoveFirst(s[1..], p)
  }

  /** `p` occurs somewhere in `s`. */
  predicate Contains(s: string, p: string)
    decreases |s|
  {
    (|p| <= |s| && s[..|p|] == p) || (s != [] && Contains(s[1..], p))
  }

  /** `p` occurs in `s` starting at index `i`. */
  predicate OccursAt(s: string, p: string, i: int) {
    0 <= i && i + |p| <= |s| && s[i..i + |p|] == p
  }

  /** An occurrence after the first character is an occurrence in the rest of the string. */
  lemma OccursShift(s: string, p: string, i: int)
    requires s != [] && 0 <= i
    ensures OccursAt(s, p, i + 1) <==> OccursAt(s[1..], p, i)
  {
    if i + 1 + |p| <= |s| {
      assert s[i + 1..i + 1 + |p|] == s[1..][i..i + |p|];
    }
  }

  /** `Contains` is "occurs at some index". */
  lemma {:induction false} ContainsOccurs(s: string, p: string)
    ensures Contains(s, p) <==> exists i :: OccursAt(s, p, i)
    decreases |s|
  {
    if |p| <= |s| && s[..|p|] == p {
      assert OccursAt(s, p, 0);
    } else if s == [] {
      assert forall i :: !OccursAt(s, p, i);
    } else {
      ContainsOccurs(s[1..], p);
      if Contains(s[1..], p) {
        var i :| OccursAt(s[1..], p, i);
        OccursShift(s, p, i);
      }
      if i :| OccursAt(s, p, i) {
        assert i != 0;
        OccursShift(s, p, i - 1);
      }
    }
  }

  /** `i` is the first index where `p` occurs in `s`. */
  predicate FirstOccurrence(s: string, p: string, i: int) {
    OccursAt(s, p, i) && forall j :: 0 <= j < i ==> !OccursAt(s, p, j)
  }

  /** A first occurrence after a non-matching first character is one index further into the rest. */
  lemma FirstOccurrenceShift(s: string, p: string, i: int)
    requires s != [] && !OccursAt(s, p, 0) && FirstOccurrence(s[1..], p, i)
    ensures FirstOccurrence(s, p, i + 1)
  {
    OccursShift(s, p, i);
    forall j | 0 < j < i + 1
      ensures !OccursAt(s, p, j)
    {
      OccursShift(s, p, j - 1);
    }
  }

  /** `replace` removes the first occurrence of `p` and keeps everything around it. */
  lemma RemoveFirstOccurrence(s: string, p: string)
    requires Contains(s, p)
    ensures exists i :: FirstOccurrence(s, p, i) && RemoveFirst(s, p) == s[..i] + s[i + |p|..]
  {
    var i := FirstOccurrenceRemoved(s, p);
  }

  /** The index of the first occurrence, found by walking the string as `RemoveFirst` does. */
  lemma {:induction false} FirstOccurrenceRemoved(s: string, p: string) returns (i: int)
    requires Contains(s, p)
    ensures FirstOccurrence(s, p, i) && RemoveFirst(s, p) == s[..i] + s[i + |p|..]
    decreases |s|
  {
    if |p| <= |s| && s[..|p|] == p {
      i := 0;
      assert s[..0] + s[|p|..] == s[|p|..];
    } else {
      var j := FirstOccurrenceRemoved(s[1..], p);
      FirstOccurrenceShift(s, p, j);
      RemoveFirstUnfold(s, p);
      SpliceShift(s, |p|, j);
      i := j + 1;
    }
  }

  /** Without a match at the front, `replace` keeps the first character and works on the rest. */
  lemma RemoveFirstUnfold(s: string, p: string)
    requires s != [] && !(|p| <= |s| && s[..|p|] == p)
    ensures RemoveFirst(s, p) == [s[0]] + RemoveFirst(s[1..], p)
  {
  }

  /** Cutting `n` characters at `i` out of the rest, then putting the first character back. */
  lemma SpliceShift(s: string, n: nat, i: int)
    requires s != [] && 0 <= i && i + 1 + n <= |s|
    ensures [s[0]] + (s[1..][..i] + s[1..][i + n..]) == s[..i + 1] + s[i + 1 + n..]
  {
    assert s[1..][..i] == s[1..i + 1] && s[1..][i + n..] == s[i + 1 + n..];
    assert [s[0]] + s[1..i + 1] == s[..i + 1];
  }
}
