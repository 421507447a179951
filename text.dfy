/** The two string operations the voice dispatcher relies on:
    JavaScript's `String.prototype.includes` and `toLowerCase`. */
module Text {

  /** `needle` occurs in `s` starting at index `i`. */
  ghost predicate OccursAt(s: string, needle: string, i: nat)
  {
    i + |needle| <= |s| && s[i..i + |needle|] == needle
  }

  /** Declarative substring relation: `needle` occurs somewhere in `s`. */
  ghost predicate Occurs(s: string, needle: string)
  {
    exists i: nat :: OccursAt(s, needle, i)
  }

  /** An occurrence in the tail of `s` is an occurrence in `s`, one index later. */
  lemma {:induction false} OccursAtShift(s: string, needle: string, i: nat)
    requires s != []
    ensures OccursAt(s[1..], needle, i) <==> OccursAt(s, needle, i + 1)
  {
    if i + |needle| <= |s[1..]| {
      assert s[1..][i..i + |needle|] == s[i + 1..i + 1 + |needle|];
    }
  }

  /** `s.includes(needle)`: scans `s` from the left for a position where
      `needle` starts; the empty needle is found at once. */
  function Includes(s: string, needle: string): (r: bool)
    ensures r <==> Occurs(s, needle)
    decreases |s|
  {
    if needle <= s then
      assert OccursAt(s, needle, 0);
      true
    else if s == [] then
      assert forall i: nat :: !OccursAt(s, needle, i);
      false
    else
      var r := Includes(s[1..], needle);
      assert r ==> Occurs(s, needle) by {
        if r {
          var i: nat :| OccursAt(s[1..], needle, i);
          OccursAtShift(s, needle, i);
        }
      }
      assert Occurs(s, needle) ==> r by {
        if Occurs(s, needle) {
          var i: nat :| OccursAt(s, needle, i);
          assert |needle| > |s| || s[0..|needle|] != needle;
          OccursAtShift(s, needle, i - 1);
        }
      }
      r
  }

  /** `toLowerCase` on one character: A-Z map to a-z, every other
      character is left as it is. */
  function LowerChar(c: char): (d: char)
    ensures 'A' <= c <= 'Z' ==> 'a' <= d <= 'z' && d as int - c as int == 32
    ensures !('A' <= c <= 'Z') ==> d == c
  {
    if 'A' <= c <= 'Z' then (c as int + 32) as char else c
  }

  /** `toLowerCase` on a string, one character at a time. */
  function Lower(s: string): (r: string)
    ensures |r| == |s|
    ensures forall i :: 0 <= i < |s| ==> r[i] == LowerChar(s[i])
  {
    if s == [] then [] else [LowerChar(s[0])] + Lower(s[1..])
  }

  /** A string without upper-case ASCII letters is its own lower case. */
  lemma LowerOfLowerCase(s: string)
    requires forall i :: 0 <= i < |s| ==> !('A' <= s[i] <= 'Z')
    ensures Lower(s) == s
  {
  }

  /** A string in which some character of `needle` never appears does not
      contain `needle`. */
  lemma NotOccursWithout(s: string, needle: string, k: nat)
    requires k < |needle|
    requires forall i :: 0 <= i < |s| ==> s[i] != needle[k]
    ensures !Occurs(s, needle)
  {
    forall i: nat | i + |needle| <= |s|
      ensures !OccursAt(s, needle, i)
    {
      assert s[i..i + |needle|][k] == s[i + k];
    }
  }

  /** Lowering commutes with taking a slice. */
  lemma LowerSlice(s: string, i: nat, j: nat)
    requires i <= j <= |s|
    ensures Lower(s)[i..j] == Lower(s[i..j])
  {
    assert forall k :: 0 <= k < j - i ==> Lower(s)[i..j][k] == Lower(s[i..j])[k];
  }

  /** Lowering a string twice is the same as lowering it once. */
  lemma {:induction false} LowerIdempotent(s: string)
    ensures Lower(Lower(s)) == Lower(s)
  {
    if s != [] {
      LowerIdempotent(s[1..]);
      assert Lower(s)[1..] == Lower(s[1..]);
    }
  }

  /** The slice of `s` starting at `i` reads `needle` once lower-cased. */
  ghost predicate OccursAtIgnoringCase(s: string, needle: string, i: nat)
  {
    i + |needle| <= |s| && Lower(s[i..i + |needle|]) == needle
  }

  /** Some slice of `s` reads `needle` once lower-cased ("Add Batch",
      "ADD BATCH" and "add batch" all read "add batch"). */
  ghost predicate OccursIgnoringCase(s: string, needle: string)
  {
    exists i: nat :: OccursAtIgnoringCase(s, needle, i)
  }

  /** After lowering, `needle` occurs in `s` exactly when some slice of the
      original `s` lowers to `needle`: matching the lowered text is
      case-insensitive matching on the original text. */
  lemma LowerOccurs(s: string, needle: string)
    ensures Occurs(Lower(s), needle) <==> OccursIgnoringCase(s, needle)
  {
    if Occurs(Lower(s), needle) {
      var i: nat :| OccursAt(Lower(s), needle, i);
      LowerSlice(s, i, i + |needle|);
      assert OccursAtIgnoringCase(s, needle, i);
    }
    if OccursIgnoringCase(s, needle) {
      var i: nat :| OccursAtIgnoringCase(s, needle, i);
      LowerSlice(s, i, i + |needle|);
      assert OccursAt(Lower(s), needle, i);
    }
  }
}
