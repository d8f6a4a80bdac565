/**
 * The string operations behind the keyword classification of life events:
 * lower-casing, substring search, and the income test itself.
 */
module Text {
  /** Lower-casing of one character; only the ASCII letters A-Z change. */
  function LowerChar(c: char): char
  {
    if 'A' <= c <= 'Z' then (c as int + 32) as char else c
  }

  function Lower(s: string): (r: string)
    ensures |r| == |s|
    ensures forall i :: 0 <= i < |s| ==> r[i] == LowerChar(s[i])
  {
    if s == [] then [] else [LowerChar(s[0])] + Lower(s[1..])
  }

  /** Lower-casing twice is lower-casing once. */
  lemma LowerIdempotent(s: string)
    ensures Lower(Lower(s)) == Lower(s)
  {
  }

  /** `w` occurs in `s` at index `i`. */
  ghost predicate OccursAt(s: string, w: string, i: int)
  {
    0 <= i && i + |w| <= |s| && s[i..i + |w|] == w
  }

  /** Substring search: try each start position of `s`, left to right. */
  function Includes(s: string, w: string): bool
    decreases |s|
  {
    if |w| > |s| then false
    else if s[..|w|] == w then true
    else Includes(s[1..], w)
  }

  /** The scan finds `w` exactly when `w` occurs somewhere in `s`. */
  lemma {:induction false} IncludesIff(s: string, w: string)
    ensures Includes(s, w) <==> exists i :: OccursAt(s, w, i)
    decreases |s|
  {
    if |w| > |s| {
    } else if s[..|w|] == w {
      assert OccursAt(s, w, 0);
    } else {
      IncludesIff(s[1..], w);
      if Includes(s[1..], w) {
        var j :| OccursAt(s[1..], w, j);
        assert s[1..][j..j + |w|] == s[j + 1..j + 1 + |w|];
        assert OccursAt(s, w, j + 1);
      } else {
        assert !OccursAt(s, w, 0);
        forall i | 1 <= i && i + |w| <= |s|
          ensures !OccursAt(s, w, i)
        {
          assert s[1..][i - 1..i - 1 + |w|] == s[i..i + |w|];
          assert !OccursAt(s[1..], w, i - 1);
        }
      }
    }
  }

  const IncomeWords: seq<string> := ["income", "raise", "bonus", "gift", "refund"]

  /** A life event counts as income when its type names one of the income words. */
  function IsIncomeLifeEvent(kind: string): bool
  {
    var t := Lower(kind);
    exists w :: w in IncomeWords && Includes(t, w)
  }

  /**
   * The income test holds exactly when one of the five income words occurs
   * as a substring of the lower-cased type.
   */
  lemma IsIncomeIff(kind: string)
    ensures IsIncomeLifeEvent(kind) <==>
      exists w, i :: w in IncomeWords && OccursAt(Lower(kind), w, i)
  {
    var t := Lower(kind);
    forall w | w in IncomeWords
      ensures Includes(t, w) <==> exists i :: OccursAt(t, w, i)
    {
      IncludesIff(t, w);
    }
    if IsIncomeLifeEvent(kind) {
      var w :| w in IncomeWords && Includes(t, w);
      var i :| OccursAt(t, w, i);
      assert w in IncomeWords && OccursAt(Lower(kind), w, i);
    } else {
      forall w, i | w in IncomeWords ensures !OccursAt(t, w, i) {
        assert !Includes(t, w);
      }
    }
  }

  /** The test ignores case: lower-casing the type first changes nothing. */
  lemma IsIncomeIgnoresCase(kind: string)
    ensures IsIncomeLifeEvent(Lower(kind)) == IsIncomeLifeEvent(kind)
  {
    LowerIdempotent(kind);
  }

  /** The sign a life event's amount is given: +1 for income, -1 otherwise. */
  function LifeEventSign(kind: string): (r: int)
    ensures r == 1 || r == -1
    ensures r == 1 <==> exists w, i :: w in IncomeWords && OccursAt(Lower(kind), w, i)
  {
    IsIncomeIff(kind);
    if IsIncomeLifeEvent(kind) then 1 else -1
  }
}
