/** The few `String` operations of Foundation that the application relies on. */
module Strings {

  predicate StartsWith(s: string, prefix: string) {
    |prefix| <= |s| && s[..|prefix|] == prefix
  }

  /** `s.contains(p)`: `p` occurs in `s` as a contiguous substring. */
  predicate Contains(s: string, p: string)
    decreases |s|
  {
    StartsWith(s, p) || (|s| > 0 && Contains(s[1..], p))
  }

  /** Lower-casing of one character; only the ASCII letters are folded. */
  function LowerChar(c: char): char {
    if 'A' <= c <= 'Z' then (c as int - 'A' as int + 'a' as int) as char else c
  }

  /** `s.lowercased()`, restricted to ASCII case folding. */
  function Lowercased(s: string): (r: string)
    ensures |r| == |s|
    ensures forall i :: 0 <= i < |s| ==> r[i] == LowerChar(s[i])
  {
    seq(|s|, i requires 0 <= i < |s| => LowerChar(s[i]))
  }

  /**
   * `s.replacingOccurrences(of: p, with: "")`: scanning from the left, every
   * occurrence of `p` is cut out; the scan resumes after the removed text.
   */
  function RemovingOccurrences(s: string, p: string): (r: string)
    requires |p| > 0
    ensures |r| <= |s|
    decreases |s|
  {
    if |s| == 0 then ""
    else if StartsWith(s, p) then RemovingOccurrences(s[|p|..], p)
    else [s[0]] + RemovingOccurrences(s[1..], p)
  }

  /** A string in which `p` does not occur is left as it is. */
  lemma {:induction false} RemovingAbsentIsIdentity(s: string, p: string)
    requires |p| > 0 && !Contains(s, p)
    ensures RemovingOccurrences(s, p) == s
    decreases |s|
  {
    if |s| > 0 {
      assert !StartsWith(s, p);
      RemovingAbsentIsIdentity(s[1..], p);
      assert s == [s[0]] + s[1..];
    }
  }

  /**
   * Appending ".dae" to any string and removing every ".dae" gives the same as
   * removing from the string alone: ".dae" cannot overlap itself, so no
   * occurrence straddles the junction.
   */
  lemma {:induction false} RemovingTrailingDae(s: string)
    ensures RemovingOccurrences(s + ".dae", ".dae") == RemovingOccurrences(s, ".dae")
    decreases |s|
  {
    var t := s + ".dae";
    if |s| == 0 {
      assert t == ".dae";
      assert StartsWith(t, ".dae");
      assert t[4..] == "";
    } else if StartsWith(s, ".dae") {
      assert StartsWith(t, ".dae");
      assert t[4..] == s[4..] + ".dae";
      RemovingTrailingDae(s[4..]);
    } else {
      assert !StartsWith(t, ".dae") by {
        if |s| >= 4 {
          assert t[..4] == s[..4];
        } else if |s| == 1 {
          assert t[1] == '.';
        } else if |s| == 2 {
          assert t[2] == '.' && t[3] == 'd';
        } else {
          assert t[3] == '.';
        }
      }
      assert t[1..] == s[1..] + ".dae";
      RemovingTrailingDae(s[1..]);
    }
  }
}
