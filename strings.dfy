/**
 * The Python string operations that comp_data.py relies on, over `string` (a `seq<char>`):
 * `str.split`, `str.replace`, `str.join`, the `in` test on strings and an ASCII `str.lower`.
 * Splitting and replacing scan left to right and take non-overlapping occurrences,
 * as CPython does for a non-empty pattern.
 */
module Strings {

  /** `pat` occurs in `s` starting at index `i`. */
  predicate IsAt(s: string, pat: string, i: nat) {
    i + |pat| <= |s| && s[i..i + |pat|] == pat
  }

  /** Python `pat in s`. */
  predicate Contains(s: string, pat: string) {
    exists i: nat | i <= |s| :: IsAt(s, pat, i)
  }

  /** Number of non-overlapping occurrences of `pat` in `s`, scanning left to right (Python `s.count(pat)`). */
  function Occurrences(s: string, pat: string): nat
    requires |pat| > 0
    decreases |s|
  {
    if |s| < |pat| then 0
    else if s[..|pat|] == pat then 1 + Occurrences(s[|pat|..], pat)
    else Occurrences(s[1..], pat)
  }

  /** Python `s.split(sep)` for a non-empty separator: one more token than there are separators. */
  function Split(s: string, sep: string): (r: seq<string>)
    requires |sep| > 0
    ensures |r| == Occurrences(s, sep) + 1
    decreases |s|
  {
    if |s| < |sep| then [s]
    else if s[..|sep|] == sep then [""] + Split(s[|sep|..], sep)
    else
      var rest := Split(s[1..], sep);
      [[s[0]] + rest[0]] + rest[1..]
  }

  /** Python `sep.join(parts)`. */
  function Join(parts: seq<string>, sep: string): string
  {
    if |parts| == 0 then ""
    else if |parts| == 1 then parts[0]
    else parts[0] + sep + Join(parts[1..], sep)
  }

  /** Python `s.replace(pat, rep)` for a non-empty pattern: every non-overlapping occurrence is replaced. */
  function ReplaceAll(s: string, pat: string, rep: string): string
    requires |pat| > 0
    decreases |s|
  {
    if |s| < |pat| then s
    else if s[..|pat|] == pat then rep + ReplaceAll(s[|pat|..], pat, rep)
    else [s[0]] + ReplaceAll(s[1..], pat, rep)
  }

  /**
   * Python `s.replace(pat, '')`: every occurrence of `pat` removed, which is joining the pieces
   * between the occurrences; a string without `pat` is left as it is, and a string that is `pat`
   * followed by a `pat`-free rest becomes that rest.
   */
  function RemoveAll(s: string, pat: string): (r: string)
    requires |pat| > 0
    ensures r == Join(Split(s, pat), "")
    ensures !Contains(s, pat) ==> r == s
    ensures IsAt(s, pat, 0) && !Contains(s[|pat|..], pat) ==> r == s[|pat|..]
  {
    ReplaceIsJoinSplit(s, pat, "");
    if !Contains(s, pat) then
      NoOccurrence(s, pat, "");
      ReplaceAll(s, pat, "")
    else if IsAt(s, pat, 0) && !Contains(s[|pat|..], pat) then
      assert s[..|pat|] == pat;
      NoOccurrence(s[|pat|..], pat, "");
      ReplaceAll(s, pat, "")
    else
      ReplaceAll(s, pat, "")
  }

  /** ASCII lower-casing of one character. */
  function LowerChar(c: char): char {
    if 'A' <= c <= 'Z' then (c as int + 32) as char else c
  }

  /**
   * Python `s.lower()`, restricted to ASCII letters: same length, each capital replaced by its
   * own small letter, and every character that is not a capital kept as it was.
   */
  function Lower(s: string): (r: string)
    ensures |r| == |s|
    ensures forall k :: 0 <= k < |r| ==> !('A' <= r[k] <= 'Z')
    ensures forall k :: 0 <= k < |s| && !('A' <= s[k] <= 'Z') ==> r[k] == s[k]
    ensures forall k :: 0 <= k < |s| && 'A' <= s[k] <= 'Z' ==>
      'a' <= r[k] <= 'z' && r[k] as int - 'a' as int == s[k] as int - 'A' as int
  {
    seq(|s|, k requires 0 <= k < |s| => LowerChar(s[k]))
  }

  /** Lower-casing twice is lower-casing once. */
  lemma LowerIdempotent(s: string)
    ensures Lower(Lower(s)) == Lower(s)
  {
  }

  /** Re-inserting the separator between the tokens gives back the split string. */
  lemma {:induction false} JoinSplit(s: string, sep: string)
    requires |sep| > 0
    ensures Join(Split(s, sep), sep) == s
    decreases |s|
  {
    if |s| < |sep| {
    } else if s[..|sep|] == sep {
      JoinSplit(s[|sep|..], sep);
      var rest := Split(s[|sep|..], sep);
      assert ([""] + rest)[1..] == rest;
      assert s == sep + s[|sep|..];
    } else {
      JoinSplit(s[1..], sep);
      JoinConsHead([s[0]], Split(s[1..], sep), sep);
      assert s == [s[0]] + s[1..];
    }
  }

  /** Prepending to the first part prepends to the joined string. */
  lemma JoinConsHead(c: string, parts: seq<string>, sep: string)
    requires |parts| >= 1
    ensures Join([c + parts[0]] + parts[1..], sep) == c + Join(parts, sep)
  {
    var q := [c + parts[0]] + parts[1..];
    assert q[1..] == parts[1..];
  }

  /** Each replaced occurrence changes the length by `|rep| - |pat|`, and nothing else does. */
  lemma {:induction false} ReplaceLength(s: string, pat: string, rep: string)
    requires |pat| > 0
    ensures |ReplaceAll(s, pat, rep)| == |s| + Occurrences(s, pat) * (|rep| - |pat|)
    decreases |s|
  {
    var d := |rep| - |pat|;
    if |s| < |pat| {
    } else if s[..|pat|] == pat {
      var rest, n := s[|pat|..], Occurrences(s[|pat|..], pat);
      ReplaceLength(rest, pat, rep);
      assert |ReplaceAll(s, pat, rep)| == |rep| + |ReplaceAll(rest, pat, rep)|;
      assert Occurrences(s, pat) == 1 + n;
      MulSucc(n, d);
    } else {
      var rest := s[1..];
      ReplaceLength(rest, pat, rep);
      assert |ReplaceAll(s, pat, rep)| == 1 + |ReplaceAll(rest, pat, rep)|;
      assert Occurrences(s, pat) == Occurrences(rest, pat);
    }
  }

  lemma MulSucc(n: int, d: int)
    ensures (1 + n) * d == d + n * d
  {
  }

  /** Python's identity `s.replace(pat, rep) == rep.join(s.split(pat))`. */
  lemma {:induction false} ReplaceIsJoinSplit(s: string, pat: string, rep: string)
    requires |pat| > 0
    ensures ReplaceAll(s, pat, rep) == Join(Split(s, pat), rep)
    decreases |s|
  {
    if |s| < |pat| {
    } else if s[..|pat|] == pat {
      ReplaceIsJoinSplit(s[|pat|..], pat, rep);
      var rest := Split(s[|pat|..], pat);
      assert ([""] + rest)[1..] == rest;
    } else {
      ReplaceIsJoinSplit(s[1..], pat, rep);
      JoinConsHead([s[0]], Split(s[1..], pat), rep);
    }
  }

  /** A string without `pat` splits into itself alone and is unchanged by replacing `pat`. */
  lemma {:induction false} NoOccurrence(s: string, pat: string, rep: string)
    requires |pat| > 0
    requires !Contains(s, pat)
    ensures Split(s, pat) == [s]
    ensures Occurrences(s, pat) == 0
    ensures ReplaceAll(s, pat, rep) == s
    decreases |s|
  {
    if |s| >= |pat| {
      assert !IsAt(s, pat, 0);
      assert !Contains(s[1..], pat) by {
        forall i: nat | IsAt(s[1..], pat, i) ensures IsAt(s, pat, i + 1) {
          assert s[i + 1..i + 1 + |pat|] == s[1..][i..i + |pat|];
        }
      }
      NoOccurrence(s[1..], pat, rep);
      assert s == [s[0]] + s[1..];
    }
  }

  /** No token of a split holds the separator. */
  lemma {:induction false} SplitTokensFree(s: string, sep: string)
    requires |sep| > 0
    ensures forall k :: 0 <= k < |Split(s, sep)| ==> !Contains(Split(s, sep)[k], sep)
    decreases |s|
  {
    var r := Split(s, sep);
    if |s| < |sep| {
      assert r == [s];
      forall i: nat ensures !IsAt(s, sep, i) { }
    } else if s[..|sep|] == sep {
      SplitTokensFree(s[|sep|..], sep);
      var rest := Split(s[|sep|..], sep);
      assert r == [""] + rest;
      forall k | 0 <= k < |r| ensures !Contains(r[k], sep) {
        if k == 0 {
          forall i: nat ensures !IsAt(r[0], sep, i) { }
        } else {
          assert r[k] == rest[k - 1];
        }
      }
    } else {
      SplitTokensFree(s[1..], sep);
      var rest := Split(s[1..], sep);
      var head := [s[0]] + rest[0];
      assert r == [head] + rest[1..];
      assert head <= s by {
        JoinSplit(s[1..], sep);
        JoinHeadPrefix(rest, sep);
        assert s == [s[0]] + s[1..];
      }
      assert !Contains(head, sep) by {
        forall i: nat | IsAt(head, sep, i) ensures false {
          if i > 0 {
            assert head[i..i + |sep|] == rest[0][i - 1..i - 1 + |sep|];
            assert IsAt(rest[0], sep, i - 1);
          }
        }
      }
      forall k | 0 <= k < |r| ensures !Contains(r[k], sep) {
        if k > 0 {
          assert r[k] == rest[k];
        }
      }
    }
  }

  /** A string in which the first character of `pat` never appears does not contain `pat`. */
  lemma FirstCharAbsent(s: string, pat: string)
    requires |pat| > 0
    requires forall i :: 0 <= i < |s| ==> s[i] != pat[0]
    ensures !Contains(s, pat)
  {
    forall i: nat | i <= |s| ensures !IsAt(s, pat, i) {
      if i + |pat| <= |s| {
        assert s[i..i + |pat|][0] == s[i];
      }
    }
  }

  /** When no character of `a` starts the separator, the first token of `a + sep + b` is `a`. */
  lemma {:induction false} SplitFirstToken(a: string, sep: string, b: string)
    requires |sep| > 0
    requires forall i :: 0 <= i < |a| ==> a[i] != sep[0]
    ensures Split(a + sep + b, sep) == [a] + Split(b, sep)
    decreases |a|
  {
    var s := a + sep + b;
    if |a| == 0 {
      assert s == sep + b;
      assert s[..|sep|] == sep && s[|sep|..] == b;
    } else {
      assert s[..|sep|][0] == a[0];
      assert s[1..] == a[1..] + sep + b;
      SplitFirstToken(a[1..], sep, b);
      assert [s[0]] + a[1..] == a;
    }
  }

  /** The first part is a prefix of the joined string. */
  lemma JoinHeadPrefix(parts: seq<string>, sep: string)
    requires |parts| >= 1
    ensures parts[0] <= Join(parts, sep)
  {
  }

  /** Replacing one character by another acts character by character and keeps the length. */
  lemma {:induction false} ReplaceCharPointwise(s: string, a: char, b: char)
    ensures |ReplaceAll(s, [a], [b])| == |s|
    ensures forall k :: 0 <= k < |s| ==> ReplaceAll(s, [a], [b])[k] == if s[k] == a then b else s[k]
    decreases |s|
  {
    if |s| >= 1 {
      ReplaceCharPointwise(s[1..], a, b);
      assert s[..1] == [a] <==> s[0] == a;
      var r := ReplaceAll(s, [a], [b]);
      var tail := ReplaceAll(s[1..], [a], [b]);
      assert r == [if s[0] == a then b else s[0]] + tail;
      forall k | 0 <= k < |s| ensures r[k] == if s[k] == a then b else s[k] {
        if k > 0 {
          assert r[k] == tail[k - 1];
          assert s[k] == s[1..][k - 1];
        }
      }
    }
  }
}
