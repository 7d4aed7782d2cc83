/** Python string operations used by the rule runner: substring search
    (`pat in s`) and `str.replace`, which rewrites every non-overlapping
    occurrence of a non-empty pattern, scanning from left to right. */
module Strings {

  /** `pat` occurs in `s` starting at position `i`. */
  predicate OccursAt(s: string, pat: string, i: nat) {
    i + |pat| <= |s| && s[i..i + |pat|] == pat
  }

  /** Concatenation regrouped. */
  lemma AppendAssoc<T>(a: seq<T>, b: seq<T>, c: seq<T>)
    ensures a + b + c == a + (b + c)
  {
  }

  /** Python's `pat in s` for two strings. */
  predicate Occurs(s: string, pat: string) {
    exists i :: 0 <= i <= |s| - |pat| && OccursAt(s, pat, i)
  }

  /** Python's `s.replace(pat, rep)` for a non-empty `pat`. */
  function ReplaceAll(s: string, pat: string, rep: string): string
    requires pat != []
    decreases |s|
  {
    if |s| < |pat| then s
    else if s[..|pat|] == pat then rep + ReplaceAll(s[|pat|..], pat, rep)
    else [s[0]] + ReplaceAll(s[1..], pat, rep)
  }

  /** Python's `s.split(pat)` for a non-empty `pat`: the pieces between the
      occurrences that a left-to-right scan finds. */
  function Split(s: string, pat: string): (parts: seq<string>)
    requires pat != []
    ensures |parts| >= 1
    decreases |s|
  {
    if |s| < |pat| then [s]
    else if s[..|pat|] == pat then [""] + Split(s[|pat|..], pat)
    else
      var rest := Split(s[1..], pat);
      [[s[0]] + rest[0]] + rest[1..]
  }

  /** Python's `sep.join(parts)`. */
  function Join(parts: seq<string>, sep: string): string
    requires |parts| >= 1
  {
    if |parts| == 1 then parts[0] else parts[0] + sep + Join(parts[1..], sep)
  }

  lemma JoinConsChar(c: char, parts: seq<string>, sep: string)
    requires |parts| >= 1
    ensures Join([[c] + parts[0]] + parts[1..], sep) == [c] + Join(parts, sep)
  {
    var ps := [[c] + parts[0]] + parts[1..];
    assert ps[1..] == parts[1..];
  }

  /** Python's documented identity `s.replace(old, new) == new.join(s.split(old))`:
      the replacement puts `rep` between the pieces that separate the
      occurrences of `pat`. */
  lemma {:induction false} ReplaceIsJoinOfSplit(s: string, pat: string, rep: string)
    requires pat != []
    ensures ReplaceAll(s, pat, rep) == Join(Split(s, pat), rep)
    decreases |s|
  {
    if |s| < |pat| {
    } else if s[..|pat|] == pat {
      ReplaceIsJoinOfSplit(s[|pat|..], pat, rep);
      var ps := [""] + Split(s[|pat|..], pat);
      assert ps[1..] == Split(s[|pat|..], pat);
    } else {
      ReplaceIsJoinOfSplit(s[1..], pat, rep);
      JoinConsChar(s[0], Split(s[1..], pat), rep);
    }
  }

  /** Joining the pieces with the pattern itself gives back the string. */
  lemma {:induction false} JoinSplitIsIdentity(s: string, pat: string)
    requires pat != []
    ensures Join(Split(s, pat), pat) == s
    decreases |s|
  {
    if |s| < |pat| {
    } else if s[..|pat|] == pat {
      JoinSplitIsIdentity(s[|pat|..], pat);
      var ps := [""] + Split(s[|pat|..], pat);
      assert ps[1..] == Split(s[|pat|..], pat);
      assert s == s[..|pat|] + s[|pat|..];
    } else {
      JoinSplitIsIdentity(s[1..], pat);
      JoinConsChar(s[0], Split(s[1..], pat), pat);
      assert s == [s[0]] + s[1..];
    }
  }

  /** Replacing a pattern by itself changes nothing. */
  lemma ReplaceBySelfIsIdentity(s: string, pat: string)
    requires pat != []
    ensures ReplaceAll(s, pat, pat) == s
  {
    ReplaceIsJoinOfSplit(s, pat, pat);
    JoinSplitIsIdentity(s, pat);
  }

  lemma {:induction false} SplitHeadIsPrefix(s: string, pat: string)
    requires pat != []
    ensures |Split(s, pat)[0]| <= |s| && Split(s, pat)[0] == s[..|Split(s, pat)[0]|]
    decreases |s|
  {
    if |s| < |pat| {
    } else if s[..|pat|] == pat {
    } else {
      SplitHeadIsPrefix(s[1..], pat);
      var rest := Split(s[1..], pat);
      var head := [s[0]] + rest[0];
      assert Split(s, pat)[0] == head;
      assert head == s[..|head|] by {
        assert rest[0] == s[1..][..|rest[0]|];
        assert s[1..][..|rest[0]|] == s[1..|head|];
        assert s[..|head|] == [s[0]] + s[1..|head|];
      }
    }
  }

  /** A character that does not start the pattern, put before a free
      prefix of the rest of `s`, gives a free prefix of `s`. */
  lemma ConsKeepsFree(s: string, pat: string, tail: string)
    requires |s| >= |pat| && s[..|pat|] != pat
    requires 1 + |tail| <= |s| && tail == s[1..1 + |tail|]
    requires !Occurs(tail, pat)
    ensures !Occurs([s[0]] + tail, pat)
  {
    var head := [s[0]] + tail;
    assert head == s[..|head|];
    forall i | 0 <= i <= |head| - |pat| ensures !OccursAt(head, pat, i) {
      if i == 0 {
        assert head[..|pat|] == s[..|pat|];
      } else {
        assert head[i..i + |pat|] == tail[i - 1..i - 1 + |pat|];
        assert !OccursAt(tail, pat, i - 1);
      }
    }
  }

  /** No piece of the split contains the pattern: every occurrence of `pat`
      in `s` is consumed by the scan, so `ReplaceAll` rewrites all of them. */
  lemma {:induction false} SplitPiecesAreFree(s: string, pat: string)
    requires pat != []
    ensures forall k :: 0 <= k < |Split(s, pat)| ==> !Occurs(Split(s, pat)[k], pat)
    decreases |s|
  {
    if |s| < |pat| {
      assert Split(s, pat) == [s];
      assert !Occurs(s, pat);
    } else if s[..|pat|] == pat {
      SplitPiecesAreFree(s[|pat|..], pat);
      var rest := Split(s[|pat|..], pat);
      assert Split(s, pat) == [""] + rest;
      forall k | 0 <= k < |Split(s, pat)| ensures !Occurs(Split(s, pat)[k], pat) {
        if k > 0 { assert Split(s, pat)[k] == rest[k - 1]; }
      }
    } else {
      SplitPiecesAreFree(s[1..], pat);
      SplitHeadIsPrefix(s[1..], pat);
      var rest := Split(s[1..], pat);
      var head := [s[0]] + rest[0];
      assert Split(s, pat) == [head] + rest[1..];
      ConsKeepsFree(s, pat, rest[0]);
      forall k | 0 <= k < |Split(s, pat)| ensures !Occurs(Split(s, pat)[k], pat) {
        if k > 0 { assert Split(s, pat)[k] == rest[k]; }
      }
    }
  }

  /** A string in which the pattern does not occur is left unchanged. */
  lemma {:induction false} NoOccurrenceUnchanged(s: string, pat: string, rep: string)
    requires pat != []
    requires !Occurs(s, pat)
    ensures ReplaceAll(s, pat, rep) == s
    decreases |s|
  {
    if |s| < |pat| {
    } else if s[..|pat|] == pat {
      assert OccursAt(s, pat, 0);
      assert false;
    } else {
      if Occurs(s[1..], pat) {
        var i :| 0 <= i <= |s[1..]| - |pat| && OccursAt(s[1..], pat, i);
        assert s[i + 1..i + 1 + |pat|] == s[1..][i..i + |pat|];
        assert OccursAt(s, pat, i + 1);
      }
      NoOccurrenceUnchanged(s[1..], pat, rep);
    }
  }

  /** An occurrence at the front is replaced, and the scan goes on after it. */
  lemma ReplaceAtFront(pat: string, t: string, rep: string)
    requires pat != []
    ensures ReplaceAll(pat + t, pat, rep) == rep + ReplaceAll(t, pat, rep)
  {
    assert (pat + t)[..|pat|] == pat && (pat + t)[|pat|..] == t;
  }

  /** A prefix that cannot start an occurrence is copied unchanged. */
  lemma {:induction false} ReplaceAfterFreePrefix(a: string, t: string, pat: string, rep: string)
    requires pat != []
    requires forall i :: 0 <= i < |a| ==> !OccursAt(a + t, pat, i)
    ensures ReplaceAll(a + t, pat, rep) == a + ReplaceAll(t, pat, rep)
    decreases |a|
  {
    if a != [] {
      var s := a + t;
      assert s[1..] == a[1..] + t;
      forall i | 0 <= i < |a[1..]| ensures !OccursAt(a[1..] + t, pat, i) {
        assert !OccursAt(s, pat, i + 1);
        if i + |pat| <= |s[1..]| { assert s[1..][i..i + |pat|] == s[i + 1..i + 1 + |pat|]; }
      }
      ReplaceAfterFreePrefix(a[1..], t, pat, rep);
      if |s| >= |pat| {
        assert !OccursAt(s, pat, 0);
        assert s[..|pat|] != pat;
        calc {
          ReplaceAll(s, pat, rep);
          [s[0]] + ReplaceAll(s[1..], pat, rep);
          [a[0]] + (a[1..] + ReplaceAll(t, pat, rep));
          { assert a == [a[0]] + a[1..]; }
          a + ReplaceAll(t, pat, rep);
        }
      } else {
        assert ReplaceAll(t, pat, rep) == t;
      }
    } else {
      assert a + t == t;
    }
  }

  /** A prefix without the pattern's first character cannot start an occurrence. */
  lemma FreePrefixByFirstChar(a: string, t: string, pat: string)
    requires pat != [] && pat[0] !in a
    ensures forall i :: 0 <= i < |a| ==> !OccursAt(a + t, pat, i)
  {
    forall i | 0 <= i < |a| ensures !OccursAt(a + t, pat, i) {
      assert (a + t)[i] == a[i];
    }
  }
}
