/**
  String operations the scraper and the dashboard rely on, with Python's
  semantics: `str.startswith`, the `in` substring test, `str.find`,
  `str.lower` (ASCII only), `", ".join(...)` and `str.split(sep)`.
 */
module Text {
  import opened Wrappers

  /** `p` is a prefix of `s` (Python's `s.startswith(p)`). */
  predicate StartsWith(s: string, p: string) {
    |p| <= |s| && s[..|p|] == p
  }

  /** `sub` occurs in `s` starting at index `i`. */
  predicate OccursAt(s: string, sub: string, i: int) {
    0 <= i && i + |sub| <= |s| && s[i..i + |sub|] == sub
  }

  lemma OccursShift(s: string, sub: string)
    requires |s| > 0
    ensures forall j :: 1 <= j ==> (OccursAt(s, sub, j) <==> OccursAt(s[1..], sub, j - 1))
  {
    forall j | 1 <= j
      ensures OccursAt(s, sub, j) <==> OccursAt(s[1..], sub, j - 1)
    {
      if j + |sub| <= |s| {
        var here, there := s[j..j + |sub|], s[1..][j - 1..j - 1 + |sub|];
        assert forall k :: 0 <= k < |sub| ==> here[k] == there[k];
      }
    }
  }

  /** The index of the first occurrence of `sub` in `s` (Python's `s.find(sub)`), if any. */
  function IndexOf(s: string, sub: string): (r: Option<nat>)
    ensures r.Some? ==> OccursAt(s, sub, r.value)
    ensures r.Some? ==> forall j :: 0 <= j < r.value ==> !OccursAt(s, sub, j)
    ensures r.None? ==> forall j :: !OccursAt(s, sub, j)
    decreases |s|
  {
    if StartsWith(s, sub) then
      assert s[0..|sub|] == s[..|sub|];
      Some(0)
    else if |s| == 0 then
      None
    else
      OccursShift(s, sub);
      match IndexOf(s[1..], sub)
      case None => None
      case Some(i) => Some(i + 1)
  }

  /** Python's `sub in s`. */
  predicate Contains(s: string, sub: string) {
    IndexOf(s, sub).Some?
  }

  lemma ContainsIff(s: string, sub: string)
    ensures Contains(s, sub) <==> exists i :: OccursAt(s, sub, i)
  {
  }

  /** A string never contains a word whose first character it lacks. */
  lemma NotContainsFirstChar(s: string, sub: string)
    requires |sub| > 0 && sub[0] !in s
    ensures !Contains(s, sub)
  {
    forall i | 0 <= i && i + |sub| <= |s|
      ensures !OccursAt(s, sub, i)
    {
      assert s[i..i + |sub|][0] == s[i];
      assert s[i] in s;
    }
  }

  /** A word occurring in a part of a string occurs in the whole string. */
  lemma ContainsInfix(a: string, b: string, c: string, sub: string)
    requires Contains(b, sub)
    ensures Contains(a + b + c, sub)
  {
    var i := IndexOf(b, sub).value;
    var s := a + b + c;
    assert s[|a| + i..|a| + i + |sub|] == b[i..i + |sub|];
    assert OccursAt(s, sub, |a| + i);
  }

  /** ASCII lower-casing of one character. */
  function LowerChar(c: char): char {
    if 'A' <= c <= 'Z' then (c as int + 32) as char else c
  }

  /** Python's `s.lower()`, restricted to ASCII letters. */
  function Lower(s: string): string {
    seq(|s|, i requires 0 <= i < |s| => LowerChar(s[i]))
  }

  /** Python's `sep.join(parts)`. */
  function Join(parts: seq<string>, sep: string): string
    decreases |parts|
  {
    if |parts| == 0 then ""
    else if |parts| == 1 then parts[0]
    else parts[0] + sep + Join(parts[1..], sep)
  }

  /** A join of parts whose first part is non-empty starts with that part's first character. */
  lemma JoinHead(parts: seq<string>, sep: string)
    requires |parts| > 0 && |parts[0]| > 0
    ensures |Join(parts, sep)| > 0 && Join(parts, sep)[0] == parts[0][0]
  {
  }

  /** Python's `s.split(sep)` for a non-empty separator: the pieces between the leftmost non-overlapping occurrences. */
  function Split(s: string, sep: string): (r: seq<string>)
    requires |sep| > 0
    ensures |r| >= 1
    decreases |s|
  {
    match IndexOf(s, sep)
    case None => [s]
    case Some(i) => [s[..i]] + Split(s[i + |sep|..], sep)
  }

  /** One step of a split: the piece before the first separator, then the split of the rest. */
  lemma SplitStep(s: string, sep: string, i: nat)
    requires |sep| > 0 && IndexOf(s, sep) == Some(i)
    ensures Split(s, sep) == [s[..i]] + Split(s[i + |sep|..], sep)
    ensures s == s[..i] + sep + s[i + |sep|..]
  {
    AroundOccurrence(s, sep, i);
  }

  /** A string is the text before an occurrence, the occurrence, and the text after it. */
  lemma AroundOccurrence(s: string, sub: string, i: int)
    requires OccursAt(s, sub, i)
    ensures s == s[..i] + sub + s[i + |sub|..]
  {
    var before, here, after := s[..i], s[i..i + |sub|], s[i + |sub|..];
    assert here == sub;
    assert s[..i + |sub|] == before + here;
    assert s == s[..i + |sub|] + after;
  }

  /** Joining a part in front of at least one other part puts the separator between them. */
  lemma JoinCons(head: string, rest: seq<string>, sep: string)
    requires |rest| >= 1
    ensures Join([head] + rest, sep) == head + sep + Join(rest, sep)
  {
    assert ([head] + rest)[1..] == rest;
  }

  /** Joining the pieces of a split with the same separator gives back the string. */
  lemma {:induction false} JoinSplit(s: string, sep: string)
    requires |sep| > 0
    ensures Join(Split(s, sep), sep) == s
    decreases |s|
  {
    match IndexOf(s, sep)
    case None =>
    case Some(i) =>
      var head, tail := s[..i], s[i + |sep|..];
      SplitStep(s, sep, i);
      JoinSplit(tail, sep);
      JoinCons(head, Split(tail, sep), sep);
  }

  /** A string lacking the separator's first character is not split. */
  lemma SplitNoSeparator(s: string, sep: string)
    requires |sep| > 0 && sep[0] !in s
    ensures Split(s, sep) == [s]
  {
    NotContainsFirstChar(s, sep);
  }

  /**
    Splitting a join gives back the parts, provided no part contains the
    separator's first character (so no occurrence starts inside a part).
   */
  lemma {:induction false} SplitJoin(parts: seq<string>, sep: string)
    requires |sep| > 0 && |parts| >= 1
    requires forall k :: 0 <= k < |parts| ==> sep[0] !in parts[k]
    ensures Split(Join(parts, sep), sep) == parts
    decreases |parts|
  {
    if |parts| == 1 {
      SplitNoSeparator(parts[0], sep);
    } else {
      var p, tail := parts[0], Join(parts[1..], sep);
      var s := p + sep + tail;
      assert Join(parts, sep) == s;
      assert OccursAt(s, sep, |p|) by {
        assert s[|p|..|p| + |sep|] == sep;
      }
      forall j | 0 <= j < |p|
        ensures !OccursAt(s, sep, j)
      {
        if j + |sep| <= |s| {
          assert s[j..j + |sep|][0] == s[j] == p[j];
          assert p[j] in p;
        }
      }
      assert IndexOf(s, sep) == Some(|p|);
      assert s[..|p|] == p;
      assert s[|p| + |sep|..] == tail;
      SplitJoin(parts[1..], sep);
      assert parts == [p] + parts[1..];
    }
  }

  /** A word occurring in one of the parts occurs in their join. */
  lemma {:induction false} ContainsJoinOfPart(parts: seq<string>, sep: string, k: nat, sub: string)
    requires k < |parts| && Contains(parts[k], sub)
    ensures Contains(Join(parts, sep), sub)
    decreases |parts|
  {
    if |parts| == 1 {
    } else if k == 0 {
      ContainsInfix("", parts[0], sep + Join(parts[1..], sep), sub);
      assert "" + parts[0] + (sep + Join(parts[1..], sep)) == Join(parts, sep);
    } else {
      ContainsJoinOfPart(parts[1..], sep, k - 1, sub);
      ContainsInfix(parts[0] + sep, Join(parts[1..], sep), "", sub);
      assert parts[0] + sep + Join(parts[1..], sep) + "" == Join(parts, sep);
    }
  }

  /**
    A word sharing no character with the separator that occurs in `a + sep + b`
    occurs in `a` or in `b`: no occurrence can straddle the separator.
   */
  lemma ContainsAroundSeparator(a: string, sep: string, b: string, sub: string)
    requires |sub| > 0 && |sep| > 0
    requires forall k :: 0 <= k < |sep| ==> sep[k] !in sub
    ensures Contains(a + sep + b, sub) ==> Contains(a, sub) || Contains(b, sub)
  {
    var s := a + sep + b;
    forall i | 0 <= i < |a| + |sep| && |a| < i + |sub|
      ensures !OccursAt(s, sub, i)
    {
      var m := if i < |a| then |a| else i;
      assert s[m] == sep[m - |a|];
      if i + |sub| <= |s| {
        assert s[i..i + |sub|][m - i] == s[m];
        assert sub[m - i] in sub;
      }
    }
    if Contains(s, sub) {
      var i := IndexOf(s, sub).value;
      if i + |sub| <= |a| {
        assert a[i..i + |sub|] == s[i..i + |sub|];
        assert OccursAt(a, sub, i);
      } else {
        assert |a| + |sep| <= i;
        var j := i - |a| - |sep|;
        assert s == a + sep + b;
        var inB, inS := b[j..j + |sub|], s[i..i + |sub|];
        forall t | 0 <= t < |sub| ensures inB[t] == inS[t] {
        }
        assert inB == inS;
        assert OccursAt(b, sub, j);
      }
    }
  }

  /** A word sharing no character with the separator occurs in a join iff it occurs in some part. */
  lemma {:induction false} ContainsJoinIff(parts: seq<string>, sep: string, sub: string)
    requires |sub| > 0 && |sep| > 0
    requires forall k :: 0 <= k < |sep| ==> sep[k] !in sub
    ensures Contains(Join(parts, sep), sub) <==> exists k :: 0 <= k < |parts| && Contains(parts[k], sub)
    decreases |parts|
  {
    if exists k :: 0 <= k < |parts| && Contains(parts[k], sub) {
      var k :| 0 <= k < |parts| && Contains(parts[k], sub);
      ContainsJoinOfPart(parts, sep, k, sub);
    } else if |parts| == 0 {
      NotContainsFirstChar("", sub);
    } else if |parts| >= 2 {
      ContainsJoinIff(parts[1..], sep, sub);
      assert !exists k :: 0 <= k < |parts[1..]| && Contains(parts[1..][k], sub) by {
        forall k | 0 <= k < |parts[1..]|
          ensures !Contains(parts[1..][k], sub)
        {
          assert parts[1..][k] == parts[k + 1];
        }
      }
      ContainsAroundSeparator(parts[0], sep, Join(parts[1..], sep), sub);
    }
  }
}
