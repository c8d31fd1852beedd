/**
 glob_policy.h: the iterative wildcard matcher with one backtrack point, set
 against the recursive meaning of `*` and `?`. Strings are NUL-free.
 */
module Glob {

  /** `*` stands for any run of characters, `?` for one. */
  predicate Matches(p: string, n: string)
    decreases |p| + |n|
  {
    if p == "" then n == ""
    else if p[0] == '*' then Matches(p[1..], n) || (n != "" && Matches(p, n[1..]))
    else n != "" && (p[0] == '?' || p[0] == n[0]) && Matches(p[1..], n[1..])
  }

  predicate AllStars(p: string) { forall i :: 0 <= i < |p| ==> p[i] == '*' }

  /** One name position against one pattern position, as the loop compares them. */
  predicate Takes(p: string, pi: nat, n: string, ni: nat)
    requires ni < |n|
  {
    pi < |p| && (p[pi] == '?' || p[pi] == n[ni])
  }

  /** Bounds of the loop variables: star is -1 until a `*` was passed. */
  predicate InLoop(p: string, n: string, pi: nat, ni: nat, star: int, mark: nat) {
    -1 <= star < pi <= |p| && mark <= ni <= |n|
  }

  /** The answer of the loop from any of its states. */
  predicate Scan(p: string, n: string, pi: nat, ni: nat, star: int, mark: nat)
    requires InLoop(p, n, pi, ni, star, mark)
    decreases |p| - star, |n| - mark, |n| - ni
  {
    if ni == |n| then AllStars(p[pi..])
    else if Takes(p, pi, n, ni) then Scan(p, n, pi + 1, ni + 1, star, mark)
    else if pi < |p| && p[pi] == '*' then Scan(p, n, pi + 1, ni, pi, ni)
    else if star >= 0 then Scan(p, n, star + 1, mark + 1, star, mark + 1)
    else false
  }

  predicate GlobAnswer(p: string, n: string) { Scan(p, n, 0, 0, -1, 0) }

  /** globMatch: terminates on the star, then the mark, then the name position. */
  method GlobMatch(pat: string, name: string) returns (matched: bool)
    ensures matched == GlobAnswer(pat, name)
    ensures matched ==> Matches(pat, name)
    ensures '*' !in pat || '*' !in name ==> matched == Matches(pat, name)
  {
    GlobSound(pat, name);
    if '*' !in pat || '*' !in name { GlobExact(pat, name); }
    var pi, ni, star, mark := 0, 0, -1, 0;
    while ni < |name|
      invariant InLoop(pat, name, pi, ni, star, mark)
      invariant Scan(pat, name, pi, ni, star, mark) == GlobAnswer(pat, name)
      decreases |pat| - star, |name| - mark, |name| - ni
    {
      if pi < |pat| && (pat[pi] == '?' || pat[pi] == name[ni]) {
        pi, ni := pi + 1, ni + 1;
        continue;
      }
      if pi < |pat| && pat[pi] == '*' {
        star, pi, mark := pi, pi + 1, ni;
        continue;
      }
      if star >= 0 {
        mark := mark + 1;
        pi, ni := star + 1, mark;
        continue;
      }
      return false;
    }
    ghost var rest := pat[pi..];
    while pi < |pat| && pat[pi] == '*'
      invariant pi <= |pat|
      invariant AllStars(pat[pi..]) == AllStars(rest)
    {
      assert pat[pi..] == [pat[pi]] + pat[pi + 1..];
      pi := pi + 1;
    }
    return pi == |pat|;
  }

  // ---- About the meaning ----

  lemma {:induction false} MatchesEmpty(p: string)
    ensures Matches(p, "") == AllStars(p)
  {
    if p != "" {
      MatchesEmpty(p[1..]);
      assert p == [p[0]] + p[1..];
    }
  }

  /** A leading star absorbs any prefix of the name. */
  lemma {:induction false} StarAbsorbs(p: string, n: string, k: nat)
    requires p != "" && p[0] == '*' && k <= |n| && Matches(p, n[k..])
    ensures Matches(p, n)
    decreases k
  {
    if k > 0 {
      assert n[1..][k - 1..] == n[k..];
      StarAbsorbs(p, n[1..], k - 1);
    }
  }

  /** Where the text after a leading star starts. */
  lemma {:induction false} StarStops(p: string, n: string) returns (k: nat)
    requires p != "" && p[0] == '*' && Matches(p, n)
    ensures k <= |n| && Matches(p[1..], n[k..])
    decreases |n|
  {
    if Matches(p[1..], n) {
      k := 0;
    } else {
      var j := StarStops(p, n[1..]);
      assert n[1..][j..] == n[j + 1..];
      k := j + 1;
    }
  }

  /** A star-free segment takes exactly its own length. */
  lemma {:induction false} SegmentTakes(p: string, n: string, len: nat)
    requires len <= |p| && '*' !in p[..len] && Matches(p, n)
    ensures len <= |n| && Matches(p[len..], n[len..])
    decreases len
  {
    if len > 0 {
      assert p[0] in p[..len];
      assert forall c :: c in p[1..][..len - 1] ==> c in p[..len];
      SegmentTakes(p[1..], n[1..], len - 1);
      assert p[1..][len - 1..] == p[len..] && n[1..][len - 1..] == n[len..];
    }
  }

  // ---- Soundness ----

  /** What a state of the loop may rely on: success from it is a match. */
  ghost predicate Justified(p: string, n: string, pi: nat, ni: nat, star: int, mark: nat)
    requires InLoop(p, n, pi, ni, star, mark)
  {
    && (Matches(p[pi..], n[ni..]) ==> Matches(p, n))
    && (star >= 0 ==> p[star] == '*' && (Matches(p[star..], n[mark..]) ==> Matches(p, n)))
  }

  lemma {:induction false} ScanSound(p: string, n: string, pi: nat, ni: nat, star: int, mark: nat)
    requires InLoop(p, n, pi, ni, star, mark) && Justified(p, n, pi, ni, star, mark)
    ensures Scan(p, n, pi, ni, star, mark) ==> Matches(p, n)
    decreases |p| - star, |n| - mark, |n| - ni
  {
    if ni == |n| {
      MatchesEmpty(p[pi..]);
    } else if Takes(p, pi, n, ni) {
      assert p[pi..][1..] == p[pi + 1..] && n[ni..][1..] == n[ni + 1..];
      if Matches(p[pi + 1..], n[ni + 1..]) {
        if p[pi] == '*' { assert Matches(p[pi..], n[ni + 1..]); }
        assert Matches(p[pi..], n[ni..]);
      }
      ScanSound(p, n, pi + 1, ni + 1, star, mark);
    } else if pi < |p| && p[pi] == '*' {
      assert p[pi..][1..] == p[pi + 1..];
      ScanSound(p, n, pi + 1, ni, pi, ni);
    } else if star >= 0 {
      assert p[star..][1..] == p[star + 1..] && n[mark..][1..] == n[mark + 1..];
      if Matches(p[star + 1..], n[mark + 1..]) { assert Matches(p[star..], n[mark + 1..]); }
      if Matches(p[star..], n[mark + 1..]) { assert Matches(p[star..], n[mark..]); }
      ScanSound(p, n, star + 1, mark + 1, star, mark + 1);
    }
  }

  /** A true answer is always right, whatever the name holds. */
  lemma GlobSound(p: string, n: string)
    ensures GlobAnswer(p, n) ==> Matches(p, n)
  {
    assert p[0..] == p && n[0..] == n;
    ScanSound(p, n, 0, 0, -1, 0);
  }

  // ---- Exactness ----

  /** The one backtrack point left to try. */
  predicate Retry(p: string, n: string, star: int, mark: nat) {
    0 <= star < |p| && mark < |n| && Matches(p[star..], n[mark + 1..])
  }

  /** Since the star, the loop only took star-free pattern characters. */
  predicate Segment(p: string, n: string, pi: nat, ni: nat, star: int, mark: nat)
    requires InLoop(p, n, pi, ni, star, mark)
  {
    star >= 0 ==> p[star] == '*' && '*' !in p[star + 1..pi] && pi - (star + 1) == ni - mark
  }

  /** A later start of the segment ends past the name position. */
  lemma RetryShifts(p: string, n: string, pi: nat, ni: nat, star: int, mark: nat) returns (j: nat)
    requires InLoop(p, n, pi, ni, star, mark)
    requires star >= 0 && Segment(p, n, pi, ni, star, mark) && Retry(p, n, star, mark)
    ensures ni < j <= |n| && Matches(p[pi..], n[j..])
  {
    var tail := n[mark + 1..];
    var k := StarStops(p[star..], tail);
    var len := pi - (star + 1);
    assert p[star..][1..] == p[star + 1..] && p[star + 1..][..len] == p[star + 1..pi];
    SegmentTakes(p[star + 1..], tail[k..], len);
    assert p[star + 1..][len..] == p[pi..];
    j := mark + 1 + k + len;
    assert tail[k..][len..] == n[j..];
  }

  lemma {:induction false} ScanExact(p: string, n: string, pi: nat, ni: nat, star: int, mark: nat)
    requires '*' !in p || '*' !in n
    requires InLoop(p, n, pi, ni, star, mark) && Segment(p, n, pi, ni, star, mark)
    ensures Scan(p, n, pi, ni, star, mark) <==> Matches(p[pi..], n[ni..]) || Retry(p, n, star, mark)
    decreases |p| - star, |n| - mark, |n| - ni
  {
    if ni == |n| {
      MatchesEmpty(p[pi..]);
      if Retry(p, n, star, mark) { var j := RetryShifts(p, n, pi, ni, star, mark); }
    } else if Takes(p, pi, n, ni) {
      assert n[ni] in n && p[pi] in p;
      assert p[pi..][1..] == p[pi + 1..] && n[ni..][1..] == n[ni + 1..];
      if star >= 0 { assert p[star + 1..pi + 1] == p[star + 1..pi] + [p[pi]]; }
      ScanExact(p, n, pi + 1, ni + 1, star, mark);
    } else if pi < |p| && p[pi] == '*' {
      assert p[pi..][1..] == p[pi + 1..] && n[ni..][1..] == n[ni + 1..];
      ScanExact(p, n, pi + 1, ni, pi, ni);
      if Retry(p, n, star, mark) {
        var j := RetryShifts(p, n, pi, ni, star, mark);
        assert n[ni..][j - ni..] == n[j..];
        StarAbsorbs(p[pi..], n[ni..], j - ni);
      }
    } else if star >= 0 {
      assert p[star..][1..] == p[star + 1..];
      if mark + 1 < |n| { assert n[mark + 1..][1..] == n[mark + 2..]; }
      ScanExact(p, n, star + 1, mark + 1, star, mark + 1);
    }
  }

  lemma GlobExact(p: string, n: string)
    requires '*' !in p || '*' !in n
    ensures GlobAnswer(p, n) == Matches(p, n)
  {
    assert p[0..] == p && n[0..] == n;
    ScanExact(p, n, 0, 0, -1, 0);
  }

  // ---- Where it is wrong ----

  /** Text that the pattern takes character by character passes no backtrack point. */
  lemma {:induction false} ScanTakes(p: string, n: string, i: nat, len: nat)
    requires i + len <= |p| && i + len <= |n|
    requires forall k :: i <= k < i + len ==> Takes(p, k, n, k)
    ensures Scan(p, n, i, i, -1, 0) == Scan(p, n, i + len, i + len, -1, 0)
    decreases len
  {
    if len > 0 { ScanTakes(p, n, i + 1, len - 1); }
  }

  lemma {:induction false} ScanNeedsLength(p: string, n: string, pi: nat, ni: nat)
    requires pi <= |p| && ni <= |n| && '*' !in p[pi..] && |p| - pi != |n| - ni
    ensures !Scan(p, n, pi, ni, -1, 0)
    decreases |n| - ni
  {
    if pi < |p| { assert p[pi] in p[pi..]; }
    if ni < |n| && pi < |p| && Takes(p, pi, n, ni) {
      assert forall c :: c in p[pi + 1..] ==> c in p[pi..];
      ScanNeedsLength(p, n, pi + 1, ni + 1);
    }
  }

  /** A text matches itself read as a pattern, in front of anything that matches. */
  lemma {:induction false} MatchesOwnText(u: string, p: string, n: string)
    requires Matches(p, n)
    ensures Matches(u + p, u + n)
    decreases |u|
  {
    if u == "" {
      assert u + p == p && u + n == n;
    } else {
      MatchesOwnText(u[1..], p, n);
      assert (u + p)[1..] == u[1..] + p && (u + n)[1..] == u[1..] + n;
      if u[0] == '*' {
        assert Matches(u[1..] + p, (u + n)[1..]);
        assert Matches(u + p, (u + n)[1..]);
      }
    }
  }

  lemma {:induction false} QuestionsMatch(n: string)
    ensures Matches(seq(|n|, i => '?'), n)
  {
    if n != "" {
      QuestionsMatch(n[1..]);
      assert seq(|n|, i => '?')[1..] == seq(|n[1..]|, i => '?');
    }
  }

  /** A name with a star at k: this pattern matches it, and the loop says no. */
  lemma StarredNameFails(n: string, k: nat)
    requires k < |n| && n[k] == '*' && '*' !in n[..k]
    ensures exists p :: Matches(p, n) && !GlobAnswer(p, n)
  {
    var questions := seq(|n| - k, i => '?');
    var p := n[..k] + ("*" + questions);
    QuestionsMatch(n[k..]);
    assert ("*" + questions)[1..] == questions;
    assert Matches("*" + questions, n[k..]);
    MatchesOwnText(n[..k], "*" + questions, n[k..]);
    assert n[..k] + n[k..] == n;
    ScanTakes(p, n, 0, |n|);
    assert p[|n|..][0] == '?';
  }

  /** A pattern with its last star at k: this name matches it, and the loop says no. */
  lemma StarredPatternFails(p: string, k: nat)
    requires k < |p| && p[k] == '*' && '*' !in p[k + 1..]
    ensures exists n :: Matches(p, n) && !GlobAnswer(p, n)
  {
    var w := p[k + 1..];
    var n := p[..k] + ("*z" + w);
    MatchesOwnText(w, "", "");
    assert w + "" == w;
    assert ("*" + w)[1..] == w && ("*z" + w)[2..] == w;
    StarAbsorbs("*" + w, "*z" + w, 2);
    MatchesOwnText(p[..k], "*" + w, "*z" + w);
    assert p[..k] + ("*" + w) == p;
    ScanTakes(p, n, 0, k + 1);
    ScanNeedsLength(p, n, k + 1, k + 1);
  }

  lemma {:induction false} FirstStar(s: string) returns (k: nat)
    requires '*' in s
    ensures k < |s| && s[k] == '*' && '*' !in s[..k]
  {
    if s[0] == '*' {
      k := 0;
    } else {
      assert s == [s[0]] + s[1..];
      var j := FirstStar(s[1..]);
      k := j + 1;
      assert s[..k] == [s[0]] + s[1..][..j];
    }
  }

  lemma {:induction false} LastStar(s: string) returns (k: nat)
    requires '*' in s
    ensures k < |s| && s[k] == '*' && '*' !in s[k + 1..]
  {
    var m := |s| - 1;
    if s[m] == '*' {
      k := m;
    } else {
      assert s == s[..m] + [s[m]];
      k := LastStar(s[..m]);
      assert s[k + 1..] == s[..m][k + 1..] + [s[m]];
    }
  }

  /** The matcher is right for every pattern exactly on the names without a literal star. */
  lemma RightForName(n: string)
    ensures (forall p :: GlobAnswer(p, n) == Matches(p, n)) <==> '*' !in n
  {
    if '*' in n {
      var k := FirstStar(n);
      StarredNameFails(n, k);
    } else {
      forall p ensures GlobAnswer(p, n) == Matches(p, n) { GlobExact(p, n); }
    }
  }

  /** And for every name exactly on the patterns without a star. */
  lemma RightForPattern(p: string)
    ensures (forall n :: GlobAnswer(p, n) == Matches(p, n)) <==> '*' !in p
  {
    if '*' in p {
      var k := LastStar(p);
      StarredPatternFails(p, k);
    } else {
      forall n ensures GlobAnswer(p, n) == Matches(p, n) { GlobExact(p, n); }
    }
  }
}
