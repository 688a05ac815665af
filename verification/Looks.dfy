/** What the user gets to see of a job, and whether its fingerprint tells: the texts of the steps are joined with bars, so a step
    text that spells another step can hide a change. */
module Looks {
  import opened Option
  import opened Types
  import opened Polling

  /** The same in everything that is shown of a job. */
  predicate LooksSame(a: Job, b: Job) {
    && a.status == b.status && a.progressSummary == b.progressSummary && a.blockedReason == b.blockedReason
    && a.resumeCondition == b.resumeCondition && a.statusReasonCode == b.statusReasonCode && a.resultDigest == b.resultDigest
    && a.evidenceQuality == b.evidenceQuality && a.recentSteps == b.recentSteps
  }

  function Line(s: RecentStep): string {
    s.kind + ":" + s.text
  }

  /** A step whose kind is one of the words `kinds`; none of these has a colon or a bar. */
  predicate OfKinds(steps: seq<RecentStep>, kinds: set<string>) {
    forall i :: 0 <= i < |steps| ==> steps[i].kind in kinds
  }

  predicate Words(kinds: set<string>) {
    forall k :: k in kinds ==> ':' !in k && '|' !in k
  }

  /** From some bar on the text reads like another step: a kind and a colon. */
  predicate SpellsStepAt(text: string, i: nat, k: string) {
    i + |k| + 2 <= |text| && text[i] == '|' && text[i + 1..i + 1 + |k|] == k && text[i + 1 + |k|] == ':'
  }

  predicate SpellsStep(s: RecentStep, kinds: set<string>) {
    exists k, i :: k in kinds && 0 <= i < |s.text| && SpellsStepAt(s.text, i, k)
  }

  /** There are at least two steps, and the text of one spells another. */
  predicate Ambiguous(steps: seq<RecentStep>, kinds: set<string>) {
    |steps| >= 2 && exists i :: 0 <= i < |steps| && SpellsStep(steps[i], kinds)
  }

  lemma Regroup(d: string, s: RecentStep)
    ensures d + s.kind + ":" + s.text == d + Line(s)
  {
  }

  lemma DigestLast(steps: seq<RecentStep>)
    requires steps != []
    ensures var n := |steps| - 1;
      StepDigest(steps) == if n == 0 then Line(steps[0]) else StepDigest(steps[..n]) + ['|'] + Line(steps[n])
  {
    hide Line;
    var n := |steps| - 1;
    Regroup(if n == 0 then "" else StepDigest(steps[..n]) + ['|'], steps[n]);
    assert "" + Line(steps[n]) == Line(steps[n]);
  }

  // ----- unambiguous steps can be read back -----

  lemma LineShows(a: RecentStep, b: RecentStep)
    requires ':' !in a.kind && ':' !in b.kind && Line(a) == Line(b)
    ensures a == b
  {
    var n, m := |a.kind|, |b.kind|;
    assert Line(a)[n] == ':' && Line(b)[m] == ':';
    assert forall i :: 0 <= i < n ==> Line(a)[i] == a.kind[i] && Line(a)[i] != ':';
    assert forall i :: 0 <= i < m ==> Line(b)[i] == b.kind[i] && Line(b)[i] != ':';
    assert n == m;
    assert a.kind == Line(a)[..n] && b.kind == Line(b)[..m];
    assert a.text == Line(a)[n + 1..] && b.text == Line(b)[m + 1..];
  }

  /** A line that ends in a bar and another line spells a step. */
  lemma LongerSpells(s: RecentStep, x: string, t: RecentStep, kinds: set<string>)
    requires Words(kinds) && s.kind in kinds && t.kind in kinds && Line(s) == x + ['|'] + Line(t)
    ensures SpellsStep(s, kinds) && |s.kind| < |x|
  {
    var n, l := |s.kind|, Line(s);
    assert l[|x|] == '|' && l[n] == ':';
    assert forall i :: 0 <= i < n ==> l[i] == s.kind[i] && l[i] != '|';
    assert |x| > n;
    var i := |x| - n - 1;
    assert forall r :: 0 <= r < |s.text| ==> s.text[r] == l[n + 1 + r];
    assert forall r :: 0 <= r < |Line(t)| ==> l[|x| + 1 + r] == Line(t)[r];
    SpelledAt(s.text, i, t);
  }

  lemma SpelledAt(text: string, i: nat, t: RecentStep)
    requires i + 1 + |Line(t)| <= |text| && text[i] == '|' && forall r :: 0 <= r < |Line(t)| ==> text[i + 1 + r] == Line(t)[r]
    ensures SpellsStepAt(text, i, t.kind)
  {
    var n := |t.kind|;
    assert forall r :: 0 <= r < n ==> Line(t)[r] == t.kind[r];
    assert Line(t)[n] == ':';
    assert text[i + 1..i + 1 + n] == t.kind;
  }

  /** The same text, cut at two places, the earlier cut being at a bar. */
  lemma CutAtBar(p: string, l: string, q: string, m: string)
    requires p + l == q + ['|'] + m && |m| < |l|
    ensures var x := |l| - |m| - 1; l == l[..x] + ['|'] + m && q == p + l[..x]
  {
    var s, x := p + l, |l| - |m| - 1;
    assert |q| == |p| + x;
    assert s[|q|] == '|' && s[|q|] == l[x];
    assert m == s[|q| + 1..] && l == s[|p|..];
    assert m == l[x + 1..];
    assert l == l[..x] + [l[x]] + l[x + 1..];
    assert q == s[..|q|] && s[..|q|] == p + l[..x];
  }

  function Before(steps: seq<RecentStep>): string
    requires steps != []
  {
    if |steps| == 1 then "" else StepDigest(steps[..|steps| - 1]) + ['|']
  }

  lemma DigestIs(steps: seq<RecentStep>)
    requires steps != []
    ensures StepDigest(steps) == Before(steps) + Line(steps[|steps| - 1])
  {
    DigestLast(steps);
    assert "" + Line(steps[0]) == Line(steps[0]);
  }

  predicate NoneSpells(steps: seq<RecentStep>, kinds: set<string>) {
    forall i :: 0 <= i < |steps| ==> !SpellsStep(steps[i], kinds)
  }

  lemma DigestHasColon(steps: seq<RecentStep>)
    requires steps != []
    ensures StepDigest(steps) != ""
  {
    DigestIs(steps);
    assert Line(steps[|steps| - 1])[|steps[|steps| - 1].kind|] == ':';
  }

  /** Both digests end in the same line. */
  lemma SameLast(a: seq<RecentStep>, b: seq<RecentStep>, kinds: set<string>)
    requires Words(kinds) && OfKinds(a, kinds) && OfKinds(b, kinds) && a != [] && b != []
    requires StepDigest(a) == StepDigest(b) && |Line(a[|a| - 1])| == |Line(b[|b| - 1])|
    ensures a[|a| - 1] == b[|b| - 1] && (|a| == 1 <==> |b| == 1) && (|a| > 1 && |b| > 1 ==> StepDigest(a[..|a| - 1]) == StepDigest(b[..|b| - 1]))
  {
    DigestIs(a);
    DigestIs(b);
    var la, lb := Line(a[|a| - 1]), Line(b[|b| - 1]);
    var s := StepDigest(a);
    assert la == s[|Before(a)|..] && lb == s[|Before(b)|..];
    assert Before(a) == s[..|Before(a)|] && Before(b) == s[..|Before(b)|];
    LineShows(a[|a| - 1], b[|b| - 1]);
    hide StepDigest, Line;
    if |a| > 1 && |b| > 1 {
      assert StepDigest(a[..|a| - 1]) == Before(a)[..|Before(a)| - 1];
    }
  }

  /** The last line of `b` is shorter: then the last step of `a` spells another, and may be cut there. */
  lemma ShorterLast(a: seq<RecentStep>, b: seq<RecentStep>, kinds: set<string>) returns (cut: RecentStep)
    requires Words(kinds) && OfKinds(a, kinds) && OfKinds(b, kinds) && a != [] && b != []
    requires StepDigest(a) == StepDigest(b) && |Line(b[|b| - 1])| < |Line(a[|a| - 1])|
    ensures SpellsStep(a[|a| - 1], kinds) && |b| > 1 && cut.kind == a[|a| - 1].kind
    ensures StepDigest(a[..|a| - 1] + [cut]) == StepDigest(b[..|b| - 1])
  {
    hide StepDigest, Line, SpellsStep;
    var la, lb := Line(a[|a| - 1]), Line(b[|b| - 1]);
    DigestIs(a);
    DigestIs(b);
    assert |b| > 1;
    CutAtBar(Before(a), la, StepDigest(b[..|b| - 1]), lb);
    var x := |la| - |lb| - 1;
    LongerSpells(a[|a| - 1], la[..x], b[|b| - 1], kinds);
    cut := CutLine(a, x);
  }

  lemma CutLine(a: seq<RecentStep>, x: nat) returns (cut: RecentStep)
    requires a != [] && |a[|a| - 1].kind| < x < |Line(a[|a| - 1])|
    ensures cut.kind == a[|a| - 1].kind && StepDigest(a[..|a| - 1] + [cut]) == Before(a) + Line(a[|a| - 1])[..x]
  {
    var last := a[|a| - 1];
    cut := RecentStep(last.kind, last.text[..x - |last.kind| - 1]);
    assert Line(cut) == Line(last)[..x];
    var c := a[..|a| - 1] + [cut];
    DigestIs(c);
    assert c[..|c| - 1] == a[..|a| - 1];
    hide Line, StepDigest;
  }

  /** Where no step spells another, no other steps have the same joined text unless they are fewer. */
  lemma {:induction false} ReadBack(a: seq<RecentStep>, b: seq<RecentStep>, kinds: set<string>)
    requires Words(kinds) && OfKinds(a, kinds) && OfKinds(b, kinds) && NoneSpells(a, kinds) && StepDigest(a) == StepDigest(b)
    ensures |b| <= |a| && (|b| == |a| ==> b == a)
    decreases |a|
  {
    hide StepDigest, Line, SpellsStep, Words;
    if a == [] {
      NothingJoined(b);
    } else if b != [] {
      var n, m := |a| - 1, |b| - 1;
      assert !SpellsStep(a[n], kinds);
      if |Line(a[n])| == |Line(b[m])| {
        SameLast(a, b, kinds);
        if n > 0 {
          ReadBack(a[..n], b[..m], kinds);
          assert a == a[..n] + [a[n]] && b == b[..m] + [b[m]];
        }
      } else if |Line(b[m])| < |Line(a[n])| {
        var _ := ShorterLast(a, b, kinds);
      } else {
        var cut := ShorterLast(b, a, kinds);
        ReadBack(a[..n], b[..m] + [cut], kinds);
      }
    }
  }

  lemma NothingJoined(b: seq<RecentStep>)
    requires StepDigest(b) == StepDigest([])
    ensures b == []
  {
    if b != [] {
      DigestHasColon(b);
    }
  }

  /** Unambiguous steps have a joined text of their own among steps of the same number. */
  lemma UnambiguousShow(a: seq<RecentStep>, b: seq<RecentStep>, kinds: set<string>)
    requires Words(kinds) && OfKinds(a, kinds) && OfKinds(b, kinds) && !Ambiguous(a, kinds) && |a| == |b| && StepDigest(a) == StepDigest(b)
    ensures a == b
  {
    if |a| >= 2 {
      ReadBack(a, b, kinds);
    } else if |a| == 1 {
      DigestIs(a);
      DigestIs(b);
      assert "" + Line(a[0]) == Line(a[0]) && "" + Line(b[0]) == Line(b[0]);
      LineShows(a[0], b[0]);
    }
  }

  // ----- ambiguous steps cannot -----

  lemma PairLast(before: seq<RecentStep>, s: RecentStep, t: RecentStep)
    ensures StepDigest(before + [s, t]) == (if before == [] then "" else StepDigest(before) + ['|']) + (Line(s) + ['|'] + Line(t))
  {
    var all := before + [s, t];
    assert all[..|all| - 1] == before + [s] && (before + [s])[..|before|] == before;
    DigestIs(all);
    DigestIs(before + [s]);
    hide StepDigest, Line;
    var p := if before == [] then "" else StepDigest(before) + ['|'];
    assert (p + Line(s)) + ['|'] + Line(t) == p + (Line(s) + ['|'] + Line(t));
  }

  /** Two neighbours may be replaced by two others with the same joined text. */
  lemma {:induction false} PairReplaced(before: seq<RecentStep>, s: RecentStep, t: RecentStep, u: RecentStep, v: RecentStep, after: seq<RecentStep>)
    requires Line(s) + ['|'] + Line(t) == Line(u) + ['|'] + Line(v)
    ensures StepDigest(before + [s, t] + after) == StepDigest(before + [u, v] + after)
    decreases |after|
  {
    if after == [] {
      PairLast(before, s, t);
      PairLast(before, u, v);
      assert before + [s, t] + after == before + [s, t] && before + [u, v] + after == before + [u, v];
    } else {
      var n := |after| - 1;
      PairReplaced(before, s, t, u, v, after[..n]);
      var a, b := before + [s, t] + after, before + [u, v] + after;
      assert a[..|a| - 1] == before + [s, t] + after[..n] && b[..|b| - 1] == before + [u, v] + after[..n];
      DigestIs(a);
      DigestIs(b);
      hide StepDigest, Line;
    }
  }

  /** A step whose text spells another, cut in two there. */
  lemma SpelledLine(s: RecentStep, i: nat, k: string) returns (first: RecentStep, second: RecentStep)
    requires SpellsStepAt(s.text, i, k)
    ensures first == RecentStep(s.kind, s.text[..i]) && second == RecentStep(k, s.text[i + |k| + 2..])
    ensures Line(s) == Line(first) + ['|'] + Line(second) && first.text != s.text
  {
    first, second := RecentStep(s.kind, s.text[..i]), RecentStep(k, s.text[i + |k| + 2..]);
    var t := s.text;
    assert t[i + 1..] == t[i + 1..i + 1 + |k|] + t[i + 1 + |k|..] && t[i + 1 + |k|..] == ":" + t[i + |k| + 2..];
    assert t == t[..i] + ['|'] + t[i + 1..];
    assert t[i + 1..] == Line(second);
    assert Line(s) == Line(first) + ['|'] + Line(second);
    assert |first.text| < |s.text|;
  }

  /** A step that spells another and the step after it, cut elsewhere. */
  lemma ShiftedForward(steps: seq<RecentStep>, j: nat, i: nat, k: string) returns (other: seq<RecentStep>)
    requires j + 1 < |steps| && SpellsStepAt(steps[j].text, i, k)
    ensures |other| == |steps| && other != steps && StepDigest(other) == StepDigest(steps)
    ensures forall m :: 0 <= m < |other| ==> other[m].kind == k || other[m].kind == steps[m].kind
  {
    var first, second := SpelledLine(steps[j], i, k);
    hide StepDigest, Line, SpellsStepAt;
    var next := steps[j + 1];
    var merged := RecentStep(k, second.text + ['|'] + Line(next));
    MergedLine(second, next);
    Regrouped(Line(first), Line(second), Line(next));
    other := steps[..j] + [first, merged] + steps[j + 2..];
    assert steps == steps[..j] + [steps[j], next] + steps[j + 2..];
    PairReplaced(steps[..j], first, merged, steps[j], next, steps[j + 2..]);
    assert other[j] == first;
  }

  /** The last step, if it spells another, and the step before it. */
  lemma ShiftedBack(steps: seq<RecentStep>, i: nat, k: string) returns (other: seq<RecentStep>)
    requires |steps| >= 2 && SpellsStepAt(steps[|steps| - 1].text, i, k)
    ensures |other| == |steps| && other != steps && StepDigest(other) == StepDigest(steps)
    ensures forall m :: 0 <= m < |other| ==> other[m].kind == k || other[m].kind == steps[m].kind
  {
    var j := |steps| - 1;
    var first, second := SpelledLine(steps[j], i, k);
    hide StepDigest, Line, SpellsStepAt;
    var last := steps[j - 1];
    var merged := RecentStep(last.kind, last.text + ['|'] + Line(first));
    MergedLine(last, first);
    Regrouped(Line(last), Line(first), Line(second));
    other := steps[..j - 1] + [merged, second];
    assert steps == steps[..j - 1] + [last, steps[j]] + [] && other == steps[..j - 1] + [merged, second] + [];
    PairReplaced(steps[..j - 1], merged, second, last, steps[j], []);
    assert other[j - 1] == merged && |merged.text| > |last.text|;
  }

  /** Joining a step with its neighbour and cutting it where it spells another leaves number and joined text as they were. */
  lemma AmbiguousHides(steps: seq<RecentStep>, kinds: set<string>) returns (other: seq<RecentStep>)
    requires OfKinds(steps, kinds) && Ambiguous(steps, kinds)
    ensures OfKinds(other, kinds) && |other| == |steps| && other != steps && StepDigest(other) == StepDigest(steps)
  {
    var j :| 0 <= j < |steps| && SpellsStep(steps[j], kinds);
    var k, i :| k in kinds && 0 <= i < |steps[j].text| && SpellsStepAt(steps[j].text, i, k);
    hide StepDigest, SpellsStepAt;
    if j + 1 < |steps| {
      other := ShiftedForward(steps, j, i, k);
    } else {
      other := ShiftedBack(steps, i, k);
    }
  }

  lemma MergedLine(s: RecentStep, t: RecentStep)
    ensures Line(RecentStep(s.kind, s.text + ['|'] + Line(t))) == Line(s) + ['|'] + Line(t)
  {
  }

  lemma Regrouped(a: string, b: string, c: string)
    ensures a + ['|'] + b + ['|'] + c == a + ['|'] + (b + ['|'] + c)
  {
  }

  // ----- whole records -----

  lemma FingerprintTells(a: Job, b: Job, kinds: set<string>)
    requires Words(kinds) && OfKinds(a.recentSteps, kinds) && OfKinds(b.recentSteps, kinds) && !Ambiguous(a.recentSteps, kinds)
    ensures FingerprintOf(a) == FingerprintOf(b) <==> LooksSame(a, b)
  {
    if FingerprintOf(a) == FingerprintOf(b) {
      UnambiguousShow(a.recentSteps, b.recentSteps, kinds);
    }
    hide StepDigest, OfKinds, Ambiguous, Words;
  }

  predicate KnownByFingerprint(a: Job, b: Job) {
    FingerprintOf(b) == FingerprintOf(a) ==> LooksSame(a, b)
  }

  /** When a record's fingerprint tells it from every record that looks different: exactly if it has at most one step or no step text
      spells another step, that is has a bar followed by a kind of step and a colon. */
  lemma FingerprintTellsExactly(a: Job, kinds: set<string>)
    requires Words(kinds) && OfKinds(a.recentSteps, kinds)
    ensures (forall b: Job :: OfKinds(b.recentSteps, kinds) ==> KnownByFingerprint(a, b)) <==> !Ambiguous(a.recentSteps, kinds)
  {
    if Ambiguous(a.recentSteps, kinds) {
      var steps := AmbiguousHides(a.recentSteps, kinds);
      var b := a.(recentSteps := steps);
      assert OfKinds(b.recentSteps, kinds) && !KnownByFingerprint(a, b);
    } else {
      forall b: Job | OfKinds(b.recentSteps, kinds) ensures KnownByFingerprint(a, b) {
        FingerprintTells(a, b, kinds);
      }
    }
    hide StepDigest, Ambiguous, OfKinds;
  }
}
