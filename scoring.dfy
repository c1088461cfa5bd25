/**
 * The risk vocabulary the gates share: the levels "none" < "low" < "medium" < "high" <
 * "critical", the score table {"low": 1, "medium": 2, "high": 3, "critical": 4}, and the rule
 * that turns a list of scores into a level.
 */
module Scoring {
  import opened Wrappers

  datatype Risk = NoRisk | Low | Medium | High | Critical
  {
    /** The level as the components print it. */
    function Name(): string {
      match this
      case NoRisk => "none"
      case Low => "low"
      case Medium => "medium"
      case High => "high"
      case Critical => "critical"
    }
  }

  /** The score of a level; "none" scores 0. */
  function Score(r: Risk): nat {
    match r
    case NoRisk => 0
    case Low => 1
    case Medium => 2
    case High => 3
    case Critical => 4
  }

  /** The level named by a string, if it is one of the five. */
  function ParseRisk(s: string): (r: Option<Risk>)
    ensures r.Some? ==> r.value.Name() == s
  {
    if s == "none" then Some(NoRisk)
    else if s == "low" then Some(Low)
    else if s == "medium" then Some(Medium)
    else if s == "high" then Some(High)
    else if s == "critical" then Some(Critical)
    else None
  }

  lemma ParseName(r: Risk)
    ensures ParseRisk(r.Name()) == Some(r)
  {
  }

  /** The higher of two levels. */
  function MaxRisk(a: Risk, b: Risk): (r: Risk)
    ensures Score(r) >= Score(a) && Score(r) >= Score(b)
    ensures r == a || r == b
  {
    if Score(a) >= Score(b) then a else b
  }

  /**
   * The banding of a real risk score that the trackers share: "high" from 0.7, "medium" from
   * 0.4, "low" from 0.2 and "none" below.
   */
  function Banded(score: real): (r: Risk)
    ensures r != Critical
    ensures r == High <==> score >= 0.7
    ensures r == Medium <==> 0.4 <= score < 0.7
    ensures r == Low <==> 0.2 <= score < 0.4
    ensures r == NoRisk <==> score < 0.2
  {
    if score >= 0.7 then High
    else if score >= 0.4 then Medium
    else if score >= 0.2 then Low
    else NoRisk
  }

  /** A higher score never gives a lower band. */
  lemma BandedMonotone(a: real, b: real)
    requires a <= b
    ensures Score(Banded(a)) <= Score(Banded(b))
  {
  }

  /** `max(xs)` */
  function Max(xs: seq<int>): (m: int)
    requires |xs| > 0
    ensures m in xs
    ensures forall i :: 0 <= i < |xs| ==> xs[i] <= m
  {
    if |xs| == 1 then xs[0]
    else
      var rest := Max(xs[1..]);
      assert forall i :: 1 <= i < |xs| ==> xs[i] == xs[1..][i - 1];
      if xs[0] >= rest then xs[0] else rest
  }

  /** Some score reaches `t`. */
  predicate SomeAtLeast(scores: seq<int>, t: int) {
    exists i :: 0 <= i < |scores| && scores[i] >= t
  }

  lemma SomeAtLeastAppend(a: seq<int>, b: seq<int>, t: int)
    ensures SomeAtLeast(a + b, t) <==> SomeAtLeast(a, t) || SomeAtLeast(b, t)
  {
    if SomeAtLeast(a, t) {
      var i :| 0 <= i < |a| && a[i] >= t;
      assert (a + b)[i] == a[i];
    }
    if SomeAtLeast(b, t) {
      var i :| 0 <= i < |b| && b[i] >= t;
      assert (a + b)[|a| + i] == b[i];
    }
    if SomeAtLeast(a + b, t) {
      var i :| 0 <= i < |a + b| && (a + b)[i] >= t;
      if i >= |a| { assert b[i - |a|] == (a + b)[i]; } else { assert a[i] == (a + b)[i]; }
    }
  }

  /**
   * The three-level rule: no score gives "none"; otherwise the maximum score gives "high" from 3,
   * "medium" from 2 and "low" below.
   */
  function Level3(scores: seq<int>): (r: Risk)
    ensures r != Critical
    ensures r == NoRisk <==> |scores| == 0
    ensures r == High <==> SomeAtLeast(scores, 3)
    ensures r == Medium <==> SomeAtLeast(scores, 2) && !SomeAtLeast(scores, 3)
    ensures r == Low <==> |scores| > 0 && !SomeAtLeast(scores, 2)
  {
    if |scores| == 0 then NoRisk
    else
      var m := Max(scores);
      if m >= 3 then High else if m >= 2 then Medium else Low
  }

  /** The four-level rule: as `Level3`, with "critical" from 4. */
  function Level4(scores: seq<int>): (r: Risk)
    ensures r == NoRisk <==> |scores| == 0
    ensures r == Critical <==> SomeAtLeast(scores, 4)
    ensures r == High <==> SomeAtLeast(scores, 3) && !SomeAtLeast(scores, 4)
    ensures r == Medium <==> SomeAtLeast(scores, 2) && !SomeAtLeast(scores, 3)
    ensures r == Low <==> |scores| > 0 && !SomeAtLeast(scores, 2)
  {
    if |scores| == 0 then NoRisk
    else
      var m := Max(scores);
      if m >= 4 then Critical else if m >= 3 then High else if m >= 2 then Medium else Low
  }

  /**
   * The safety rule of the output and reputation scanners: "high" is unsafe, "medium" is safe
   * only outside strict mode, "low" and "none" are safe.
   */
  predicate StrictSafe(r: Risk, strict: bool) {
    r == NoRisk || r == Low || (r == Medium && !strict)
  }
}
