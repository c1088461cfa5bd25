/**
 * Python's `re` engine is not modelled: it is a parameter. Every component receives an
 * `Engine` and its pattern tables hold the source text of each regular expression, verbatim,
 * together with the flags the component compiles it with.
 */
module Regex {

  datatype Flags = Flags(ignoreCase: bool, multiline: bool, dotAll: bool)

  /** A compiled pattern: its source text and its flags. */
  datatype Pattern = Pattern(source: string, flags: Flags)

  /** One match as `re.findall` sees it: the matched text and the capturing groups ("" if unmatched). */
  datatype Match = Match(text: string, groups: seq<string>)

  /**
   * The regular-expression engine.
   * `findAll(p, s)` lists the non-overlapping matches of `p` in `s`, left to right;
   * `sub(p, s, repl)` is `p.sub(repl, s)` with the template `repl` (which may use `\1`...).
   */
  datatype Engine = Engine(
    findAll: (Pattern, string) -> seq<Match>,
    sub: (Pattern, string, string) -> string)

  const NoFlags := Flags(false, false, false)
  const IgnoreCase := Flags(true, false, false)
  const IgnoreCaseMultiline := Flags(true, true, false)

  /** `re.compile(src)` */
  function Plain(src: string): Pattern { Pattern(src, NoFlags) }

  /** `re.compile(src, re.IGNORECASE)` */
  function I(src: string): Pattern { Pattern(src, IgnoreCase) }

  /** `re.compile(src, re.IGNORECASE | re.MULTILINE)` */
  function IM(src: string): Pattern { Pattern(src, IgnoreCaseMultiline) }

  /** `p.search(s) is not None`: some match exists exactly when `findall` lists one. */
  predicate Search(e: Engine, p: Pattern, s: string) {
    |e.findAll(p, s)| > 0
  }

  /**
   * What `re.findall` reports for a match: the whole text without groups, the group with one.
   * With two or more groups `findall` reports the tuple of all of them; this function gives
   * only the first.
   */
  function Reported(m: Match): string {
    if |m.groups| == 0 then m.text else m.groups[0]
  }

  function ReportedAll(ms: seq<Match>): (r: seq<string>)
    ensures |r| == |ms|
  {
    if |ms| == 0 then [] else [Reported(ms[0])] + ReportedAll(ms[1..])
  }

  /** Some pattern of `ps` matches somewhere in `s`. */
  predicate AnySearch(e: Engine, ps: seq<Pattern>, s: string) {
    exists i :: 0 <= i < |ps| && Search(e, ps[i], s)
  }

  /** How many patterns of `ps` match somewhere in `s` (`sum(1 for p in ps if p.search(s))`). */
  function CountSearch(e: Engine, ps: seq<Pattern>, s: string): (r: nat)
    ensures r <= |ps|
    ensures r == 0 <==> !AnySearch(e, ps, s)
  {
    if |ps| == 0 then 0
    else
      var rest := CountSearch(e, ps[1..], s);
      assert forall i :: 1 <= i < |ps| ==> ps[i] == ps[1..][i - 1];
      (if Search(e, ps[0], s) then 1 else 0) + rest
  }

  /** The index of the first pattern of `ps` that matches in `s`, if any. */
  function FirstSearch(e: Engine, ps: seq<Pattern>, s: string): (r: int)
    ensures -1 <= r < |ps|
    ensures r >= 0 ==> Search(e, ps[r], s) && forall j :: 0 <= j < r ==> !Search(e, ps[j], s)
    ensures r < 0 <==> !AnySearch(e, ps, s)
  {
    if |ps| == 0 then -1
    else if Search(e, ps[0], s) then 0
    else
      var k := FirstSearch(e, ps[1..], s);
      assert forall i :: 1 <= i < |ps| ==> ps[i] == ps[1..][i - 1];
      if k < 0 then -1 else k + 1
  }

  /** `for p, repl in pairs: s = p.sub(repl, s)` */
  function SubEach(e: Engine, pairs: seq<(Pattern, string)>, s: string): string
    decreases |pairs|
  {
    if |pairs| == 0 then s
    else SubEach(e, pairs[1..], e.sub(pairs[0].0, s, pairs[0].1))
  }

  /** An engine whose substitution changes nothing where its search finds nothing. */
  ghost predicate SubFaithful(e: Engine) {
    forall p, s, repl :: !Search(e, p, s) ==> e.sub(p, s, repl) == s
  }

  /** With a faithful engine, a text no pattern matches passes through `SubEach` unchanged. */
  lemma {:induction false} SubEachNoMatch(e: Engine, pairs: seq<(Pattern, string)>, s: string)
    requires SubFaithful(e)
    requires forall i :: 0 <= i < |pairs| ==> !Search(e, pairs[i].0, s)
    ensures SubEach(e, pairs, s) == s
    decreases |pairs|
  {
    if |pairs| > 0 {
      assert e.sub(pairs[0].0, s, pairs[0].1) == s;
      assert forall i :: 0 <= i < |pairs[1..]| ==> pairs[1..][i] == pairs[i + 1];
      SubEachNoMatch(e, pairs[1..], s);
    }
  }
}
