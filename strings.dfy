/** The Python `str` operations the components rely on, written out on `seq<char>`. */
module Strings {

  /** The characters for which Python's `str.isspace()` holds; also what `\s` matches in a `str` pattern. */
  predicate IsSpace(c: char) {
    c == ' ' || ('\t' <= c <= '\r') || ('\U{001C}' <= c <= '\U{001F}') || c == '\U{0085}'
    || c == '\U{00A0}' || c == '\U{1680}' || ('\U{2000}' <= c <= '\U{200A}') || c == '\U{2028}'
    || c == '\U{2029}' || c == '\U{202F}' || c == '\U{205F}' || c == '\U{3000}'
  }

  predicate IsDigit(c: char) { '0' <= c <= '9' }

  predicate IsAsciiLetter(c: char) { 'a' <= c <= 'z' || 'A' <= c <= 'Z' }

  predicate IsAlnum(c: char) { IsAsciiLetter(c) || IsDigit(c) }

  function LowerChar(c: char): char {
    if 'A' <= c <= 'Z' then (c as int + 32) as char else c
  }

  function UpperChar(c: char): char {
    if 'a' <= c <= 'z' then (c as int - 32) as char else c
  }

  /** `s.lower()` on the ASCII letters. */
  function Lower(s: string): string {
    seq(|s|, i requires 0 <= i < |s| => LowerChar(s[i]))
  }

  /** `s.upper()` on the ASCII letters. */
  function Upper(s: string): string {
    seq(|s|, i requires 0 <= i < |s| => UpperChar(s[i]))
  }

  predicate IsLowered(s: string) {
    forall i :: 0 <= i < |s| ==> LowerChar(s[i]) == s[i]
  }

  lemma LowerIsLowered(s: string)
    ensures IsLowered(Lower(s))
  {
  }

  lemma LowerAppend(a: string, b: string)
    ensures Lower(a + b) == Lower(a) + Lower(b)
  {
  }

  lemma LoweredFixed(s: string)
    requires IsLowered(s)
    ensures Lower(s) == s
  {
  }

  /** `s.startswith(p)` */
  predicate StartsWith(s: string, p: string) {
    |p| <= |s| && s[..|p|] == p
  }

  /** `s.endswith(p)` */
  predicate EndsWith(s: string, p: string) {
    |p| <= |s| && s[|s| - |p|..] == p
  }

  /** `p in s`: `p` occurs somewhere in `s` (the empty string occurs everywhere). */
  predicate Contains(s: string, p: string)
    decreases |s|
  {
    StartsWith(s, p) || (|s| > 0 && Contains(s[1..], p))
  }

  /** `p` occurs in `s` at index `i`. */
  predicate OccursAt(s: string, p: string, i: int) {
    0 <= i && i + |p| <= |s| && s[i..i + |p|] == p
  }

  /** `s.find(p)`: the first index where `p` occurs, or -1. */
  function Find(s: string, p: string): (r: int)
    ensures -1 <= r <= |s|
    decreases |s|
  {
    if StartsWith(s, p) then 0
    else if |s| == 0 then -1
    else var k := Find(s[1..], p); if k < 0 then -1 else k + 1
  }

  /** `Find` returns the first occurrence, and -1 exactly when there is none. */
  lemma {:induction false} FindIsFirst(s: string, p: string)
    ensures Find(s, p) >= 0 ==> OccursAt(s, p, Find(s, p))
    ensures Find(s, p) >= 0 ==> forall j :: 0 <= j < Find(s, p) ==> !OccursAt(s, p, j)
    ensures Find(s, p) < 0 <==> !Contains(s, p)
    ensures Find(s, p) < 0 ==> forall j :: !OccursAt(s, p, j)
    decreases |s|
  {
    assert OccursAt(s, p, 0) == StartsWith(s, p);
    if !StartsWith(s, p) && |s| > 0 {
      FindIsFirst(s[1..], p);
      forall j | j > 0
        ensures OccursAt(s, p, j) == OccursAt(s[1..], p, j - 1)
      {
        if j + |p| <= |s| {
          assert s[1..][j - 1..j - 1 + |p|] == s[j..j + |p|];
        }
      }
    }
  }

  /** An occurrence at a known index means `Contains`. */
  lemma {:induction false} OccursAtContains(s: string, p: string, i: int)
    requires OccursAt(s, p, i)
    ensures Contains(s, p)
    decreases i
  {
    if i == 0 {
      assert StartsWith(s, p);
    } else {
      assert s[1..][i - 1..i - 1 + |p|] == s[i..i + |p|];
      OccursAtContains(s[1..], p, i - 1);
    }
  }

  /** An occurrence inside `b` is an occurrence inside `a + b`. */
  lemma ContainsInSuffix(a: string, b: string, p: string)
    requires Contains(b, p)
    ensures Contains(a + b, p)
  {
    FindIsFirst(b, p);
    var k := Find(b, p);
    assert (a + b)[|a| + k..|a| + k + |p|] == b[k..k + |p|];
    OccursAtContains(a + b, p, |a| + k);
  }

  /** An occurrence inside `a` is an occurrence inside `a + b`. */
  lemma ContainsInPrefix(a: string, b: string, p: string)
    requires Contains(a, p)
    ensures Contains(a + b, p)
  {
    FindIsFirst(a, p);
    var k := Find(a, p);
    assert (a + b)[k..k + |p|] == a[k..k + |p|];
    OccursAtContains(a + b, p, k);
  }

  /** An occurrence inside a slice of `s` is an occurrence inside `s`. */
  lemma ContainsInSlice(s: string, i: int, j: int, p: string)
    requires 0 <= i <= j <= |s| && Contains(s[i..j], p)
    ensures Contains(s, p)
  {
    var t := s[i..j];
    FindIsFirst(t, p);
    var k := Find(t, p);
    assert 0 <= k && k + |p| <= |t| && t[k..k + |p|] == p;
    forall m | 0 <= m < |p|
      ensures s[i + k..i + k + |p|][m] == p[m]
    {
      assert s[i + k..i + k + |p|][m] == s[i + k + m] == t[k + m] == t[k..k + |p|][m];
    }
    assert s[i + k..i + k + |p|] == p;
    OccursAtContains(s, p, i + k);
  }

  /** `s[:n]` */
  function Take<T>(s: seq<T>, n: nat): (r: seq<T>)
    ensures |r| <= n && |r| <= |s| && r == s[..|r|]
    ensures |s| <= n ==> r == s
  {
    if n >= |s| then s else s[..n]
  }

  /** `s.replace(p, r)` for a non-empty `p`: every non-overlapping occurrence, left to right. */
  function ReplaceAll(s: string, p: string, r: string): string
    requires |p| > 0
    decreases |s|
  {
    if |s| == 0 then s
    else if StartsWith(s, p) then r + ReplaceAll(s[|p|..], p, r)
    else [s[0]] + ReplaceAll(s[1..], p, r)
  }

  /** `str.replace` leaves a string without occurrences untouched. */
  lemma {:induction false} ReplaceAllAbsent(s: string, p: string, r: string)
    requires |p| > 0 && !Contains(s, p)
    ensures ReplaceAll(s, p, r) == s
    decreases |s|
  {
    if |s| > 0 {
      ReplaceAllAbsent(s[1..], p, r);
      assert [s[0]] + s[1..] == s;
    }
  }

  /** Deleting `p` never lengthens a string, and shortens it when `p` occurs. */
  lemma {:induction false} DeleteShortens(s: string, p: string)
    requires |p| > 0
    ensures |ReplaceAll(s, p, "")| <= |s|
    ensures Contains(s, p) ==> |ReplaceAll(s, p, "")| < |s|
    decreases |s|
  {
    if |s| > 0 {
      if StartsWith(s, p) {
        DeleteShortens(s[|p|..], p);
      } else {
        DeleteShortens(s[1..], p);
      }
    }
  }

  /** Deleting a single character removes every occurrence of it. */
  lemma {:induction false} DeleteCharRemoves(s: string, c: char)
    ensures c !in ReplaceAll(s, [c], "")
    decreases |s|
  {
    if |s| > 0 {
      DeleteCharRemoves(s[1..], c);
    }
  }

  /** Replacing a single character by a string free of a character `d` introduces no `d`. */
  lemma {:induction false} ReplaceCharKeepsOut(s: string, c: char, r: string, d: char)
    requires d !in s || d == c
    requires d !in r
    ensures d !in ReplaceAll(s, [c], r)
    decreases |s|
  {
    if |s| > 0 {
      ReplaceCharKeepsOut(s[1..], c, r, d);
      if s[0] != c {
        assert s[0] != d;
      }
    }
  }

  /** Every character of `s.replace(p, r)` comes from `s` or from `r`. */
  lemma {:induction false} ReplaceAllChars(s: string, p: string, r: string)
    requires |p| > 0
    ensures forall c :: c in ReplaceAll(s, p, r) ==> c in s || c in r
    decreases |s|
  {
    if |s| > 0 {
      if StartsWith(s, p) {
        ReplaceAllChars(s[|p|..], p, r);
      } else {
        ReplaceAllChars(s[1..], p, r);
      }
    }
  }

  /** A string can only occur where all of its characters occur. */
  lemma {:induction false} ContainsChars(s: string, p: string)
    requires Contains(s, p)
    ensures forall c :: c in p ==> c in s
    decreases |s|
  {
    if !StartsWith(s, p) {
      ContainsChars(s[1..], p);
    } else {
      assert forall c :: c in p ==> c in s[..|p|];
    }
  }

  /** `s.count(p)` for a non-empty `p`: non-overlapping occurrences, left to right. */
  function Count(s: string, p: string): nat
    requires |p| > 0
    decreases |s|
  {
    if |s| == 0 then 0
    else if StartsWith(s, p) then 1 + Count(s[|p|..], p)
    else Count(s[1..], p)
  }

  /** The counted occurrences do not overlap, so they fit in the text. */
  lemma {:induction false} CountBound(s: string, p: string)
    requires |p| > 0
    ensures Count(s, p) * |p| <= |s|
    decreases |s|
  {
    if |s| > 0 {
      if StartsWith(s, p) {
        CountBound(s[|p|..], p);
        OneMore(Count(s[|p|..], p), |p|, |s| - |p|);
      } else {
        CountBound(s[1..], p);
      }
    }
  }

  lemma OneMore(k: int, n: int, m: int)
    requires k * n <= m
    ensures (1 + k) * n <= n + m
  {
    assert (1 + k) * n == n + k * n;
  }

  /** Nothing is counted exactly when `p` does not occur. */
  lemma {:induction false} CountZero(s: string, p: string)
    requires |p| > 0
    ensures Count(s, p) == 0 <==> !Contains(s, p)
    decreases |s|
  {
    if |s| > 0 && !StartsWith(s, p) {
      CountZero(s[1..], p);
    }
  }

  /** `s.lstrip()` */
  function StripLeft(s: string): (r: string)
    ensures |r| <= |s| && r == s[|s| - |r|..]
    ensures r == [] || !IsSpace(r[0])
    decreases |s|
  {
    if |s| > 0 && IsSpace(s[0]) then StripLeft(s[1..]) else s
  }

  /** `s.rstrip()` */
  function StripRight(s: string): (r: string)
    ensures |r| <= |s| && r == s[..|r|]
    ensures r == [] || !IsSpace(r[|r| - 1])
    decreases |s|
  {
    if |s| > 0 && IsSpace(s[|s| - 1]) then StripRight(s[..|s| - 1]) else s
  }

  /** `s.strip()` */
  function Strip(s: string): string {
    StripRight(StripLeft(s))
  }

  /** The longest prefix of `s` without whitespace. */
  function TakeWord(s: string): (r: string)
    ensures |r| <= |s| && r == s[..|r|]
    ensures forall c :: c in r ==> !IsSpace(c)
    ensures |r| < |s| ==> IsSpace(s[|r|])
    decreases |s|
  {
    if |s| == 0 || IsSpace(s[0]) then "" else [s[0]] + TakeWord(s[1..])
  }

  predicate IsWord(w: string) {
    |w| > 0 && forall c :: c in w ==> !IsSpace(c)
  }

  /** `s.split()`: the maximal runs of non-whitespace characters. */
  function Words(s: string): (r: seq<string>)
    ensures forall w :: w in r ==> IsWord(w)
    decreases |s|
  {
    var t := StripLeft(s);
    if |t| == 0 then []
    else
      var w := TakeWord(t);
      [w] + Words(t[|w|..])
  }

  /** `sep.join(ws)` */
  function Join(sep: string, ws: seq<string>): string {
    if |ws| == 0 then ""
    else if |ws| == 1 then ws[0]
    else ws[0] + sep + Join(sep, ws[1..])
  }

  /** Every character of a word of `s` is a character of `s`. */
  lemma {:induction false} WordsChars(s: string)
    ensures forall w, c :: w in Words(s) && c in w ==> c in s
    decreases |s|
  {
    var t := StripLeft(s);
    if |t| > 0 {
      var w := TakeWord(t);
      WordsChars(t[|w|..]);
      assert Words(s) == [w] + Words(t[|w|..]);
      forall v, c | v in Words(s) && c in v ensures c in s {
        if v == w {
          assert c in t;
        } else {
          assert v in Words(t[|w|..]);
          assert c in t[|w|..];
        }
      }
    }
  }

  lemma StripLeftOfWordStart(s: string)
    requires |s| > 0 && !IsSpace(s[0])
    ensures StripLeft(s) == s
  {
  }

  lemma {:induction false} TakeWordOfWord(w: string, rest: string)
    requires forall c :: c in w ==> !IsSpace(c)
    requires |rest| == 0 || IsSpace(rest[0])
    ensures TakeWord(w + rest) == w
    decreases |w|
  {
    if |w| > 0 {
      assert (w + rest)[1..] == w[1..] + rest;
      TakeWordOfWord(w[1..], rest);
    } else {
      assert w + rest == rest;
    }
  }

  /** Splitting a space-joined list of words gives the words back. */
  lemma {:induction false} WordsOfJoin(ws: seq<string>)
    requires forall i :: 0 <= i < |ws| ==> IsWord(ws[i])
    ensures Words(Join(" ", ws)) == ws
    decreases |ws|
  {
    if |ws| == 1 {
      WordsOfWord(ws[0], "");
      Unsplit(ws[0], "");
    } else if |ws| > 1 {
      WordsOfJoin(ws[1..]);
      JoinStartsWithWord(ws[1..]);
      WordsOfJoinStep(ws[0], Join(" ", ws[1..]), ws[1..]);
      Unsplit(ws, []);
    }
  }

  /** The inductive step of `WordsOfJoin`: a word in front of text that starts with a word. */
  lemma WordsOfJoinStep(w: string, j: string, rest: seq<string>)
    requires IsWord(w) && |j| > 0 && !IsSpace(j[0])
    requires Words(j) == rest
    ensures Words(w + " " + j) == [w] + rest
  {
    Reassociate(w, " ", j);
    WordsOfWord(w, " " + j);
    WordsAfterSpace(j);
  }

  /** A sequence is its head followed by its tail, and is unchanged by appending nothing. */
  lemma Unsplit<T>(s: seq<T>, nothing: seq<T>)
    requires |nothing| == 0
    ensures s + nothing == s
    ensures |s| > 0 ==> [s[0]] + s[1..] == s
  {
  }

  lemma Reassociate(a: string, b: string, c: string)
    ensures a + b + c == a + (b + c)
  {
  }

  /** A word followed by nothing or by whitespace is the first word. */
  lemma WordsOfWord(w: string, rest: string)
    requires IsWord(w)
    requires |rest| == 0 || IsSpace(rest[0])
    ensures Words(w + rest) == [w] + Words(rest)
  {
    var s := w + rest;
    assert |s| > 0 && !IsSpace(s[0]) by {
      assert s[0] == w[0] && w[0] in w;
    }
    StripLeftOfWordStart(s);
    TakeWordOfWord(w, rest);
    assert Words(s) == [w] + Words(s[|w|..]);
    assert s[|w|..] == rest;
  }

  /** A space before text that starts with a word does not change its words. */
  lemma WordsAfterSpace(j: string)
    requires |j| > 0 && !IsSpace(j[0])
    ensures Words(" " + j) == Words(j)
  {
    assert (" " + j)[1..] == j;
    StripLeftOfWordStart(j);
  }

  lemma JoinStartsWithWord(ws: seq<string>)
    requires |ws| > 0 && forall i :: 0 <= i < |ws| ==> IsWord(ws[i])
    ensures |Join(" ", ws)| > 0 && !IsSpace(Join(" ", ws)[0])
  {
    assert ws[0][0] in ws[0];
    if |ws| > 1 {
      assert Join(" ", ws) == ws[0] + " " + Join(" ", ws[1..]);
      assert Join(" ", ws)[0] == ws[0][0];
    }
  }

  /** `' '.join(s.lower().split())`: lower-cased, whitespace collapsed to single spaces. */
  function Normalize(s: string): string {
    Join(" ", Words(Lower(s)))
  }

  lemma {:induction false} LowerJoinOfLowered(ws: seq<string>)
    requires forall w :: w in ws ==> IsLowered(w)
    ensures IsLowered(Join(" ", ws))
    decreases |ws|
  {
    if |ws| > 1 {
      LowerJoinOfLowered(ws[1..]);
      var a := ws[0];
      assert ws[0] in ws;
      var j := Join(" ", ws[1..]);
      assert Join(" ", ws) == a + " " + j;
      forall i | 0 <= i < |a + " " + j|
        ensures LowerChar((a + " " + j)[i]) == (a + " " + j)[i]
      {
        if i < |a| {
          assert (a + " " + j)[i] == a[i];
        } else if i == |a| {
        } else {
          assert (a + " " + j)[i] == j[i - |a| - 1];
        }
      }
    } else if |ws| == 1 {
      assert ws[0] in ws;
    }
  }

  /** Normalising twice is normalising once. */
  lemma NormalizeIdempotent(s: string)
    ensures Normalize(Normalize(s)) == Normalize(s)
  {
    var ws := Words(Lower(s));
    LowerIsLowered(s);
    WordsChars(Lower(s));
    forall w | w in ws ensures IsLowered(w) {
      forall i | 0 <= i < |w| ensures LowerChar(w[i]) == w[i] {
        assert w[i] in w;
        assert w[i] in Lower(s);
      }
    }
    LowerJoinOfLowered(ws);
    LoweredFixed(Join(" ", ws));
    assert forall i :: 0 <= i < |ws| ==> ws[i] in ws;
    WordsOfJoin(ws);
  }

  /** The decimal representation of a natural number, as `str(n)`. */
  function NatToString(n: nat): (r: string)
    ensures |r| > 0
    ensures forall c :: c in r ==> IsDigit(c)
  {
    if n < 10 then [(n + '0' as int) as char]
    else NatToString(n / 10) + [((n % 10) + '0' as int) as char]
  }

  /** `str(i)` for any integer. */
  function IntToString(i: int): (r: string)
    ensures |r| > 0
    ensures i >= 0 ==> r == NatToString(i)
  {
    if i < 0 then "-" + NatToString(-i) else NatToString(i)
  }

  /** `int(s)` for a string of ASCII digits (the empty string counting as 0). */
  function DigitsValue(s: string): (n: nat)
    requires forall c :: c in s ==> IsDigit(c)
  {
    if |s| == 0 then 0
    else
      assert forall c :: c in s[..|s| - 1] ==> c in s;
      assert IsDigit(s[|s| - 1]);
      DigitsValue(s[..|s| - 1]) * 10 + (s[|s| - 1] as int - '0' as int)
  }

  /** Reading back the decimal representation of a number gives the number. */
  lemma {:induction false} DigitsValueOfNatToString(n: nat)
    ensures DigitsValue(NatToString(n)) == n
  {
    var s := NatToString(n);
    if n >= 10 {
      var p := NatToString(n / 10);
      assert s[..|s| - 1] == p;
      DigitsValueOfNatToString(n / 10);
    } else {
      assert s[..|s| - 1] == [];
    }
  }

  /** Order-preserving removal of repeated elements (a stand-in for `list(set(xs))`). */
  function Dedup<T(==,!new)>(xs: seq<T>): (r: seq<T>)
    ensures forall x :: x in r <==> x in xs
    ensures forall i, j :: 0 <= i < j < |r| ==> r[i] != r[j]
    ensures |r| <= |xs|
  {
    if |xs| == 0 then []
    else
      var rest := Dedup(xs[..|xs| - 1]);
      if xs[|xs| - 1] in rest then rest else rest + [xs[|xs| - 1]]
  }

  /** `s[::-1]` */
  function Reverse<T>(s: seq<T>): (r: seq<T>)
    ensures |r| == |s|
    ensures forall i :: 0 <= i < |s| ==> r[i] == s[|s| - 1 - i]
  {
    if |s| == 0 then [] else Reverse(s[1..]) + [s[0]]
  }

  /** Reversal is an involution. */
  lemma ReverseInvolution<T>(s: seq<T>)
    ensures Reverse(Reverse(s)) == s
  {
  }

  /** `s.split(sep, 1)`: the part before the first `sep` and, if there is one, the part after. */
  function SplitOnce(s: string, sep: char): (r: (string, string, bool))
    ensures r.2 ==> s == r.0 + [sep] + r.1 && sep !in r.0
    ensures !r.2 ==> r.0 == s && sep !in s
  {
    if sep in s then
      var i := FirstIndex(s, sep);
      (s[..i], s[i + 1..], true)
    else (s, "", false)
  }

  function FirstIndex(s: string, c: char): (i: nat)
    requires c in s
    ensures i < |s| && s[i] == c && c !in s[..i]
  {
    if s[0] == c then 0 else 1 + FirstIndex(s[1..], c)
  }

  /** `s.split(sep)` for a single-character separator: never empty. */
  function SplitOn(s: string, sep: char): (r: seq<string>)
    ensures |r| >= 1
    ensures forall p :: p in r ==> sep !in p
    decreases |s|
  {
    var (a, b, found) := SplitOnce(s, sep);
    if found then [a] + SplitOn(b, sep) else [s]
  }

  /** Splitting on `sep` and joining with `sep` gives the string back. */
  lemma {:induction false} JoinSplitOn(s: string, sep: char)
    ensures Join([sep], SplitOn(s, sep)) == s
    decreases |s|
  {
    var (a, b, found) := SplitOnce(s, sep);
    if found {
      JoinSplitOn(b, sep);
      var rest := SplitOn(b, sep);
      assert SplitOn(s, sep) == [a] + rest;
      assert ([a] + rest)[1..] == rest;
    }
  }

  /** The messages whose flag is set, in order. */
  function Selected(flags: seq<bool>, msgs: seq<string>): (r: seq<string>)
    requires |flags| == |msgs|
    ensures |r| <= |msgs|
  {
    if |flags| == 0 then []
    else (if flags[0] then [msgs[0]] else []) + Selected(flags[1..], msgs[1..])
  }

  /** With distinct messages, a message is selected exactly when its flag is set. */
  lemma {:induction false} SelectedMeaning(flags: seq<bool>, msgs: seq<string>, i: int)
    requires |flags| == |msgs| && 0 <= i < |msgs|
    requires forall j, k :: 0 <= j < k < |msgs| ==> msgs[j] != msgs[k]
    ensures msgs[i] in Selected(flags, msgs) <==> flags[i]
  {
    if i > 0 {
      SelectedMeaning(flags[1..], msgs[1..], i - 1);
      assert msgs[i] == msgs[1..][i - 1];
      assert msgs[0] != msgs[i];
    } else {
      SelectedAbsent(flags[1..], msgs[1..], msgs[0]);
    }
  }

  lemma {:induction false} SelectedAbsent(flags: seq<bool>, msgs: seq<string>, m: string)
    requires |flags| == |msgs| && m !in msgs
    ensures m !in Selected(flags, msgs)
  {
    if |flags| > 0 {
      assert msgs[0] in msgs;
      assert forall x :: x in msgs[1..] ==> x in msgs;
      SelectedAbsent(flags[1..], msgs[1..], m);
    }
  }

  /** Selecting from two lists one after the other. */
  lemma {:induction false} SelectedAppend(f1: seq<bool>, m1: seq<string>, f2: seq<bool>, m2: seq<string>)
    requires |f1| == |m1| && |f2| == |m2|
    ensures Selected(f1 + f2, m1 + m2) == Selected(f1, m1) + Selected(f2, m2)
  {
    if |f1| > 0 {
      assert (f1 + f2)[1..] == f1[1..] + f2;
      assert (m1 + m2)[1..] == m1[1..] + m2;
      SelectedAppend(f1[1..], m1[1..], f2, m2);
    } else {
      assert f1 + f2 == f2 && m1 + m2 == m2;
    }
  }

  /** With every flag set, every message is selected, in order; with none set, none is. */
  lemma {:induction false} SelectedUniform(flags: seq<bool>, msgs: seq<string>, b: bool)
    requires |flags| == |msgs|
    requires forall i :: 0 <= i < |flags| ==> flags[i] == b
    ensures Selected(flags, msgs) == if b then msgs else []
  {
    if |flags| > 0 {
      SelectedUniform(flags[1..], msgs[1..], b);
      if b {
        assert [msgs[0]] + msgs[1..] == msgs;
      }
    }
  }
}
