/**
 The demo screening provider: name normalisation and word-overlap similarity.
 The Unicode tables are a parameter; what the proofs need of them is stated once.
 */
module Names {
  import opened Collections

  /** Character classes and lower-casing. */
  datatype Tables = Tables(alnum: char -> bool, space: char -> bool, lower: char -> char)

  ghost predicate GoodTables(t: Tables) {
    && t.space(' ') && t.lower(' ') == ' '
    && (forall c :: t.lower(t.lower(c)) == t.lower(c))
    && (forall c :: t.alnum(t.lower(c)) == t.alnum(c) && t.space(t.lower(c)) == t.space(c))
    && (forall c :: !(t.alnum(c) && t.space(c)))
  }

  // ---------- split and join ----------

  function MapChar(t: Tables, c: char): char {
    if t.alnum(c) || t.space(c) then t.lower(c) else ' '
  }

  function Mapped(t: Tables, s: string): (m: string)
    ensures |m| == |s| && forall i :: 0 <= i < |s| ==> m[i] == MapChar(t, s[i])
  {
    seq(|s|, i requires 0 <= i < |s| => MapChar(t, s[i]))
  }

  /** Length of the word at the front. */
  function WordEnd(t: Tables, s: string): (n: nat)
    ensures n <= |s| && (forall i :: 0 <= i < n ==> !t.space(s[i])) && (n < |s| ==> t.space(s[n]))
  {
    if s == [] || t.space(s[0]) then 0 else 1 + WordEnd(t, s[1..])
  }

  /** The maximal runs of non-space characters. */
  function Fields(t: Tables, s: string): seq<string>
    decreases |s|
  {
    if s == [] then []
    else if t.space(s[0]) then Fields(t, s[1..])
    else [s[..WordEnd(t, s)]] + Fields(t, s[WordEnd(t, s)..])
  }

  function Join(words: seq<string>): string {
    if words == [] then ""
    else if |words| == 1 then words[0]
    else words[0] + " " + Join(words[1..])
  }

  predicate IsWord(t: Tables, w: string) {
    w != [] && forall i :: 0 <= i < |w| ==> !t.space(w[i])
  }

  predicate AreWords(t: Tables, words: seq<string>) {
    forall i :: 0 <= i < |words| ==> IsWord(t, words[i])
  }

  lemma {:induction false} FieldsAreWords(t: Tables, s: string)
    ensures AreWords(t, Fields(t, s))
    ensures forall i, c :: 0 <= i < |Fields(t, s)| && c in Fields(t, s)[i] ==> c in s
    decreases |s|
  {
    if s != [] {
      var n := if t.space(s[0]) then 1 else WordEnd(t, s);
      FieldsAreWords(t, s[n..]);
      assert s == s[..n] + s[n..];
    }
  }

  lemma {:induction false} WordEndOf(t: Tables, w: string, rest: string)
    requires forall i :: 0 <= i < |w| ==> !t.space(w[i])
    requires rest == [] || t.space(rest[0])
    ensures WordEnd(t, w + rest) == |w|
  {
    if w == [] {
      assert w + rest == rest;
    } else {
      assert (w + rest)[1..] == w[1..] + rest;
      WordEndOf(t, w[1..], rest);
    }
  }

  lemma {:induction false} FieldsOfWord(t: Tables, w: string, rest: string)
    requires IsWord(t, w) && (rest == [] || t.space(rest[0]))
    ensures Fields(t, w + rest) == [w] + Fields(t, rest)
  {
    WordEndOf(t, w, rest);
    assert (w + rest)[..|w|] == w && (w + rest)[|w|..] == rest;
  }

  /** Splitting undoes joining. */
  lemma {:induction false} FieldsOfJoin(t: Tables, words: seq<string>)
    requires t.space(' ') && AreWords(t, words)
    ensures Fields(t, Join(words)) == words
  {
    if |words| == 1 {
      FieldsOfWord(t, words[0], "");
      assert words[0] + "" == words[0];
    } else if |words| > 1 {
      FieldsOfJoin(t, words[1..]);
      var rest := " " + Join(words[1..]);
      FieldsOfWord(t, words[0], rest);
      assert words[0] + rest == words[0] + " " + Join(words[1..]);
      assert rest[1..] == Join(words[1..]);
    }
  }

  // ---------- normalisation ----------

  function Words(t: Tables, value: string): seq<string> {
    Fields(t, Mapped(t, value))
  }

  function Normalize(t: Tables, value: string): string {
    Join(Words(t, value))
  }

  lemma {:induction false} JoinChars(words: seq<string>, c: char)
    requires c in Join(words)
    ensures c == ' ' || exists i :: 0 <= i < |words| && c in words[i]
  {
    if |words| > 1 && c !in words[0] && c != ' ' {
      assert c in Join(words[1..]);
      JoinChars(words[1..], c);
      var i :| 0 <= i < |words[1..]| && c in words[1..][i];
      assert c in words[i + 1];
    } else if |words| >= 1 && c in words[0] {
    }
  }

  /** Every character of a normalised name maps to itself. */
  lemma {:induction false} NormalizedChar(t: Tables, value: string, c: char)
    requires GoodTables(t) && c in Normalize(t, value)
    ensures MapChar(t, c) == c
  {
    JoinChars(Words(t, value), c);
    if c != ' ' {
      var i :| 0 <= i < |Words(t, value)| && c in Words(t, value)[i];
      FieldsAreWords(t, Mapped(t, value));
      assert c in Mapped(t, value);
    }
  }

  /**
   Normalising is idempotent, its result is its own words joined by single spaces, and two names
   normalise alike exactly when their mapped words agree.
   */
  lemma {:induction false} NormalizeIsCanonical(t: Tables, value: string)
    requires GoodTables(t)
    ensures Normalize(t, Normalize(t, value)) == Normalize(t, value)
    ensures Join(Fields(t, Normalize(t, value))) == Normalize(t, value)
    ensures forall other :: Normalize(t, other) == Normalize(t, value) <==> Words(t, other) == Words(t, value)
  {
    var n := Normalize(t, value);
    FieldsAreWords(t, Mapped(t, value));
    FieldsOfJoin(t, Words(t, value));
    forall i | 0 <= i < |n| ensures Mapped(t, n)[i] == n[i] {
      NormalizedChar(t, value, n[i]);
    }
    assert Mapped(t, n) == n;
    forall other | Normalize(t, other) == n ensures Words(t, other) == Words(t, value) {
      FieldsAreWords(t, Mapped(t, other));
      FieldsOfJoin(t, Words(t, other));
    }
  }

  // ---------- what the words of a name are ----------

  lemma {:induction false} FieldsSplit(t: Tables, a: string, gap: char, b: string)
    requires t.space(gap)
    ensures Fields(t, a + [gap] + b) == Fields(t, a) + Fields(t, b)
    decreases |a|
  {
    var s := a + [gap] + b;
    if a == [] {
      assert s[1..] == b;
    } else if t.space(a[0]) {
      assert s[1..] == a[1..] + [gap] + b;
      FieldsSplit(t, a[1..], gap, b);
    } else {
      var n := WordEnd(t, a);
      WordEndBefore(t, a, gap, b);
      CutBeforeGap(a, gap, b, n);
      FieldsSplit(t, a[n..], gap, b);
    }
  }

  lemma {:induction false} CutBeforeGap(a: string, gap: char, b: string, n: nat)
    requires n <= |a|
    ensures (a + [gap] + b)[..n] == a[..n] && (a + [gap] + b)[n..] == a[n..] + [gap] + b
  {
  }

  lemma {:induction false} WordEndBefore(t: Tables, a: string, gap: char, b: string)
    requires t.space(gap)
    ensures WordEnd(t, a + [gap] + b) == WordEnd(t, a)
  {
    var s := a + [gap] + b;
    if a != [] && !t.space(a[0]) {
      assert s[1..] == a[1..] + [gap] + b;
      WordEndBefore(t, a[1..], gap, b);
    }
  }

  /** Anything but a letter or a digit separates words. */
  lemma {:induction false} OthersSeparate(t: Tables, a: string, gap: char, b: string)
    requires GoodTables(t) && !t.alnum(gap)
    ensures Words(t, a + [gap] + b) == Words(t, a) + Words(t, b)
  {
    assert Mapped(t, a + [gap] + b) == Mapped(t, a) + [MapChar(t, gap)] + Mapped(t, b);
    FieldsSplit(t, Mapped(t, a), MapChar(t, gap), Mapped(t, b));
  }

  /** And an unbroken run of letters and digits is one word, lower-cased letter by letter. */
  lemma {:induction false} RunIsOneWord(t: Tables, run: string)
    requires GoodTables(t) && forall i :: 0 <= i < |run| ==> t.alnum(run[i])
    ensures Words(t, run) ==
            if run == "" then [] else [seq(|run|, i requires 0 <= i < |run| => t.lower(run[i]))]
  {
    var lowered := seq(|run|, i requires 0 <= i < |run| => t.lower(run[i]));
    assert Mapped(t, run) == lowered;
    if run != "" {
      forall i | 0 <= i < |lowered| ensures !t.space(lowered[i]) {
        assert t.alnum(t.lower(run[i]));
      }
      FieldsOfWord(t, lowered, []);
      assert lowered + [] == lowered;
    }
  }

  // ---------- similarity ----------

  predicate OccursAt(s: string, sub: string, i: nat) {
    i + |sub| <= |s| && s[i..i + |sub|] == sub
  }

  predicate Contains(s: string, sub: string) {
    exists i :: 0 <= i <= |s| && OccursAt(s, sub, i)
  }

  /** How many entries of the first list occur in the second. */
  function Matches(aa: seq<string>, bb: seq<string>): nat {
    if aa == [] then 0 else Matches(aa[..|aa| - 1], bb) + (if aa[|aa| - 1] in bb then 1 else 0)
  }

  function Ratio(aa: seq<string>, bb: seq<string>): int {
    if |aa| + |bb| == 0 then 0 else 2 * Matches(aa, bb) * 100 / (|aa| + |bb|)
  }

  function Score(t: Tables, a: string, b: string): int {
    var na, nb := Normalize(t, a), Normalize(t, b);
    if na == nb then 100
    else if Contains(na, nb) || Contains(nb, na) then 90
    else Ratio(Fields(t, na), Fields(t, nb))
  }

  function WordSet(words: seq<string>): set<string> {
    set w | w in words
  }

  lemma {:induction false} DistinctPrefix(before: seq<string>, w: string)
    requires Distinct(before + [w])
    ensures Distinct(before) && w !in WordSet(before)
  {
    var words := before + [w];
    forall i, j | 0 <= i < j < |before| ensures before[i] != before[j] {
      assert words[i] == before[i] && words[j] == before[j];
    }
    forall i | 0 <= i < |before| ensures before[i] != w {
      assert words[i] == before[i] && words[|before|] == w;
    }
  }

  lemma {:induction false} OneMoreCommon(before: seq<string>, w: string, bb: seq<string>)
    requires w !in WordSet(before)
    ensures |WordSet(before + [w]) * WordSet(bb)| == |WordSet(before) * WordSet(bb)| + (if w in bb then 1 else 0)
  {
    assert WordSet(before + [w]) == WordSet(before) + {w};
    if w in bb {
      assert WordSet(before + [w]) * WordSet(bb) == WordSet(before) * WordSet(bb) + {w};
    } else {
      assert WordSet(before + [w]) * WordSet(bb) == WordSet(before) * WordSet(bb);
    }
  }

  /** Without repeats the matches are the common words. */
  lemma {:induction false} MatchesAreCommon(aa: seq<string>, bb: seq<string>)
    ensures Matches(aa, bb) <= |aa|
    ensures Distinct(aa) ==> Matches(aa, bb) == |WordSet(aa) * WordSet(bb)|
  {
    if aa != [] {
      var before, w := aa[..|aa| - 1], aa[|aa| - 1];
      MatchesAreCommon(before, bb);
      if Distinct(aa) {
        assert aa == before + [w];
        DistinctPrefix(before, w);
        OneMoreCommon(before, w, bb);
      }
    }
  }

  lemma {:induction false} FewerMultiples(a: int, b: int, d: int)
    requires d > 0 && a * d < b * d
    ensures a < b
  {
  }

  lemma {:induction false} DivBounds(n: int, d: int, low: int, high: int)
    requires d > 0 && low * d <= n < high * d
    ensures low <= n / d < high
  {
    var q := n / d;
    assert q * d <= n < (q + 1) * d;
    FewerMultiples(q, high, d);
    FewerMultiples(low, q + 1, d);
  }

  lemma {:induction false} NoMatchInEmpty(aa: seq<string>)
    ensures Matches(aa, []) == 0
  {
    if aa != [] {
      NoMatchInEmpty(aa[..|aa| - 1]);
    }
  }

  /**
   The ratio is never negative and never 200; it stays within 100 when the first list repeats no
   word or is no longer than the second.
   */
  lemma {:induction false} RatioInRange(aa: seq<string>, bb: seq<string>)
    ensures 0 <= Ratio(aa, bb) < 200
    ensures Distinct(aa) || |aa| <= |bb| ==> Ratio(aa, bb) <= 100
  {
    var m, d := Matches(aa, bb), |aa| + |bb|;
    MatchesAreCommon(aa, bb);
    NoMatchInEmpty(aa);
    if d > 0 {
      DivBounds(2 * m * 100, d, 0, 200);
      if Distinct(aa) {
        SubsetSize(WordSet(aa) * WordSet(bb), WordSet(bb));
        DistinctSize(bb);
        DivBounds(2 * m * 100, d, 0, 101);
      } else if |aa| <= |bb| {
        DivBounds(2 * m * 100, d, 0, 101);
      }
    }
  }

  function Places(aa: seq<string>, bb: seq<string>): set<nat> {
    set i: nat | i < |aa| && aa[i] in bb
  }

  /**
   The ratio is twice the places of the first list whose word the second has, in hundredths of all
   words, rounded down.
   */
  lemma {:induction false} RatioIsFloor(aa: seq<string>, bb: seq<string>)
    requires |aa| + |bb| > 0
    ensures var d := |aa| + |bb|;
            d * Ratio(aa, bb) <= 200 * |Places(aa, bb)| < d * (Ratio(aa, bb) + 1)
  {
    MatchesArePlaces(aa, bb);
    var n, d := 2 * Matches(aa, bb) * 100, |aa| + |bb|;
    assert n == (n / d) * d + n % d;
  }

  lemma {:induction false} MatchesArePlaces(aa: seq<string>, bb: seq<string>)
    ensures Matches(aa, bb) == |Places(aa, bb)|
  {
    if aa != [] {
      var n := |aa| - 1;
      MatchesArePlaces(aa[..n], bb);
      if aa[n] in bb {
        assert Places(aa, bb) == Places(aa[..n], bb) + {n};
      } else {
        assert Places(aa, bb) == Places(aa[..n], bb);
      }
    }
  }

  lemma {:induction false} RatioIsSymmetric(aa: seq<string>, bb: seq<string>)
    requires Distinct(aa) && Distinct(bb)
    ensures Ratio(aa, bb) == Ratio(bb, aa)
  {
    MatchesAreCommon(aa, bb);
    MatchesAreCommon(bb, aa);
    assert WordSet(aa) * WordSet(bb) == WordSet(bb) * WordSet(aa);
  }

  lemma {:induction false} NoRepeatMultiset(words: seq<string>)
    requires Distinct(words)
    ensures multiset(words) == multiset(WordSet(words))
  {
    if words == [] {
      assert WordSet(words) == {};
    } else {
      var before, w := words[..|words| - 1], words[|words| - 1];
      assert words == before + [w];
      assert forall i, j :: 0 <= i < j < |before| ==> before[i] == words[i] && before[j] == words[j];
      NoRepeatMultiset(before);
      assert WordSet(words) == WordSet(before) + {w};
      assert w !in WordSet(before);
    }
  }

  lemma {:induction false} PermutationsShareWords(aa: seq<string>, bb: seq<string>)
    requires Distinct(aa) && Distinct(bb)
    ensures multiset(aa) == multiset(bb) <==> WordSet(aa) == WordSet(bb)
  {
    NoRepeatMultiset(aa);
    NoRepeatMultiset(bb);
    forall w ensures w in multiset(aa) <==> w in WordSet(aa) {
    }
    forall w ensures w in multiset(bb) <==> w in WordSet(bb) {
    }
  }

  /** Without repeats the ratio branch gives 100 exactly for permutations. */
  lemma {:induction false} RatioHundredIffPermutation(aa: seq<string>, bb: seq<string>)
    requires Distinct(aa) && Distinct(bb) && |aa| + |bb| > 0
    ensures Ratio(aa, bb) == 100 <==> multiset(aa) == multiset(bb)
  {
    var common, m, d := WordSet(aa) * WordSet(bb), Matches(aa, bb), |aa| + |bb|;
    MatchesAreCommon(aa, bb);
    DistinctSize(aa);
    DistinctSize(bb);
    SubsetSize(common, WordSet(aa));
    SubsetSize(common, WordSet(bb));
    PermutationsShareWords(aa, bb);
    if WordSet(aa) == WordSet(bb) {
      assert common == WordSet(aa);
      DivBounds(2 * m * 100, d, 100, 101);
    } else {
      assert 2 * m < d;
      DivBounds(2 * m * 100, d, 0, 100);
    }
  }

  /** The score over names: within 0..100 when the first name repeats no word, symmetric when neither does. */
  lemma {:induction false} ScoreLaws(t: Tables, a: string, b: string)
    requires GoodTables(t)
    ensures 0 <= Score(t, a, b) < 200
    ensures Distinct(Words(t, a)) ==> Score(t, a, b) <= 100
    ensures Distinct(Words(t, a)) && Distinct(Words(t, b)) ==> Score(t, a, b) == Score(t, b, a)
  {
    FieldsAreWords(t, Mapped(t, a));
    FieldsAreWords(t, Mapped(t, b));
    FieldsOfJoin(t, Words(t, a));
    FieldsOfJoin(t, Words(t, b));
    RatioInRange(Words(t, a), Words(t, b));
    if Distinct(Words(t, a)) && Distinct(Words(t, b)) {
      RatioIsSymmetric(Words(t, a), Words(t, b));
    }
  }

  // ---------- when a score leaves 0..100 ----------

  /** Every word of the first list that the second lacks costs a match. */
  lemma {:induction false} MissingWordsCost(aa: seq<string>, bb: seq<string>)
    ensures Matches(aa, bb) + |WordSet(aa) - WordSet(bb)| <= |aa|
    ensures WordSet(aa) <= WordSet(bb) ==> Matches(aa, bb) == |aa|
  {
    if aa != [] {
      var before, w := aa[..|aa| - 1], aa[|aa| - 1];
      MissingWordsCost(before, bb);
      assert aa == before + [w];
      assert WordSet(aa) == WordSet(before) + {w};
      if w in bb {
        assert WordSet(aa) - WordSet(bb) == WordSet(before) - WordSet(bb);
      } else {
        assert w !in WordSet(bb);
        SubsetSize(WordSet(aa) - WordSet(bb), (WordSet(before) - WordSet(bb)) + {w});
      }
    }
  }

  lemma {:induction false} Listing(words: set<string>) returns (list: seq<string>)
    ensures WordSet(list) == words && |list| == |words|
  {
    if words == {} {
      list := [];
    } else {
      var w :| w in words;
      var rest := Listing(words - {w});
      list := rest + [w];
      assert WordSet(list) == WordSet(rest) + {w};
    }
  }

  lemma {:induction false} RatioAbove(aa: seq<string>, bb: seq<string>)
    requires |aa| + |bb| > 0
    ensures Ratio(aa, bb) > 100 <==> 200 * Matches(aa, bb) >= 101 * (|aa| + |bb|)
  {
    var n, d := 2 * Matches(aa, bb) * 100, |aa| + |bb|;
    assert n == 200 * Matches(aa, bb);
    MatchesAreCommon(aa, bb);
    if n >= 101 * d {
      DivBounds(n, d, 101, 201);
    } else {
      DivBounds(n, d, 0, 101);
    }
  }

  /** Against a list of its own distinct words, a list has every match it can have. */
  lemma {:induction false} WorstListing(aa: seq<string>, bb: seq<string>)
    requires aa != [] && 200 * |aa| < 101 * (|aa| + |WordSet(aa)|)
    ensures Ratio(aa, bb) <= 100
  {
    var missing, common := WordSet(aa) - WordSet(bb), WordSet(aa) * WordSet(bb);
    MissingWordsCost(aa, bb);
    assert WordSet(aa) == missing + common;
    SubsetSize(common, WordSet(bb));
    DistinctSize(bb);
    RatioAbove(aa, bb);
  }

  /** A first name keeps the ratio within 100 against every second one exactly when it repeats little. */
  lemma {:induction false} RatioWithinIff(aa: seq<string>)
    ensures (forall bb :: Ratio(aa, bb) <= 100) <==> aa == [] || 200 * |aa| < 101 * (|aa| + |WordSet(aa)|)
  {
    if aa == [] {
      forall bb ensures Ratio(aa, bb) <= 100 {
        RatioInRange(aa, bb);
      }
    } else if 200 * |aa| < 101 * (|aa| + |WordSet(aa)|) {
      forall bb ensures Ratio(aa, bb) <= 100 {
        WorstListing(aa, bb);
      }
    } else {
      var bb := Listing(WordSet(aa));
      MissingWordsCost(aa, bb);
      RatioAbove(aa, bb);
    }
  }

  /** Joined words have one space fewer than words. */
  lemma {:induction false} JoinSpaces(t: Tables, words: seq<string>)
    requires t.space(' ') && AreWords(t, words) && words != []
    ensures multiset(Join(words))[' '] == |words| - 1
  {
    WordHasNoSpace(t, words[0]);
    if |words| > 1 {
      assert forall i :: 0 <= i < |words[1..]| ==> words[1..][i] == words[i + 1];
      JoinSpaces(t, words[1..]);
      assert Join(words) == (words[0] + " ") + Join(words[1..]);
    }
  }

  lemma {:induction false} WordHasNoSpace(t: Tables, w: string)
    requires t.space(' ') && IsWord(t, w)
    ensures multiset(w)[' '] == 0
  {
    assert ' ' !in w;
  }

  lemma {:induction false} ContainedCount(s: string, sub: string)
    requires Contains(s, sub)
    ensures multiset(sub)[' '] <= multiset(s)[' ']
  {
    var i :| 0 <= i <= |s| && OccursAt(s, sub, i);
    assert s == s[..i] + sub + s[i + |sub|..];
  }

  /** A name inside another has no more words. */
  lemma {:induction false} ContainedWords(t: Tables, a: string, b: string)
    requires GoodTables(t) && Contains(Normalize(t, b), Normalize(t, a))
    ensures |Words(t, a)| <= |Words(t, b)|
  {
    FieldsAreWords(t, Mapped(t, a));
    FieldsAreWords(t, Mapped(t, b));
    ContainedCount(Normalize(t, b), Normalize(t, a));
    if Words(t, a) != [] {
      JoinSpaces(t, Words(t, a));
      if Words(t, b) != [] {
        JoinSpaces(t, Words(t, b));
      } else {
        assert Words(t, a)[0] != "";
        JoinNotEmpty(Words(t, a));
      }
    }
  }

  lemma {:induction false} JoinNotEmpty(words: seq<string>)
    requires words != [] && words[0] != ""
    ensures Join(words) != ""
  {
  }

  /**
   A pair of names scores past 100 exactly when the second is no part of the first and the words
   of the first that the second has outweigh the others: 99 for each such word, 101 for each other
   word of the first and each word of the second.
   */
  lemma {:induction false} ScoreExceedsIff(t: Tables, a: string, b: string)
    requires GoodTables(t)
    ensures var aa, bb := Words(t, a), Words(t, b);
            Score(t, a, b) > 100 <==>
              && !Contains(Normalize(t, a), Normalize(t, b))
              && 99 * Matches(aa, bb) >= 101 * (|bb| + (|aa| - Matches(aa, bb)))
  {
    var aa, bb, na, nb := Words(t, a), Words(t, b), Normalize(t, a), Normalize(t, b);
    FieldsAreWords(t, Mapped(t, a));
    FieldsAreWords(t, Mapped(t, b));
    FieldsOfJoin(t, aa);
    FieldsOfJoin(t, bb);
    MatchesAreCommon(aa, bb);
    if na == nb {
      assert OccursAt(na, nb, 0);
    } else if Contains(nb, na) {
      ContainedWords(t, a, b);
    } else if |aa| + |bb| > 0 {
      RatioAbove(aa, bb);
    }
  }

  /** The Latin letters are letters and lower as in ASCII. */
  ghost predicate LatinLetters(t: Tables) {
    && (forall c :: 'a' <= c <= 'z' ==> t.alnum(c) && t.lower(c) == c)
    && (forall c :: 'A' <= c <= 'Z' ==> t.alnum(c) && t.lower(c) == c - 'A' + 'a')
  }

  lemma {:induction false} JoinedPair(a: string, b: string)
    ensures Join([a, b]) == a + " " + b
    ensures Join([a, a, a]) == a + " " + (a + " " + a)
  {
    assert [a, b][1..] == [b] && [a, a][1..] == [a] && [a, a, a][1..] == [a, a];
    assert Join([a, a]) == a + " " + a;
  }

  lemma {:induction false} WordsOf(t: Tables, value: string, lowered: string, words: seq<string>)
    requires GoodTables(t) && AreWords(t, words)
    requires Mapped(t, value) == lowered == Join(words)
    ensures Words(t, value) == words && Normalize(t, value) == lowered
  {
    FieldsOfJoin(t, words);
  }

  lemma {:induction false} LatinWord(t: Tables, w: string)
    requires GoodTables(t) && LatinLetters(t) && w != [] && forall i :: 0 <= i < |w| ==> 'a' <= w[i] <= 'z'
    ensures IsWord(t, w)
  {
    forall i | 0 <= i < |w| ensures !t.space(w[i]) {
      assert t.alnum(w[i]);
    }
  }

  lemma {:induction false} RepeatedWords(t: Tables)
    requires GoodTables(t) && LatinLetters(t)
    ensures Words(t, "Viktor Viktor Viktor") == ["viktor", "viktor", "viktor"]
    ensures Normalize(t, "Viktor Viktor Viktor") == "viktor viktor viktor"
  {
    LatinWord(t, "viktor");
    JoinedPair("viktor", "viktor");
    assert Mapped(t, "Viktor Viktor Viktor") == "viktor viktor viktor";
    WordsOf(t, "Viktor Viktor Viktor", "viktor viktor viktor", ["viktor", "viktor", "viktor"]);
  }

  lemma {:induction false} ListedWords(t: Tables)
    requires GoodTables(t) && LatinLetters(t)
    ensures Words(t, "Viktor Petrov") == ["viktor", "petrov"]
    ensures Normalize(t, "Viktor Petrov") == "viktor petrov"
  {
    LatinWord(t, "viktor");
    LatinWord(t, "petrov");
    JoinedPair("viktor", "petrov");
    assert Mapped(t, "Viktor Petrov") == "viktor petrov";
    WordsOf(t, "Viktor Petrov", "viktor petrov", ["viktor", "petrov"]);
  }

  lemma {:induction false} ScoreByRatio(t: Tables, a: string, b: string)
    requires GoodTables(t) && Normalize(t, a) != Normalize(t, b)
    requires !Contains(Normalize(t, a), Normalize(t, b)) && !Contains(Normalize(t, b), Normalize(t, a))
    ensures Score(t, a, b) == Ratio(Words(t, a), Words(t, b))
  {
    FieldsAreWords(t, Mapped(t, a));
    FieldsAreWords(t, Mapped(t, b));
    FieldsOfJoin(t, Words(t, a));
    FieldsOfJoin(t, Words(t, b));
  }

  lemma {:induction false} ContainedChars(s: string, sub: string, c: char)
    requires Contains(s, sub) && c in sub
    ensures c in s
  {
    var i :| 0 <= i <= |s| && OccursAt(s, sub, i);
    var k :| 0 <= k < |sub| && sub[k] == c;
    assert s[i..i + |sub|][k] == s[i + k];
  }

  lemma {:induction false} ThreeOfOne(w: string, other: string)
    ensures Ratio([w, w, w], [w, other]) == 120
  {
    assert w in [w, other] && WordSet([w, w, w]) == {w};
    MissingWordsCost([w, w, w], [w, other]);
  }

  lemma {:induction false} NeitherContains()
    ensures !Contains("viktor viktor viktor", "viktor petrov") && !Contains("viktor petrov", "viktor viktor viktor")
  {
    assert "viktor petrov"[7] == 'p';
    if Contains("viktor viktor viktor", "viktor petrov") {
      ContainedChars("viktor viktor viktor", "viktor petrov", 'p');
    }
  }

  /** A customer named Viktor three times over is reported against a listed entry with 120. */
  lemma {:induction false} RepeatsExceedHundred(t: Tables)
    requires GoodTables(t) && LatinLetters(t)
    ensures Score(t, "Viktor Viktor Viktor", "Viktor Petrov") == 120
    ensures Candidate(Sanctions, "Viktor Petrov", 120) in Hits(t, "Viktor Viktor Viktor", DEMO_ENTRIES)
  {
    RepeatedWords(t);
    ListedWords(t);
    NeitherContains();
    ScoreByRatio(t, "Viktor Viktor Viktor", "Viktor Petrov");
    ThreeOfOne("viktor", "petrov");
    HitsAreReported(t, "Viktor Viktor Viktor", DEMO_ENTRIES, 0);
  }

  lemma {:induction false} HitsAreReported(t: Tables, name: string, entries: seq<Entry>, i: nat)
    requires i < |entries| && Score(t, name, entries[i].name) >= REVIEW_THRESHOLD
    ensures Candidate(entries[i].kind, entries[i].name, Score(t, name, entries[i].name)) in Hits(t, name, entries)
  {
    if i < |entries| - 1 {
      HitsAreReported(t, name, entries[..|entries| - 1], i);
    }
  }

  // ---------- the code ----------

  method Similarity(t: Tables, a: string, b: string) returns (score: int)
    ensures score == Score(t, a, b)
  {
    var na, nb := Normalize(t, a), Normalize(t, b);
    if na == nb {
      return 100;
    }
    if Contains(na, nb) || Contains(nb, na) {
      return 90;
    }
    var aa, bb := Fields(t, na), Fields(t, nb);
    var matches := 0;
    for i := 0 to |aa|
      invariant matches == Matches(aa[..i], bb)
    {
      assert aa[..i + 1][..i] == aa[..i];
      var found := false;
      for j := 0 to |bb|
        invariant !found && aa[i] !in bb[..j]
        invariant matches == Matches(aa[..i], bb)
      {
        if aa[i] == bb[j] {
          matches := matches + 1;
          found := true;
          break;
        }
      }
      assert found <==> aa[i] in bb;
    }
    assert aa[..|aa|] == aa;
    var denominator := |aa| + |bb|;
    if denominator == 0 {
      return 0;
    }
    return 2 * matches * 100 / denominator;
  }

  datatype Kind = Sanctions | PEP | AdverseMedia

  datatype Entry = Entry(name: string, kind: Kind)

  datatype Candidate = Candidate(kind: Kind, name: string, score: int)

  const REVIEW_THRESHOLD := 70

  const DEMO_ENTRIES: seq<Entry> :=
    [Entry("Viktor Petrov", Sanctions), Entry("Nadia Karim", PEP),
     Entry("Orion Trading Company", Sanctions), Entry("Marcus Vale", AdverseMedia)]

  function Hits(t: Tables, name: string, entries: seq<Entry>): seq<Candidate> {
    if entries == [] then []
    else
      var before, e := entries[..|entries| - 1], entries[|entries| - 1];
      var score := Score(t, name, e.name);
      Hits(t, name, before) + (if score >= REVIEW_THRESHOLD then [Candidate(e.kind, e.name, score)] else [])
  }

  method Screen(t: Tables, name: string) returns (candidates: seq<Candidate>)
    ensures candidates == Hits(t, name, DEMO_ENTRIES)
  {
    candidates := [];
    for i := 0 to |DEMO_ENTRIES|
      invariant candidates == Hits(t, name, DEMO_ENTRIES[..i])
    {
      assert DEMO_ENTRIES[..i + 1][..i] == DEMO_ENTRIES[..i];
      var score := Similarity(t, name, DEMO_ENTRIES[i].name);
      if score >= 70 {
        candidates := candidates + [Candidate(DEMO_ENTRIES[i].kind, DEMO_ENTRIES[i].name, score)];
      }
    }
    assert DEMO_ENTRIES[..|DEMO_ENTRIES|] == DEMO_ENTRIES;
  }

  /** The score by cases: the same words, one name inside the other, or the ratio of the words. */
  lemma {:induction false} ScoreCases(t: Tables, a: string, b: string)
    requires GoodTables(t)
    ensures Score(t, a, b) ==
            if Words(t, a) == Words(t, b) then 100
            else if Contains(Normalize(t, a), Normalize(t, b)) || Contains(Normalize(t, b), Normalize(t, a)) then 90
            else Ratio(Words(t, a), Words(t, b))
  {
    NormalizeIsCanonical(t, b);
    FieldsAreWords(t, Mapped(t, a));
    FieldsAreWords(t, Mapped(t, b));
    FieldsOfJoin(t, Words(t, a));
    FieldsOfJoin(t, Words(t, b));
  }

  /** A hit is an entry that scores 70 or more, with its score, and every such entry is a hit. */
  lemma {:induction false} HitIff(t: Tables, name: string, entries: seq<Entry>, c: Candidate)
    ensures c in Hits(t, name, entries) <==>
              Entry(c.name, c.kind) in entries && c.score == Score(t, name, c.name) && c.score >= 70
  {
    if entries != [] {
      var before, e := entries[..|entries| - 1], entries[|entries| - 1];
      HitIff(t, name, before, c);
      assert entries == before + [e];
    }
  }

  /**
   A listed entry is found with 100 under every spelling that has its words, and nothing below the
   threshold is reported.
   */
  lemma {:induction false} SpellingsAreFound(t: Tables, name: string, entries: seq<Entry>)
    requires GoodTables(t)
    ensures forall e :: e in entries && Words(t, name) == Words(t, e.name) ==>
            Candidate(e.kind, e.name, 100) in Hits(t, name, entries)
    ensures forall c :: c in Hits(t, name, entries) ==>
              c.score >= REVIEW_THRESHOLD && c.score == Score(t, name, c.name) && Entry(c.name, c.kind) in entries
  {
    if entries != [] {
      var before, e := entries[..|entries| - 1], entries[|entries| - 1];
      SpellingsAreFound(t, name, before);
      assert entries == before + [e];
    }
  }
}
