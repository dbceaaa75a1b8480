/**
 * Banding of scores into low / mid / high, the four-type-plus-balance
 * classifier with its fixed tie-break order, the two wrappers that
 * short-circuit to the "normal" type on a low band, and the nominal code
 * tables stored with each result.
 */
module Typology {
  import opened Wrappers

  datatype Band = Low | Mid | High

  /** The nominal type of a three-axis profile. */
  datatype TypeKey = Balance | Emotion | Norm | Reflect | Normal

  /** Classifier parameters of the overall profile (9-item subscales, 9..36). */
  const MainMidCut: int := 19
  const MainBalanceGap: int := 3

  /** Classifier parameters of the situational profile (3-item sub-sums, 3..12). */
  const MentalMidCut: int := 7
  const MentalBalanceGap: int := 2

  /** Position of a band in the order low < mid < high. */
  function Rank(b: Band): nat {
    match b
    case Low => 0
    case Mid => 1
    case High => 2
  }

  /** Band of the 27-item total: cut points 67 and 87, each inclusive below. */
  function OverallLevel(total: int): (b: Band)
    ensures b == Low <==> total <= 67
    ensures b == Mid <==> 68 <= total <= 87
    ensures b == High <==> total >= 88
  {
    if total <= 67 then Low
    else if total <= 87 then Mid
    else High
  }

  /** Band of the 9-item situational score: high from 27, mid from 20. */
  function MentalLevel(score: int): (b: Band)
    ensures b == High <==> score >= 27
    ensures b == Mid <==> 20 <= score <= 26
    ensures b == Low <==> score <= 19
  {
    if score >= 27 then High
    else if score >= 20 then Mid
    else Low
  }

  /** A higher score never falls into a lower band. */
  lemma OverallLevelMonotone(t1: int, t2: int)
    requires t1 <= t2
    ensures Rank(OverallLevel(t1)) <= Rank(OverallLevel(t2))
  {
  }

  lemma MentalLevelMonotone(s1: int, s2: int)
    requires s1 <= s2
    ensures Rank(MentalLevel(s1)) <= Rank(MentalLevel(s2))
  {
  }

  /** The boundary cases of both bandings. */
  lemma LevelBoundaries()
    ensures OverallLevel(67) == Low && OverallLevel(68) == Mid
    ensures OverallLevel(87) == Mid && OverallLevel(88) == High
    ensures MentalLevel(19) == Low && MentalLevel(20) == Mid
    ensures MentalLevel(26) == Mid && MentalLevel(27) == High
  {
  }

  function Max3(a: int, b: int, c: int): (m: int)
    ensures m >= a && m >= b && m >= c
    ensures m == a || m == b || m == c
  {
    if a >= b && a >= c then a else if b >= c then b else c
  }

  function Min3(a: int, b: int, c: int): (m: int)
    ensures m <= a && m <= b && m <= c
    ensures m == a || m == b || m == c
  {
    if a <= b && a <= c then a else if b <= c then b else c
  }

  /**
   * The balance test: every axis reaches midCut and the spread is at most gap.
   * The spread bound is the same as every two axes lying within gap of each
   * other, and it can only hold for a gap that is not negative.
   */
  predicate IsBalanced(e: int, n: int, r: int, midCut: int, gap: int): (b: bool)
    ensures b <==> e >= midCut && n >= midCut && r >= midCut &&
                   -gap <= e - n <= gap && -gap <= n - r <= gap && -gap <= e - r <= gap
    ensures b ==> gap >= 0
  {
    e >= midCut && n >= midCut && r >= midCut && Max3(e, n, r) - Min3(e, n, r) <= gap
  }

  /** The axes in the tie-break priority order: emotion, then norm, then reflect. */
  function AxisOrder(e: int, n: int, r: int): seq<(TypeKey, int)> {
    [(Emotion, e), (Norm, n), (Reflect, r)]
  }

  /**
   * The early-return scan: the key of the first entry whose score equals
   * maxVal, or None when no entry does.
   */
  function FirstAtMax(axes: seq<(TypeKey, int)>, maxVal: int): (k: Option<TypeKey>)
    ensures k.None? <==> forall i :: 0 <= i < |axes| ==> axes[i].1 != maxVal
    ensures k.Some? ==> exists i :: 0 <= i < |axes| && axes[i] == (k.value, maxVal) &&
                                    forall j :: 0 <= j < i ==> axes[j].1 != maxVal
  {
    if axes == [] then None
    else if axes[0].1 == maxVal then Some(axes[0].0)
    else
      var k := FirstAtMax(axes[1..], maxVal);
      assert forall i :: 0 <= i < |axes[1..]| ==> axes[1..][i] == axes[i + 1];
      k
  }

  /**
   * The generic classifier. The result is never "normal"; it is "balance"
   * exactly when the balance test holds (the trailing fallback of the scan is
   * never taken), and otherwise the first axis in the order emotion, norm,
   * reflect that carries the maximum.
   */
  function ClassifyByScores(e: int, n: int, r: int, midCut: int, gap: int): (k: TypeKey)
    ensures k != Normal
    ensures k == Balance <==> IsBalanced(e, n, r, midCut, gap)
    ensures k == Emotion <==> !IsBalanced(e, n, r, midCut, gap) && e >= n && e >= r
    ensures k == Norm <==> !IsBalanced(e, n, r, midCut, gap) && n > e && n >= r
    ensures k == Reflect <==> !IsBalanced(e, n, r, midCut, gap) && r > e && r > n
  {
    if IsBalanced(e, n, r, midCut, gap) then
      Balance
    else
      var axes := AxisOrder(e, n, r);
      var m := Max3(e, n, r);
      assert axes[0].1 == e && axes[1].1 == n && axes[2].1 == r;
      match FirstAtMax(axes, m)
      case Some(key) => key
      case None =>
        assert false;
        Balance
  }

  /** On the non-balance path the scan always finds the maximum. */
  lemma ScanFindsMaximum(e: int, n: int, r: int)
    ensures FirstAtMax(AxisOrder(e, n, r), Max3(e, n, r)).Some?
  {
    var axes := AxisOrder(e, n, r);
    assert axes[0].1 == e && axes[1].1 == n && axes[2].1 == r;
  }

  /** Emotion wins every tie it takes part in once the balance test fails. */
  lemma EmotionWinsTies(e: int, n: int, r: int, midCut: int, gap: int)
    requires !IsBalanced(e, n, r, midCut, gap)
    requires e == Max3(e, n, r)
    ensures ClassifyByScores(e, n, r, midCut, gap) == Emotion
  {
  }

  /** Worked examples: a two-way tie goes to emotion, a tight profile is balanced. */
  lemma ClassifierExamples()
    ensures ClassifyByScores(30, 30, 10, MainMidCut, MainBalanceGap) == Emotion
    ensures ClassifyByScores(20, 21, 19, MainMidCut, MainBalanceGap) == Balance
  {
  }

  /**
   * The overall type: "normal" exactly when the total is in the low band,
   * otherwise the generic classifier with mid cut 19 and gap 3.
   */
  function ClassifyMainType(total: int, e: int, n: int, r: int): (k: TypeKey)
    ensures k == Normal <==> OverallLevel(total) == Low
    ensures OverallLevel(total) != Low ==> k == ClassifyByScores(e, n, r, MainMidCut, MainBalanceGap)
  {
    if OverallLevel(total) == Low then Normal
    else ClassifyByScores(e, n, r, MainMidCut, MainBalanceGap)
  }

  /**
   * The situational type: "normal" exactly when the situational score is in
   * the low band, otherwise the generic classifier with mid cut 7 and gap 2.
   */
  function ClassifyMentalType(mentalTotal: int, e: int, n: int, r: int): (k: TypeKey)
    ensures k == Normal <==> MentalLevel(mentalTotal) == Low
    ensures MentalLevel(mentalTotal) != Low ==> k == ClassifyByScores(e, n, r, MentalMidCut, MentalBalanceGap)
  {
    if MentalLevel(mentalTotal) == Low then Normal
    else ClassifyByScores(e, n, r, MentalMidCut, MentalBalanceGap)
  }

  /**
   * All answers 1 give the perfectly even profile 9/9/9, which the generic
   * classifier calls "emotion" (it is below the mid cut, and the three-way tie
   * goes to emotion); the low total of 27 overrides that with "normal".
   */
  lemma LowTotalOverridesEmotion()
    ensures Max3(9, 9, 9) - Min3(9, 9, 9) == 0
    ensures ClassifyByScores(9, 9, 9, MainMidCut, MainBalanceGap) == Emotion
    ensures ClassifyMainType(27, 9, 9, 9) == Normal
  {
  }

  /** Nominal code of an overall type. */
  function MainCode(k: TypeKey): (c: int)
    ensures 1 <= c <= 5
  {
    match k
    case Balance => 1
    case Emotion => 2
    case Norm => 3
    case Reflect => 4
    case Normal => 5
  }

  /** Nominal code of a situational type: the overall code shifted by 10. */
  function MentalCode(k: TypeKey): (c: int)
    ensures 11 <= c <= 15
    ensures c == MainCode(k) + 10
  {
    match k
    case Balance => 11
    case Emotion => 12
    case Norm => 13
    case Reflect => 14
    case Normal => 15
  }

  /** The inverse of the overall code table. */
  function MainKeyOfCode(c: int): (k: Option<TypeKey>)
    ensures k.Some? <==> 1 <= c <= 5
  {
    if c == 1 then Some(Balance)
    else if c == 2 then Some(Emotion)
    else if c == 3 then Some(Norm)
    else if c == 4 then Some(Reflect)
    else if c == 5 then Some(Normal)
    else None
  }

  /** The inverse of the situational code table. */
  function MentalKeyOfCode(c: int): (k: Option<TypeKey>)
    ensures k.Some? <==> 11 <= c <= 15
  {
    MainKeyOfCode(c - 10)
  }

  /** Encoding a type and decoding the code gives the type back, in both tables. */
  lemma CodeDecodes(k: TypeKey)
    ensures MainKeyOfCode(MainCode(k)) == Some(k)
    ensures MentalKeyOfCode(MentalCode(k)) == Some(k)
  {
  }

  /** A code that decodes to a type is that type's code, in both tables. */
  lemma DecodeEncodes(c: int, k: TypeKey)
    ensures MainKeyOfCode(c) == Some(k) ==> c == MainCode(k)
    ensures MentalKeyOfCode(c) == Some(k) ==> c == MentalCode(k)
  {
  }

  /** Each code table is injective, and the two tables share no code. */
  lemma CodesInjectiveAndDisjoint(k1: TypeKey, k2: TypeKey)
    ensures MainCode(k1) == MainCode(k2) ==> k1 == k2
    ensures MentalCode(k1) == MentalCode(k2) ==> k1 == k2
    ensures MainCode(k1) != MentalCode(k2)
  {
  }
}
