/**
 * Aggregation of the 27 Likert answers of the human-rights-sensitivity survey
 * into the overall total, the three 9-item subscales (감 emotion, 수 norm,
 * 성 reflection) and the 9-item "mental-illness situation" score with its
 * three 3-item sub-sums.
 */
module Aggregation {
  import opened Wrappers

  /** Number of questions in the battery. */
  const QuestionCount: nat := 27

  /** 1-based question numbers of the mental-illness situation items. */
  const SituationalItems: seq<int> := [7, 8, 9, 16, 17, 18, 25, 26, 27]

  /** A value of the 4-point scale offered by each radio button. */
  predicate IsLikert(x: int) {
    1 <= x <= 4
  }

  /** Every answer of a run is on the 4-point scale. */
  predicate AllLikert(s: seq<int>) {
    forall i :: 0 <= i < |s| ==> IsLikert(s[i])
  }

  /** A complete response set: 27 answers, each on the 4-point scale. */
  predicate ValidAnswers(a: seq<int>) {
    |a| == QuestionCount && AllLikert(a)
  }

  /** Three scores, one per axis: 감 (emotion), 수 (norm), 성 (reflection). */
  datatype Triple = Triple(emotion: int, norm: int, reflect: int)

  /** What the survey page stores once the last answer is given. */
  datatype Scores = Scores(total: int, axes: Triple, situational: int)

  /**
   * The submit gate of the survey page: the answers are collected only when
   * every question 1..27 has an answer in the session (a missing key standing
   * for the widget's None), and then question i becomes answers[i - 1].
   */
  function CollectAnswers(session: map<int, int>): (r: Option<seq<int>>)
    ensures r.Some? <==> forall q :: 1 <= q <= QuestionCount ==> q in session
    ensures r.Some? ==> |r.value| == QuestionCount
    ensures r.Some? ==> forall i :: 0 <= i < |r.value| ==> r.value[i] == session[i + 1]
    ensures r.Some? && (forall q :: 1 <= q <= QuestionCount ==> IsLikert(session[q])) ==> ValidAnswers(r.value)
  {
    if forall q :: 1 <= q <= QuestionCount ==> q in session then
      Some(seq(QuestionCount, i requires 0 <= i < QuestionCount => session[i + 1]))
    else
      None
  }

  /**
   * Python's built-in sum over a list of integers. A run of n answers taken
   * from the widget's options 1..4 sums to between n and 4n.
   */
  function Sum(s: seq<int>): (r: int)
    ensures AllLikert(s) ==> |s| <= r <= 4 * |s|
  {
    if s == [] then 0
    else
      assert forall i :: 0 <= i < |s[1..]| ==> s[1..][i] == s[i + 1];
      s[0] + Sum(s[1..])
  }

  lemma {:induction false} SumConcat(s: seq<int>, t: seq<int>)
    ensures Sum(s + t) == Sum(s) + Sum(t)
  {
    if s == [] {
      assert s + t == t;
    } else {
      assert (s + t)[1..] == s[1..] + t;
      SumConcat(s[1..], t);
    }
  }

  /** A run of answers that are all c sums to c times its length. */
  lemma {:induction false} SumConstant(s: seq<int>, c: int)
    requires forall i :: 0 <= i < |s| ==> s[i] == c
    ensures Sum(s) == c * |s|
  {
    if s != [] {
      var rest := s[1..];
      assert forall i :: 0 <= i < |rest| ==> rest[i] == c;
      SumConstant(rest, c);
      MulStep(c, |rest|);
    }
  }

  lemma MulStep(c: int, n: int)
    ensures c * (n + 1) == c * n + c
  {
  }

  /**
   * The generator `sum(answers[i - 1] for i in items)` over 1-based items.
   * Over n items of a run whose answers are all in 1..4 it lies between n
   * and 4n.
   */
  function SumItems(a: seq<int>, items: seq<int>): (r: int)
    requires forall k :: 0 <= k < |items| ==> 1 <= items[k] <= |a|
    ensures AllLikert(a) ==> |items| <= r <= 4 * |items|
  {
    if items == [] then 0
    else
      a[items[0] - 1] + SumItems(a, items[1..])
  }

  lemma {:induction false} SumItemsConcat(a: seq<int>, xs: seq<int>, ys: seq<int>)
    requires forall k :: 0 <= k < |xs| ==> 1 <= xs[k] <= |a|
    requires forall k :: 0 <= k < |ys| ==> 1 <= ys[k] <= |a|
    ensures SumItems(a, xs + ys) == SumItems(a, xs) + SumItems(a, ys)
  {
    if xs == [] {
      assert xs + ys == ys;
    } else {
      assert (xs + ys)[1..] == xs[1..] + ys;
      SumItemsConcat(a, xs[1..], ys);
    }
  }

  lemma SumItemsThree(a: seq<int>, items: seq<int>)
    requires |items| == 3
    requires forall k :: 0 <= k < |items| ==> 1 <= items[k] <= |a|
    ensures SumItems(a, items) == a[items[0] - 1] + a[items[1] - 1] + a[items[2] - 1]
  {
    assert items[1..][1..] == [items[2]];
    assert SumItems(a, [items[2]]) == a[items[2] - 1];
  }

  /** The situational score is the sum of its three 3-item sub-sums. */
  lemma SituationalSplit(a: seq<int>)
    requires |a| == QuestionCount
    ensures SumItems(a, SituationalItems) == AxisSum(SituationalAxes(a))
  {
    assert SituationalItems == [7, 8, 9] + [16, 17, 18] + [25, 26, 27];
    SumItemsConcat(a, [7, 8, 9] + [16, 17, 18], [25, 26, 27]);
    SumItemsConcat(a, [7, 8, 9], [16, 17, 18]);
    SumItemsThree(a, [7, 8, 9]);
    SumItemsThree(a, [16, 17, 18]);
    SumItemsThree(a, [25, 26, 27]);
  }

  /**
   * The three 3-item situational sub-sums: items 7-9, 16-18 and 25-27. For a
   * complete response set each lies in [3, 12].
   */
  function SituationalAxes(a: seq<int>): (t: Triple)
    requires |a| == QuestionCount
    ensures ValidAnswers(a) ==> 3 <= t.emotion <= 12 && 3 <= t.norm <= 12 && 3 <= t.reflect <= 12
  {
    Triple(a[6] + a[7] + a[8], a[15] + a[16] + a[17], a[24] + a[25] + a[26])
  }

  function AxisSum(t: Triple): int {
    t.emotion + t.norm + t.reflect
  }

  /**
   * The total, the three subscales and the situational score, as the survey
   * page computes them on submit. The total splits exactly into the three
   * subscales, and the situational score into its three sub-sums.
   */
  function Aggregate(a: seq<int>): (s: Scores)
    requires |a| == QuestionCount
    ensures s.total == AxisSum(s.axes)
    ensures s.situational == AxisSum(SituationalAxes(a))
  {
    assert a == a[0..9] + a[9..18] + a[18..27];
    SumConcat(a[0..9] + a[9..18], a[18..27]);
    SumConcat(a[0..9], a[9..18]);
    SituationalSplit(a);
    Scores(Sum(a), Triple(Sum(a[0..9]), Sum(a[9..18]), Sum(a[18..27])), SumItems(a, SituationalItems))
  }

  /** A sum of exactly three consecutive answers. */
  lemma SumOfThree(s: seq<int>)
    requires |s| == 3
    ensures Sum(s) == s[0] + s[1] + s[2]
  {
    assert s[1..][1..] == [s[2]];
    assert Sum([s[2]]) == s[2];
  }

  /**
   * One 9-item subscale against its situational sub-sum, which is its last
   * three items: the subscale is at least the sub-sum plus 6.
   */
  lemma SubscaleContainsSituational(block: seq<int>)
    requires |block| == 9
    requires AllLikert(block)
    ensures 9 <= Sum(block) <= 36
    ensures Sum(block) >= block[6] + block[7] + block[8] + 6
  {
    assert block == block[..6] + block[6..];
    SumConcat(block[..6], block[6..]);
    assert forall i :: 0 <= i < 6 ==> block[..6][i] == block[i];
    SumOfThree(block[6..]);
  }

  /**
   * For a complete response set: the total lies in [27, 108] and is the sum
   * of the subscales, each subscale lies in [9, 36], the situational score
   * lies in [9, 36] and is the sum of its sub-sums, each sub-sum lies in
   * [3, 12], and each sub-sum is at most its subscale.
   */
  lemma ScoreBounds(a: seq<int>)
    requires ValidAnswers(a)
    ensures var s := Aggregate(a);
      && 27 <= s.total <= 108
      && s.total == s.axes.emotion + s.axes.norm + s.axes.reflect
      && 9 <= s.axes.emotion <= 36 && 9 <= s.axes.norm <= 36 && 9 <= s.axes.reflect <= 36
      && 9 <= s.situational <= 36
      && var m := SituationalAxes(a);
      && s.situational == m.emotion + m.norm + m.reflect
      && 3 <= m.emotion <= 12 && 3 <= m.norm <= 12 && 3 <= m.reflect <= 12
      && m.emotion <= s.axes.emotion && m.norm <= s.axes.norm && m.reflect <= s.axes.reflect
  {
    var s := Aggregate(a);
    SubscaleContainsSituational(a[0..9]);
    SubscaleContainsSituational(a[9..18]);
    SubscaleContainsSituational(a[18..27]);
    assert IsLikert(a[6]) && IsLikert(a[7]) && IsLikert(a[8]);
    assert IsLikert(a[15]) && IsLikert(a[16]) && IsLikert(a[17]);
    assert IsLikert(a[24]) && IsLikert(a[25]) && IsLikert(a[26]);
  }
}
