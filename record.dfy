/**
 * Assembly of the result record shown on the result page (scores, the two
 * type keys and their nominal codes) and of the row appended to the response
 * sheet: a time stamp, the scores, the two codes and the answers as columns
 * q1..q27, in that order.
 */
module Record {
  import opened Wrappers
  import opened Aggregation
  import opened Typology

  /** Everything the result page derives from one response set. */
  datatype ResultRecord = ResultRecord(
    total: int,
    axes: Triple,
    situational: int,
    situationalAxes: Triple,
    mainType: TypeKey,
    mentalType: TypeKey,
    mainCode: int,
    mentalCode: int,
    answers: seq<int>)

  /**
   * The result record of a response set: the aggregated scores, both types
   * (each "normal" exactly when its band is low) and the codes looked up in
   * the two tables.
   */
  function Evaluate(answers: seq<int>): (r: ResultRecord)
    requires |answers| == QuestionCount
    ensures r.answers == answers
    ensures r.total == Aggregate(answers).total && r.axes == Aggregate(answers).axes
    ensures r.situational == Aggregate(answers).situational && r.situationalAxes == SituationalAxes(answers)
    ensures r.total == AxisSum(r.axes) && r.situational == AxisSum(r.situationalAxes)
    ensures r.mainType == Normal <==> r.total <= 67
    ensures r.mentalType == Normal <==> r.situational <= 19
    ensures r.total > 67 ==> r.mainType == ClassifyByScores(r.axes.emotion, r.axes.norm, r.axes.reflect, MainMidCut, MainBalanceGap)
    ensures r.situational > 19 ==>
      r.mentalType == ClassifyByScores(r.situationalAxes.emotion, r.situationalAxes.norm, r.situationalAxes.reflect, MentalMidCut, MentalBalanceGap)
    ensures MainKeyOfCode(r.mainCode) == Some(r.mainType) && MentalKeyOfCode(r.mentalCode) == Some(r.mentalType)
  {
    var s := Aggregate(answers);
    var m := SituationalAxes(answers);
    var mainType := ClassifyMainType(s.total, s.axes.emotion, s.axes.norm, s.axes.reflect);
    var mentalType := ClassifyMentalType(s.situational, m.emotion, m.norm, m.reflect);
    CodeDecodes(mainType);
    CodeDecodes(mentalType);
    ResultRecord(s.total, s.axes, s.situational, m, mainType, mentalType,
                 MainCode(mainType), MentalCode(mentalType), answers)
  }

  /**
   * For a complete response set the record's scores keep every range and
   * containment of the aggregated scores: total in [27, 108], subscales and
   * situational score in [9, 36], situational sub-sums in [3, 12] and each at
   * most its subscale.
   */
  lemma EvaluateBounds(answers: seq<int>)
    requires ValidAnswers(answers)
    ensures var r := Evaluate(answers);
      && 27 <= r.total <= 108
      && 9 <= r.axes.emotion <= 36 && 9 <= r.axes.norm <= 36 && 9 <= r.axes.reflect <= 36
      && 9 <= r.situational <= 36
      && 3 <= r.situationalAxes.emotion <= 12 && 3 <= r.situationalAxes.norm <= 12
      && 3 <= r.situationalAxes.reflect <= 12
      && r.situationalAxes.emotion <= r.axes.emotion && r.situationalAxes.norm <= r.axes.norm
      && r.situationalAxes.reflect <= r.axes.reflect
  {
    ScoreBounds(answers);
  }

  /** All answers 4: total 108, an even 36/36/36 and 12/12/12, so balance in both, codes 1 and 11. */
  lemma AllHighAnswers()
    ensures var r := Evaluate(seq(QuestionCount, _ => 4));
      r.total == 108 && r.axes == Triple(36, 36, 36) && r.mainType == Balance && r.mainCode == 1 &&
      r.situational == 36 && r.situationalAxes == Triple(12, 12, 12) &&
      r.mentalType == Balance && r.mentalCode == 11
  {
    var a := seq(QuestionCount, _ => 4);
    SumConstant(a, 4);
    SumConstant(a[0..9], 4);
    SumConstant(a[9..18], 4);
    SumConstant(a[18..27], 4);
  }

  /** All answers 1: both scores are in the low band, so both types are normal, codes 5 and 15. */
  lemma AllLowAnswers()
    ensures var r := Evaluate(seq(QuestionCount, _ => 1));
      r.total == 27 && r.mainType == Normal && r.mainCode == 5 &&
      r.situational == 9 && r.mentalType == Normal && r.mentalCode == 15
  {
    var a := seq(QuestionCount, _ => 1);
    SumConstant(a, 1);
  }

  /** Columns of the stored row; Item(i) is the column "q{i}". */
  datatype Column = Time | Total | Gam | Su | Seong | Mental | MainTypeCode | MentalTypeCode | Item(number: int)

  datatype Cell = Num(n: int) | Text(s: string)

  /** An insertion-ordered dictionary from columns to cells. */
  type Row = seq<(Column, Cell)>

  predicate DistinctColumns(row: Row) {
    forall i, j :: 0 <= i < j < |row| ==> row[i].0 != row[j].0
  }

  /** Dictionary read: the cell stored under c, if any. */
  function Lookup(row: Row, c: Column): Option<Cell> {
    if row == [] then None
    else if row[0].0 == c then Some(row[0].1)
    else Lookup(row[1..], c)
  }

  /**
   * Dictionary item assignment: an existing column keeps its place and gets
   * the new cell, a new column is appended at the end.
   */
  function Put(row: Row, c: Column, v: Cell): (r: Row)
    ensures Lookup(r, c) == Some(v)
    ensures forall d :: d != c ==> Lookup(r, d) == Lookup(row, d)
    ensures (forall i :: 0 <= i < |row| ==> row[i].0 != c) ==> r == row + [(c, v)]
    ensures (exists i :: 0 <= i < |row| && row[i].0 == c) ==>
      |r| == |row| && forall i :: 0 <= i < |row| ==> r[i].0 == row[i].0
  {
    if row == [] then [(c, v)]
    else if row[0].0 == c then [(c, v)] + row[1..]
    else
      var r := [row[0]] + Put(row[1..], c, v);
      assert r[1..] == Put(row[1..], c, v);
      assert forall i :: 0 <= i < |row[1..]| ==> row[1..][i] == row[i + 1];
      r
  }

  /** The eight leading columns of the row, before the answers: none repeats and none is an item column. */
  function Header(rec: ResultRecord, time: string): (h: Row)
    ensures |h| == 8 && DistinctColumns(h)
    ensures forall i :: 0 <= i < |h| ==> !h[i].0.Item?
  {
    [(Time, Text(time)), (Total, Num(rec.total)),
     (Gam, Num(rec.axes.emotion)), (Su, Num(rec.axes.norm)), (Seong, Num(rec.axes.reflect)),
     (Mental, Num(rec.situational)),
     (MainTypeCode, Num(rec.mainCode)), (MentalTypeCode, Num(rec.mentalCode))]
  }

  /** Answer j (0-based) under the column q{j + 1}. */
  function ItemCells(answers: seq<int>): Row {
    seq(|answers|, j requires 0 <= j < |answers| => (Item(j + 1), Num(answers[j])))
  }

  /**
   * The row that is appended to the sheet for one result record: no column
   * appears twice, and after the eight leading columns comes q{j + 1} holding
   * answer j.
   */
  function RowOf(rec: ResultRecord, time: string): (row: Row)
    ensures DistinctColumns(row)
    ensures |row| == 8 + |rec.answers|
    ensures forall j :: 0 <= j < |rec.answers| ==> row[8 + j] == (Item(j + 1), Num(rec.answers[j]))
  {
    Header(rec, time) + ItemCells(rec.answers)
  }

  /**
   * The cells of a row in column order, as handed to the sheet. In a row
   * without repeated columns, the cell at each position is what the
   * dictionary holds under that position's column.
   */
  function Values(row: Row): (v: seq<Cell>)
    ensures |v| == |row|
    ensures DistinctColumns(row) ==> forall i :: 0 <= i < |row| ==> Lookup(row, row[i].0) == Some(v[i])
  {
    LookupEvery(row);
    seq(|row|, i requires 0 <= i < |row| => row[i].1)
  }

  /**
   * Builds the stored row: the header columns, then q1..q27 filled one by one
   * from the answers.
   */
  method BuildRow(rec: ResultRecord, time: string) returns (row: Row)
    ensures row == RowOf(rec, time)
  {
    row := Header(rec, time);
    var i := 0;
    while i < |rec.answers|
      invariant 0 <= i <= |rec.answers|
      invariant row == Header(rec, time) + ItemCells(rec.answers[..i])
    {
      assert forall k :: 0 <= k < |row| ==> row[k].0 != Item(i + 1);
      row := Put(row, Item(i + 1), Num(rec.answers[i]));
      assert ItemCells(rec.answers[..i + 1]) == ItemCells(rec.answers[..i]) + [(Item(i + 1), Num(rec.answers[i]))];
      i := i + 1;
    }
    assert rec.answers[..i] == rec.answers;
  }

  /** In a row without repeated columns, every column reads back its own cell. */
  lemma {:induction false} LookupAt(row: Row, i: int)
    requires DistinctColumns(row)
    requires 0 <= i < |row|
    ensures Lookup(row, row[i].0) == Some(row[i].1)
  {
    if i > 0 {
      assert row[1..][i - 1] == row[i];
      assert DistinctColumns(row[1..]);
      LookupAt(row[1..], i - 1);
    }
  }

  /** Every position of a row without repeated columns reads back through Lookup. */
  lemma LookupEvery(row: Row)
    ensures DistinctColumns(row) ==> forall i :: 0 <= i < |row| ==> Lookup(row, row[i].0) == Some(row[i].1)
  {
    if DistinctColumns(row) {
      forall i | 0 <= i < |row|
        ensures Lookup(row, row[i].0) == Some(row[i].1)
      {
        LookupAt(row, i);
      }
    }
  }

  /**
   * The stored row holds q_i = answers[i - 1] for every question i, the
   * scores and both codes under their columns, and the answers follow the
   * eight leading cells in question order.
   */
  lemma RowStoresRecord(rec: ResultRecord, time: string)
    ensures var row := RowOf(rec, time);
      && (forall q :: 1 <= q <= |rec.answers| ==> Lookup(row, Item(q)) == Some(Num(rec.answers[q - 1])))
      && Lookup(row, Time) == Some(Text(time))
      && Lookup(row, Total) == Some(Num(rec.total))
      && Lookup(row, Gam) == Some(Num(rec.axes.emotion))
      && Lookup(row, Su) == Some(Num(rec.axes.norm))
      && Lookup(row, Seong) == Some(Num(rec.axes.reflect))
      && Lookup(row, Mental) == Some(Num(rec.situational))
      && Lookup(row, MainTypeCode) == Some(Num(rec.mainCode))
      && Lookup(row, MentalTypeCode) == Some(Num(rec.mentalCode))
      && |Values(row)| == 8 + |rec.answers|
      && forall j :: 0 <= j < |rec.answers| ==> Values(row)[8 + j] == Num(rec.answers[j])
  {
    var row := RowOf(rec, time);
    forall q | 1 <= q <= |rec.answers|
      ensures Lookup(row, Item(q)) == Some(Num(rec.answers[q - 1]))
    {
      LookupAt(row, 7 + q);
    }
    LookupAt(row, 0);
    LookupAt(row, 1);
    LookupAt(row, 2);
    LookupAt(row, 3);
    LookupAt(row, 4);
    LookupAt(row, 5);
    LookupAt(row, 6);
    LookupAt(row, 7);
  }
}
