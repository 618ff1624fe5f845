/**
 * Concrete replies and what the extractor and the chart step make of them.
 */
module Scenarios {
  import opened Optional
  import opened Text
  import opened ScorePattern
  import opened Scores
  import opened Extraction
  import opened Radar
  import opened Prompt

  /** A reply that follows the requested format, with no final newline. */
  const FourLineReply: string :=
    "胆力：7点（粘り強い）\n"
      + "好奇心：8点（好奇心旺盛）\n"
      + "論理性：6点（根拠薄い）\n"
      + "協調性：7点（協調的）"

  const FourLineRows: seq<Row> := [
    Row("胆力", 7, "（粘り強い）"),
    Row("好奇心", 8, "（好奇心旺盛）"),
    Row("論理性", 6, "（根拠薄い）"),
    Row("協調性", 7, "（協調的）")
  ]

  lemma FourLineRowsWellFormed()
    ensures forall i :: 0 <= i < |FourLineRows| ==> WellFormed(FourLineRows[i])
  {
    forall i | 0 <= i < |FourLineRows| ensures WellFormed(FourLineRows[i]) {
      var r := FourLineRows[i];
      forall k | 0 <= k < |r.category| ensures !IsLineBreak(r.category[k]) {
        assert k == 0 || k == 1 || k == 2;
      }
      forall k | 0 <= k < |r.reason| ensures !IsLineBreak(r.reason[k]) && r.reason[k] != '：' {
        assert k == 0 || k == 1 || k == 2 || k == 3 || k == 4 || k == 5 || k == 6;
      }
    }
  }

  const FourLines: seq<string> := ["胆力：7点（粘り強い）", "好奇心：8点（好奇心旺盛）", "論理性：6点（根拠薄い）", "協調性：7点（協調的）"]

  lemma FourLineRowsRendered()
    ensures RenderRows(FourLineRows) == FourLines
  {
    assert ToDecimal(7) == "7" && ToDecimal(8) == "8" && ToDecimal(6) == "6";
    assert RenderRow(FourLineRows[0]) == FourLines[0];
    assert RenderRow(FourLineRows[1]) == FourLines[1];
    assert RenderRow(FourLineRows[2]) == FourLines[2];
    assert RenderRow(FourLineRows[3]) == FourLines[3];
    RowsRendered(FourLineRows, FourLines);
  }

  lemma FourLinesJoined()
    ensures JoinLines(FourLines) == FourLineReply + "\n"
  {
    var ls := FourLines;
    assert ls[1..][1..][1..][1..] == [];
    assert JoinLines(ls[1..][1..][1..]) == ls[3] + "\n";
    assert JoinLines(ls[1..][1..]) == ls[2] + "\n" + ls[3] + "\n";
    assert JoinLines(ls[1..]) == ls[1] + "\n" + ls[2] + "\n" + ls[3] + "\n";
  }

  /** The four-line reply gives the four criteria in order with 7, 8, 6 and 7. */
  lemma FourLineReplyScores()
    ensures Parse(FourLineReply).keys == ["胆力", "好奇心", "論理性", "協調性"]
    ensures Parse(FourLineReply).scores == map["胆力" := 7, "好奇心" := 8, "論理性" := 6, "協調性" := 7]
  {
    FourLineReplyAsRows();
    FourLineRowsParse();
  }

  /** Without its final newline, the reply still reads as the four rendered rows. */
  lemma FourLineReplyAsRows()
    ensures Parse(FourLineReply) == Parse(JoinLines(RenderRows(FourLineRows)))
  {
    FourLineRowsRendered();
    FourLinesJoined();
    assert FourLineReply[|FourLineReply| - 1] == '）';
    SplitFinalNewline(FourLineReply);
  }

  lemma FourLineRowsParse()
    ensures Parse(JoinLines(RenderRows(FourLineRows))).keys == ["胆力", "好奇心", "論理性", "協調性"]
    ensures Parse(JoinLines(RenderRows(FourLineRows))).scores == map["胆力" := 7, "好奇心" := 8, "論理性" := 6, "協調性" := 7]
  {
    var rows := FourLineRows;
    FourLineRowsWellFormed();
    CriteriaRows(rows);
    FourRowsParse(rows);
  }

  /**
   * Its chart has four axes at 0, 90, 180 and 270 degrees and the closed
   * value list 7, 8, 6, 7, 7.
   */
  lemma FourLineReplyChart(p: Polygon)
    requires ClosesOver(p, Parse(FourLineReply))
    ensures p.labels == ["胆力", "好奇心", "論理性", "協調性"]
    ensures p.values == [7, 8, 6, 7, 7]
    ensures p.angles == [Turn(0, 4), Turn(1, 4), Turn(2, 4), Turn(3, 4), Turn(0, 4)]
  {
    FourLineReplyScores();
    FourAxesChart(p, Parse(FourLineReply));
  }

  /** A reply that gives no score at all. */
  const Refusal: string := "評価できません"

  lemma RefusalLine()
    ensures NoLineBreak(Refusal)
    ensures forall k :: 0 <= k < |Refusal| ==> Refusal[k] != '：'
  {
    var s := Refusal;
    forall k | 0 <= k < |s| ensures !IsLineBreak(s[k]) && s[k] != '：' {
      assert k == 0 || k == 1 || k == 2 || k == 3 || k == 4 || k == 5 || k == 6;
    }
  }

  /** A refusal without any score line gives an empty dict, hence no chart. */
  lemma RefusalHasNoScores()
    ensures Parse(Refusal).keys == []
  {
    RefusalLine();
    NoColonNoMatch(Refusal);
    ParseOneLine(Refusal);
  }

  /** A score line with spaces around the label and a score above the scale. */
  const PaddedReply: string := " 胆力 ：15点"

  const PaddedRow: Row := Row(" 胆力 ", 15, "")

  lemma PaddedRowFacts()
    ensures RenderRow(PaddedRow) == PaddedReply
    ensures WellFormed(PaddedRow)
  {
    assert ToDecimal(15) == "15";
    var c := PaddedRow.category;
    forall k | 0 <= k < |c| ensures !IsLineBreak(c[k]) {
      assert k == 0 || k == 1 || k == 2 || k == 3;
    }
  }

  lemma PaddedRowStripped()
    ensures Strip(PaddedRow.category) == "胆力"
  {
    StripPadded(" ", "胆力", " ");
    assert " " + "胆力" + " " == PaddedRow.category;
  }

  /** A padded label is stripped, and a score above 10 is kept as written. */
  lemma PaddedLabelHighScore()
    ensures Parse(PaddedReply).keys == ["胆力"]
    ensures Parse(PaddedReply).scores == map["胆力" := 15]
  {
    PaddedRowFacts();
    PaddedRowStripped();
    ParseOneRow(PaddedRow);
  }

  /** A reason that holds a colon but no score after it. */
  const ColonReasonReply: string := "胆力：7点（理由：良い）"

  const ColonReasonRow: Row := Row("胆力", 7, "（理由：良い）")

  lemma ColonReasonRowFacts()
    ensures RenderRow(ColonReasonRow) == ColonReasonReply
    ensures WellFormed(ColonReasonRow)
  {
    assert ToDecimal(7) == "7";
    var c, reason := ColonReasonRow.category, ColonReasonRow.reason;
    forall k | 0 <= k < |c| ensures !IsLineBreak(c[k]) {
      assert k == 0 || k == 1;
    }
    forall k | 0 <= k < |reason| ensures !IsLineBreak(reason[k]) && !AcceptsAt(reason, k) {
      if k == 3 {
        assert DigitEnd(reason, 4) == 4;
      } else {
        assert k == 0 || k == 1 || k == 2 || k == 4 || k == 5 || k == 6;
      }
    }
  }

  /** A `：` inside the reason that is not followed by a score leaves the line's own label and score in place. */
  lemma ColonInReasonKept()
    ensures Parse(ColonReasonReply).keys == ["胆力"]
    ensures Parse(ColonReasonReply).scores == map["胆力" := 7]
  {
    ColonReasonRowFacts();
    ColonReasonRowStripped();
    ParseOneRow(ColonReasonRow);
  }

  lemma ColonReasonRowStripped()
    ensures Strip(ColonReasonRow.category) == "胆力"
  {
    CriteriaStripped();
    assert ColonReasonRow.category == Criteria[0];
  }

  /** A score line with nothing before the colon. */
  const EmptyLabelReply: string := "：5点"

  /** Group 1 may be empty: the score is then stored under the empty label. */
  lemma EmptyLabelKept()
    ensures Parse(EmptyLabelReply).keys == [""]
    ensures Parse(EmptyLabelReply).scores == map["" := 5]
  {
    var r := Row("", 5, "");
    assert RenderRow(r) == EmptyLabelReply by {
      assert ToDecimal(5) == "5";
    }
    assert Strip("") == "";
    ParseOneRow(r);
  }

  /** A score line whose reason holds a second score. */
  const GreedyReply: string := "胆力：7点（理由：3点）"

  lemma GreedyLineUnbroken()
    ensures NoLineBreak(GreedyReply)
  {
    var s := GreedyReply;
    forall k | 0 <= k < |s| ensures !IsLineBreak(s[k]) {
      assert k == 0 || k == 1 || k == 2 || k == 3 || k == 4 || k == 5 || k == 6 || k == 7 || k == 8 || k == 9 || k == 10 || k == 11;
    }
  }

  /**
   * A reason that itself holds `：<digits>点` takes over: group 1 runs to the
   * later colon, so the key is the whole head of the line and the score the
   * later number.
   */
  lemma ReasonWithScoreTakesOver()
    ensures Parse(GreedyReply).keys == ["胆力：7点（理由"]
    ensures Parse(GreedyReply).scores == map["胆力：7点（理由" := 3]
  {
    GreedyLineEntry();
    GreedyLineUnbroken();
    ParseOneLine(GreedyReply);
  }

  /** The later colon wins: the line's entry is its whole head with the later number. */
  lemma GreedyLineEntry()
    ensures ParseLine(GreedyReply) == Some(Entry(GreedyHead, 3))
  {
    GreedyLabelInReason();
    GreedyHeadUnpadded();
    assert DigitsValue("3") == 3;
  }

  const GreedyHead: string := "胆力：7点（理由"

  lemma GreedyHeadUnpadded()
    ensures Strip(GreedyHead) == GreedyHead
  {
    StripPadded([], GreedyHead, []);
    assert [] + GreedyHead + [] == GreedyHead;
  }

  /** Three score lines, the third one repeating the label of the first. */
  const OverwriteReply: string := "胆力：7点\n" + "好奇心：8点\n" + "胆力：9点\n"

  const OverwriteRows: seq<Row> := [Row("胆力", 7, ""), Row("好奇心", 8, ""), Row("胆力", 9, "")]

  lemma OverwriteRowsRendered()
    ensures JoinLines(RenderRows(OverwriteRows)) == OverwriteReply
  {
    var ls := RenderRows(OverwriteRows);
    assert ToDecimal(7) == "7" && ToDecimal(8) == "8" && ToDecimal(9) == "9";
    assert ls[0] == RenderRow(OverwriteRows[0]) == "胆力：7点";
    assert ls[1] == RenderRow(OverwriteRows[1]) == "好奇心：8点";
    assert ls[2] == RenderRow(OverwriteRows[2]) == "胆力：9点";
    assert ls[1..][1..][1..] == [];
    assert JoinLines(ls[1..][1..]) == ls[2] + "\n";
    assert JoinLines(ls[1..]) == ls[1] + "\n" + ls[2] + "\n";
  }

  lemma OverwriteRowsWellFormed()
    ensures forall i :: 0 <= i < |OverwriteRows| ==> WellFormed(OverwriteRows[i]) && Strip(OverwriteRows[i].category) == OverwriteRows[i].category
  {
    forall i | 0 <= i < |OverwriteRows|
      ensures WellFormed(OverwriteRows[i]) && Strip(OverwriteRows[i].category) == OverwriteRows[i].category
    {
      var c := OverwriteRows[i].category;
      forall k | 0 <= k < |c| ensures !IsLineBreak(c[k]) {
        assert k == 0 || k == 1 || k == 2;
      }
      StripPadded([], c, []);
      assert [] + c + [] == c;
    }
  }

  lemma OverwriteEntries()
    ensures Expected(OverwriteRows) == [Entry("胆力", 7), Entry("好奇心", 8), Entry("胆力", 9)]
  {
    var rows := OverwriteRows;
    var es := Expected(rows);
    OverwriteRowsWellFormed();
    ExpectedAt(rows, 0);
    ExpectedAt(rows, 1);
    ExpectedAt(rows, 2);
    SeqOfThree(es, Entry("胆力", 7), Entry("好奇心", 8), Entry("胆力", 9));
  }

  lemma SeqOfThree<T>(s: seq<T>, a: T, b: T, c: T)
    requires |s| == 3 && s[0] == a && s[1] == b && s[2] == c
    ensures s == [a, b, c]
  {
  }

  lemma OverwriteBuild()
    ensures Build([Entry("胆力", 7), Entry("好奇心", 8), Entry("胆力", 9)]).keys == ["胆力", "好奇心"]
    ensures Build([Entry("胆力", 7), Entry("好奇心", 8), Entry("胆力", 9)]).scores == map["胆力" := 9, "好奇心" := 8]
  {
    var a, b := "胆力", "好奇心";
    assert a != b by {
      assert |a| != |b|;
    }
    RepeatFirstLabel(a, b, 7, 8, 9);
  }

  /** Assigning two different labels into `{}` gives both, in that order. */
  lemma TwoLabels(a: string, b: string, x: int, y: int)
    requires a != b
    ensures Build([Entry(a, x), Entry(b, y)]) == ScoreMap([a, b], map[a := x][b := y])
  {
    var es1 := [Entry(a, x)];
    var es2 := es1 + [Entry(b, y)];
    assert es1[..0] == [] && es2[..1] == es1;
    var m1 := Build(es1);
    assert Build(es1[..0]) == Empty();
    assert m1 == Put(Build(es1[..0]), a, x);
    assert m1.keys == [a] && m1.scores == map[a := x];
    assert Build(es2) == Put(m1, b, y);
    assert b !in m1.scores;
    assert es2 == [Entry(a, x), Entry(b, y)];
  }

  /** Assigning `a`, then `b`, then `a` again leaves the keys `a, b` and `a`'s second score. */
  lemma RepeatFirstLabel(a: string, b: string, x: int, y: int, z: int)
    requires a != b
    ensures Build([Entry(a, x), Entry(b, y), Entry(a, z)]).keys == [a, b]
    ensures Build([Entry(a, x), Entry(b, y), Entry(a, z)]).scores == map[a := z, b := y]
  {
    var es2 := [Entry(a, x), Entry(b, y)];
    var es := es2 + [Entry(a, z)];
    TwoLabels(a, b, x, y);
    var m2 := Build(es2);
    assert es[..2] == es2;
    var r := Build(es);
    assert r == Put(m2, a, z);
    assert r.keys == [a, b] && r.scores == map[a := x][b := y][a := z];
    assert es == [Entry(a, x), Entry(b, y), Entry(a, z)];
    assert map[a := x][b := y][a := z] == map[a := z, b := y];
  }

  /**
   * A label given twice keeps its first place among the keys and takes its
   * last score.
   */
  lemma RepeatedLabelLastWins()
    ensures Parse(OverwriteReply).keys == ["胆力", "好奇心"]
    ensures Parse(OverwriteReply).scores == map["胆力" := 9, "好奇心" := 8]
  {
    OverwriteRowsRendered();
    OverwriteRowsWellFormed();
    ParseRendered(OverwriteRows);
    OverwriteEntries();
    OverwriteBuild();
  }
}
