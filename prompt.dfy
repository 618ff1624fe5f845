/**
 * The prompt sent with the transcript: a fixed text asking for a score out
 * of 10 on four criteria in the form `<criterion>：<n>点（<reason>）`, then
 * the marker `【面接内容】` on its own line, then the transcript verbatim,
 * then a final newline.
 */
module Prompt {
  import opened Optional
  import opened Text
  import opened Scores
  import opened ScorePattern
  import opened Extraction

  /** The opening blank line, the request, the four criteria and the sentence that introduces the format. */
  const Instructions: string :=
    "\n"
      + "以下の面接内容を、以下の4つの観点でそれぞれ10点満点で評価し、点数とその理由をコメントしてください：\n"
      + "\n"
      + "1. 胆力：粘着力、修羅場処理、長期戦が得意、決断して耐久して突破する力\n"
      + "2. 好奇心：新市場をかぎつける力、学習サイクルが高速、短期戦が得意、発見して学習して拡張する\n"
      + "3. 論理性：話の構成、理由や根拠の明示、具体例が含まれているか\n"
      + "4. 協調性：他者との信頼関係、チーム行動、対話への柔軟性があるか\n"
      + "\n"
      + "回答は以下の形式で出力してください：\n"

  /** The reply format shown between the two fences, one line per criterion. */
  const FormatExample: string :=
    "胆力：7点（理由）\n"
      + "好奇心：8点（理由）\n"
      + "論理性：6点（理由）\n"
      + "協調性：7点（理由）\n"

  const Marker: string := "【面接内容】"

  /** Everything the template puts before the transcript. */
  const Header: string := Instructions + "```\n" + FormatExample + "```\n" + "\n" + Marker + "\n"

  /** The f-string: the header, the transcript as it was uploaded, a final newline. */
  function BuildPrompt(content: string): (prompt: string)
    ensures |prompt| == |Header| + |content| + 1
    ensures prompt[..|Header|] == Header
    ensures prompt[|Header|..|prompt| - 1] == content
    ensures prompt[|prompt| - 1] == '\n'
  {
    Header + content + "\n"
  }

  /** The transcript a prompt was built from, if it was built by `BuildPrompt` at all. */
  function TranscriptOf(prompt: string): (content: Option<string>)
    ensures content.Some? ==> |content.value| + |Header| + 1 == |prompt|
    ensures content.None? ==> |prompt| <= |Header| || prompt[..|Header|] != Header || prompt[|prompt| - 1] != '\n'
  {
    if |prompt| > |Header| && prompt[..|Header|] == Header && prompt[|prompt| - 1] == '\n' then
      Some(prompt[|Header|..|prompt| - 1])
    else
      None
  }

  /** The transcript is carried unchanged: it is read back out of every prompt. */
  lemma TranscriptRoundTrip(content: string)
    ensures TranscriptOf(BuildPrompt(content)) == Some(content)
  {
    var p := BuildPrompt(content);
    assert |p| > |Header|;
  }

  /** Every text that `TranscriptOf` accepts is the prompt of the transcript it returns. */
  lemma PromptOfTranscript(prompt: string)
    requires TranscriptOf(prompt).Some?
    ensures BuildPrompt(TranscriptOf(prompt).value) == prompt
  {
    var c := TranscriptOf(prompt).value;
    assert prompt == prompt[..|Header|] + c + [prompt[|prompt| - 1]];
  }

  /** Different transcripts give different prompts. */
  lemma BuildPromptInjective(a: string, b: string)
    requires BuildPrompt(a) == BuildPrompt(b)
    ensures a == b
  {
    TranscriptRoundTrip(a);
    TranscriptRoundTrip(b);
  }

  /** The transcript starts on the line right after the marker line. */
  lemma TranscriptAfterMarker(content: string)
    ensures var p := BuildPrompt(content);
      p[|Header| - |Marker| - 1..|Header|] == Marker + "\n" && p[|Header|..|Header| + |content|] == content
  {
    var p := BuildPrompt(content);
    assert Header[|Header| - |Marker| - 1..] == Marker + "\n";
    assert p[|Header| - |Marker| - 1..|Header|] == Header[|Header| - |Marker| - 1..];
  }

  /** The format example, as rows: criterion, sample score, placeholder reason. */
  const FormatRows: seq<Row> := [
    Row("胆力", 7, "（理由）"),
    Row("好奇心", 8, "（理由）"),
    Row("論理性", 6, "（理由）"),
    Row("協調性", 7, "（理由）")
  ]

  lemma FormatRowsWellFormed()
    ensures forall i :: 0 <= i < |FormatRows| ==> WellFormed(FormatRows[i])
  {
    var reason := "（理由）";
    assert NoLineBreak(reason) && forall k :: 0 <= k < |reason| ==> reason[k] != '：' by {
      forall k | 0 <= k < |reason| ensures !IsLineBreak(reason[k]) && reason[k] != '：' {
        assert k == 0 || k == 1 || k == 2 || k == 3;
      }
    }
    forall i | 0 <= i < |FormatRows| ensures WellFormed(FormatRows[i]) {
      var c := FormatRows[i].category;
      forall k | 0 <= k < |c| ensures !IsLineBreak(c[k]) {
        assert k == 0 || k == 1 || k == 2;
      }
    }
  }

  /** The format example is the four rows written out as the extractor expects them. */
  const FormatLines: seq<string> := ["胆力：7点（理由）", "好奇心：8点（理由）", "論理性：6点（理由）", "協調性：7点（理由）"]

  lemma FormatRowsRendered()
    ensures RenderRows(FormatRows) == FormatLines
  {
    var lines := RenderRows(FormatRows);
    assert ToDecimal(7) == "7" && ToDecimal(8) == "8" && ToDecimal(6) == "6";
    assert lines[0] == RenderRow(FormatRows[0]) == FormatLines[0];
    assert lines[1] == RenderRow(FormatRows[1]) == FormatLines[1];
    assert lines[2] == RenderRow(FormatRows[2]) == FormatLines[2];
    assert lines[3] == RenderRow(FormatRows[3]) == FormatLines[3];
  }

  lemma FormatLinesJoined()
    ensures JoinLines(FormatLines) == FormatExample
  {
    var ls := FormatLines;
    assert ls[1..][1..][1..][1..] == [];
    assert JoinLines(ls[1..][1..][1..]) == ls[3] + "\n";
    assert JoinLines(ls[1..][1..]) == ls[2] + "\n" + ls[3] + "\n";
    assert JoinLines(ls[1..]) == ls[1] + "\n" + ls[2] + "\n" + ls[3] + "\n";
  }

  /** The four criteria the prompt asks to score, in its order. */
  const Criteria: seq<string> := ["胆力", "好奇心", "論理性", "協調性"]

  /** The criterion names carry no whitespace for `strip()` to remove. */
  lemma CriteriaStripped()
    ensures forall i :: 0 <= i < |Criteria| ==> Strip(Criteria[i]) == Criteria[i]
  {
    forall i | 0 <= i < |Criteria| ensures Strip(Criteria[i]) == Criteria[i] {
      var c := Criteria[i];
      StripPadded([], c, []);
      assert [] + c + [] == c;
    }
  }

  /** The four criterion names are pairwise different. */
  lemma CriteriaDistinct()
    ensures forall i, j :: 0 <= i < j < |Criteria| ==> Criteria[i] != Criteria[j]
  {
    forall i, j | 0 <= i < j < |Criteria| ensures Criteria[i] != Criteria[j] {
      var a, b := Criteria[i], Criteria[j];
      if |a| == |b| {
        assert a[0] != b[0] by {
          assert (i == 2 && j == 3) || (i == 1 && j == 2) || (i == 1 && j == 3);
        }
      }
    }
  }

  /** Rows labelled with the four criteria in order have unpadded, pairwise different labels. */
  lemma CriteriaRows(rows: seq<Row>)
    requires |rows| == |Criteria| && forall i :: 0 <= i < |rows| ==> rows[i].category == Criteria[i]
    ensures forall i :: 0 <= i < |rows| ==> Strip(rows[i].category) == rows[i].category
    ensures forall i, j :: 0 <= i < j < |rows| ==> Strip(rows[i].category) != Strip(rows[j].category)
  {
    CriteriaStripped();
    CriteriaDistinct();
  }

  /**
   * A reply written exactly like the format example is read back as the
   * four criteria in order with the example's scores.
   */
  lemma FormatExampleParses()
    ensures Parse(FormatExample).keys == ["胆力", "好奇心", "論理性", "協調性"]
    ensures Parse(FormatExample).scores == map["胆力" := 7, "好奇心" := 8, "論理性" := 6, "協調性" := 7]
  {
    FormatRowsRendered();
    FormatLinesJoined();
    FormatRowsWellFormed();
    CriteriaRows(FormatRows);
    FourRowsParse(FormatRows);
  }
}
