/**
 * The score-extraction loop over the model's reply:
 *
 *   for each line of the reply (`splitlines()`), match `(.*)：(\d+)点` from its
 *   first character; on a match, strip group 1 to get the category, read
 *   group 2 as an integer, and assign it into the dict.
 *
 * `ExtractScores` is the loop itself; `Parse` is the same computation stated
 * as a function (a left fold of dict assignments over the parsed lines), and
 * the lemmas below say what that dict holds.
 */
module Extraction {
  import opened Optional
  import opened Text
  import opened ScorePattern
  import opened Scores

  /**
   * What one line contributes: its category and score when the pattern
   * matches, nothing otherwise. A line contributes exactly when the pattern
   * can match it at all, and the category has no whitespace at either end.
   */
  function ParseLine(line: string): (r: Option<Entry>)
    ensures r.None? <==> forall c: nat, d: nat :: !PatternMatches(line, c, d)
    ensures r.Some? ==> Unpadded(r.value.category)
  {
    MatchNone(line);
    match Match(line)
    case None => None
    case Some(g) => Some(Entry(Strip(g.group1), DigitsValue(g.group2)))
  }

  /** The entries of the matching lines, in line order. */
  function Entries(lines: seq<string>): (es: seq<Entry>)
    ensures |es| <= |lines|
    ensures forall i :: 0 <= i < |es| ==> es[i].score >= 0
  {
    if lines == [] then []
    else
      var last := lines[|lines| - 1];
      Entries(lines[..|lines| - 1]) + if ParseLine(last).Some? then [ParseLine(last).value] else []
  }

  lemma EntriesSnoc(lines: seq<string>, line: string)
    ensures Entries(lines + [line]) ==
      Entries(lines) + if ParseLine(line).Some? then [ParseLine(line).value] else []
  {
    assert (lines + [line])[..|lines|] == lines;
  }

  /**
   * One step of the loop: a matching line assigns its category and score
   * into the dict built so far; any other line leaves it as it was.
   */
  lemma LoopStep(before: seq<string>, line: string)
    ensures Build(Entries(before + [line])) ==
      match Match(line)
      case None => Build(Entries(before))
      case Some(g) => Put(Build(Entries(before)), Strip(g.group1), DigitsValue(g.group2))
  {
    EntriesSnoc(before, line);
    if Match(line).Some? {
      BuildSnoc(Entries(before), ParseLine(line).value);
    } else {
      assert Entries(before) + [] == Entries(before);
    }
  }

  /** Iteration `i` of the loop, stated on the prefix of lines it has seen. */
  lemma StepOfLoop(lines: seq<string>, i: nat)
    requires i < |lines|
    ensures Build(Entries(lines[..i + 1])) ==
      match Match(lines[i])
      case None => Build(Entries(lines[..i]))
      case Some(g) => Put(Build(Entries(lines[..i])), Strip(g.group1), DigitsValue(g.group2))
  {
    assert lines[..i + 1] == lines[..i] + [lines[i]];
    LoopStep(lines[..i], lines[i]);
  }

  /**
   * The dict the loop leaves behind for a reply: a valid dict with at most
   * one key per line of the reply and no negative score.
   */
  function Parse(resultText: string): (r: ScoreMap)
    ensures r.Valid()
    ensures |r.keys| <= |SplitLines(resultText)|
    ensures forall k :: k in r.scores ==> r.scores[k] >= 0
  {
    var es := Entries(SplitLines(resultText));
    BuildDomain(es);
    BuildScoresFromEntries(es);
    Build(es)
  }

  /**
   * The loop of the source, over a dict kept as its key order and its
   * contents. It computes `Parse`: last write wins, first-seen key order.
   */
  method ExtractScores(resultText: string) returns (scores: ScoreMap)
    ensures scores == Parse(resultText)
    ensures scores.Valid()
    ensures |scores.keys| <= |SplitLines(resultText)|
    ensures forall k :: k in scores.scores ==> scores.scores[k] >= 0
  {
    var keys: seq<string> := [];
    var values: map<string, int> := map[];
    var lines := SplitLines(resultText);
    for i := 0 to |lines|
      invariant ScoreMap(keys, values) == Build(Entries(lines[..i]))
    {
      var line := lines[i];
      ghost var before := ScoreMap(keys, values);
      StepOfLoop(lines, i);
      var m := Match(line);
      if m.Some? {
        var category := Strip(m.value.group1);
        var score := DigitsValue(m.value.group2);
        if category !in values {
          keys := keys + [category];
        }
        values := values[category := score];
        assert ScoreMap(keys, values) == Put(before, category, score);
      }
    }
    assert lines[..|lines|] == lines;
    scores := ScoreMap(keys, values);
    assert scores == Parse(resultText);
  }

  lemma {:induction false} EntriesAppend(a: seq<string>, b: seq<string>)
    ensures Entries(a + b) == Entries(a) + Entries(b)
    decreases |b|
  {
    if b == [] {
      assert a + b == a;
    } else {
      var init := b[..|b| - 1];
      assert (a + b)[..|a + b| - 1] == a + init;
      assert (a + b)[|a + b| - 1] == b[|b| - 1];
      EntriesAppend(a, init);
    }
  }

  /** A line the pattern does not match changes nothing, wherever it stands. */
  lemma NonMatchingLineIgnored(before: seq<string>, line: string, after: seq<string>)
    requires Match(line).None?
    ensures Entries(before + [line] + after) == Entries(before + after)
    ensures Build(Entries(before + [line] + after)) == Build(Entries(before + after))
  {
    EntriesAppend(before + [line], after);
    EntriesAppend(before, [line]);
    EntriesAppend(before, after);
    assert [line][..0] == [];
  }

  lemma {:induction false} EntriesEmpty(lines: seq<string>)
    ensures Entries(lines) == [] <==> forall i :: 0 <= i < |lines| ==> Match(lines[i]).None?
  {
    if lines != [] {
      var init, last := lines[..|lines| - 1], lines[|lines| - 1];
      assert lines == init + [last];
      EntriesSnoc(init, last);
      EntriesEmpty(init);
      assert forall i :: 0 <= i < |init| ==> init[i] == lines[i];
    }
  }

  lemma BuildEmpty(es: seq<Entry>)
    ensures Build(es).keys == [] <==> es == []
  {
    BuildDomain(es);
    if es != [] {
      assert FirstOcc(es, es[0].category) == 0;
      assert es[0].category in Build(es).scores;
    }
  }

  /**
   * No chart data: the dict is empty exactly when no line of the reply
   * matches, in particular for an empty reply.
   */
  lemma EmptyExactlyWhenNothingMatches(resultText: string)
    ensures Parse(resultText).keys == [] <==> forall line :: line in SplitLines(resultText) ==> Match(line).None?
    ensures resultText == [] ==> Parse(resultText).keys == []
  {
    var lines := SplitLines(resultText);
    EntriesEmpty(lines);
    BuildEmpty(Entries(lines));
    assert (forall i :: 0 <= i < |lines| ==> Match(lines[i]).None?) <==>
      (forall line :: line in lines ==> Match(line).None?);
  }



  /** A line as the prompt asks the model to write it: `<label>：<score>点<reason>`. */
  datatype Row = Row(category: string, score: nat, reason: string)

  function RenderRow(r: Row): string {
    r.category + "：" + ToDecimal(r.score) + "点" + r.reason
  }

  /**
   * A row the extractor reads back: nothing in it splits the line, and no
   * `：<digits>点` starts inside the reason (a plain `：` there is fine).
   */
  predicate WellFormed(r: Row) {
    && NoLineBreak(r.category)
    && NoLineBreak(r.reason)
    && forall k :: 0 <= k < |r.reason| ==> !AcceptsAt(r.reason, k)
  }

  function RenderRows(rows: seq<Row>): (lines: seq<string>)
    ensures |lines| == |rows| && forall i :: 0 <= i < |rows| ==> lines[i] == RenderRow(rows[i])
  {
    if rows == [] then [] else RenderRows(rows[..|rows| - 1]) + [RenderRow(rows[|rows| - 1])]
  }

  /** Rows render to given lines when each row renders to the line at its place. */
  lemma RowsRendered(rows: seq<Row>, lines: seq<string>)
    requires |rows| == |lines|
    requires forall i :: 0 <= i < |rows| ==> RenderRow(rows[i]) == lines[i]
    ensures RenderRows(rows) == lines
  {
  }

  /** The entries a well-formed reply should produce: the stripped labels and their scores. */
  function Expected(rows: seq<Row>): (es: seq<Entry>)
    ensures |es| == |rows|
  {
    if rows == [] then []
    else
      var r := rows[|rows| - 1];
      Expected(rows[..|rows| - 1]) + [Entry(Strip(r.category), r.score)]
  }

  lemma {:induction false} ExpectedAt(rows: seq<Row>, i: nat)
    requires i < |rows|
    ensures Expected(rows)[i] == Entry(Strip(rows[i].category), rows[i].score)
  {
    if i < |rows| - 1 {
      ExpectedAt(rows[..|rows| - 1], i);
    }
  }

  /** One rendered line parses back to its stripped label and its score, whatever the reason says. */
  lemma ParseRenderedRow(r: Row)
    requires WellFormed(r)
    ensures ParseLine(RenderRow(r)) == Some(Entry(Strip(r.category), r.score))
  {
    var ds := ToDecimal(r.score);
    assert forall k :: 0 <= k < |r.category| ==> r.category[k] != '\n' by {
      assert forall k :: 0 <= k < |r.category| ==> !IsLineBreak(r.category[k]);
    }
    MatchScoreLine(r.category, ds, r.reason);
    DecimalRoundTrip(r.score);
  }

  lemma {:induction false} EntriesOfRendered(rows: seq<Row>)
    requires forall i :: 0 <= i < |rows| ==> WellFormed(rows[i])
    ensures Entries(RenderRows(rows)) == Expected(rows)
  {
    if rows != [] {
      var init, r := rows[..|rows| - 1], rows[|rows| - 1];
      EntriesSnoc(RenderRows(init), RenderRow(r));
      EntriesOfRendered(init);
      ParseRenderedRow(r);
    }
  }

  lemma RenderedRowUnbroken(r: Row)
    requires WellFormed(r)
    ensures NoLineBreak(RenderRow(r))
  {
    var s, ds := RenderRow(r), ToDecimal(r.score);
    var c, d := |r.category|, |ToDecimal(r.score)|;
    forall k | 0 <= k < |s| ensures !IsLineBreak(s[k]) {
      if k < c {
        assert s[k] == r.category[k];
      } else if k == c {
        assert s[k] == '：';
      } else if k <= c + d {
        assert s[k] == ds[k - c - 1];
      } else if k == c + d + 1 {
        assert s[k] == '点';
      } else {
        assert s[k] == r.reason[k - c - d - 2];
      }
    }
  }

  lemma RenderedLinesUnbroken(rows: seq<Row>)
    requires forall i :: 0 <= i < |rows| ==> WellFormed(rows[i])
    ensures forall i :: 0 <= i < |rows| ==> NoLineBreak(RenderRows(rows)[i])
  {
    forall i | 0 <= i < |rows| ensures NoLineBreak(RenderRows(rows)[i]) {
      RenderedRowUnbroken(rows[i]);
    }
  }

  /**
   * Round trip: a reply written line by line in the prompt's format is read
   * back as the dict of its stripped labels and scores.
   */
  lemma ParseRendered(rows: seq<Row>)
    requires forall i :: 0 <= i < |rows| ==> WellFormed(rows[i])
    ensures Parse(JoinLines(RenderRows(rows))) == Build(Expected(rows))
  {
    RenderedLinesUnbroken(rows);
    SplitJoin(RenderRows(rows));
    EntriesOfRendered(rows);
  }

  /**
   * With k well-formed lines whose labels are pairwise different, the dict
   * has exactly k keys, in line order, each with its line's score.
   */
  lemma ParseDistinctRows(rows: seq<Row>)
    requires forall i :: 0 <= i < |rows| ==> WellFormed(rows[i])
    requires forall i, j :: 0 <= i < j < |rows| ==> Strip(rows[i].category) != Strip(rows[j].category)
    ensures |Parse(JoinLines(RenderRows(rows))).keys| == |rows|
    ensures forall i :: 0 <= i < |rows| ==>
      && Parse(JoinLines(RenderRows(rows))).keys[i] == Strip(rows[i].category)
      && Parse(JoinLines(RenderRows(rows))).scores[Strip(rows[i].category)] == rows[i].score
  {
    ParseRendered(rows);
    var es := Expected(rows);
    forall i | 0 <= i < |rows| ensures es[i] == Entry(Strip(rows[i].category), rows[i].score) {
      ExpectedAt(rows, i);
    }
    BuildDistinct(es);
  }

  /** Four well-formed rows with unpadded, pairwise different labels give the dict of those four. */
  lemma FourRowsParse(rows: seq<Row>)
    requires |rows| == 4
    requires forall i :: 0 <= i < |rows| ==> WellFormed(rows[i])
    requires forall i :: 0 <= i < |rows| ==> Strip(rows[i].category) == rows[i].category
    requires forall i, j :: 0 <= i < j < |rows| ==> Strip(rows[i].category) != Strip(rows[j].category)
    ensures Parse(JoinLines(RenderRows(rows))).keys == [rows[0].category, rows[1].category, rows[2].category, rows[3].category]
    ensures Parse(JoinLines(RenderRows(rows))).scores ==
      map[rows[0].category := rows[0].score, rows[1].category := rows[1].score,
          rows[2].category := rows[2].score, rows[3].category := rows[3].score]
  {
    var m := Parse(JoinLines(RenderRows(rows)));
    var a, b, c, d := rows[0], rows[1], rows[2], rows[3];
    assert |m.keys| == 4 && m.keys[0] == a.category && m.keys[1] == b.category
      && m.keys[2] == c.category && m.keys[3] == d.category
      && m.scores[a.category] == a.score && m.scores[b.category] == b.score
      && m.scores[c.category] == c.score && m.scores[d.category] == d.score by {
      ParseDistinctRows(rows);
    }
    FourKeys(m, a.category, b.category, c.category, d.category);
  }

  /** A reply of one line gives the dict of that line alone. */
  lemma ParseOneLine(s: string)
    requires s != [] && NoLineBreak(s)
    ensures Parse(s) == match ParseLine(s)
      case None => Empty()
      case Some(e) => Put(Empty(), e.category, e.score)
  {
    SplitSingleLine(s);
    EntriesSnoc([], s);
    assert [] + [s] == [s];
    if ParseLine(s).Some? {
      BuildSnoc([], ParseLine(s).value);
    }
  }

  /** A reply of one well-formed row gives the dict of its stripped label and its score. */
  lemma ParseOneRow(r: Row)
    requires WellFormed(r)
    ensures Parse(RenderRow(r)).keys == [Strip(r.category)]
    ensures Parse(RenderRow(r)).scores == map[Strip(r.category) := r.score]
  {
    RenderedRowUnbroken(r);
    ParseRenderedRow(r);
    ParseOneLine(RenderRow(r));
  }
}
