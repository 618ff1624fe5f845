/**
 * The chart data built from the score dict: when the dict is not empty, its
 * labels in key order, its values in the same order with the first value
 * appended again, and `n` evenly spaced angles with the first angle
 * appended again, so that the plotted polygon ends where it started.
 */
module Radar {
  import opened Optional
  import opened Scores

  /**
   * The angle `index / count` of a full turn, that is entry `index` of
   * `np.linspace(0, 2π, count, endpoint=False)`, kept as an exact fraction.
   */
  datatype Turn = Turn(index: nat, count: nat)

  /** The angle in degrees, as `np.degrees` would give it without rounding. */
  function Degrees(t: Turn): real
    requires t.count > 0
  {
    360.0 * (t.index as real) / (t.count as real)
  }

  /** What the chart is drawn from: axis labels, closed value list, closed angle list. */
  datatype Polygon = Polygon(labels: seq<string>, values: seq<int>, angles: seq<Turn>)

  /**
   * `p` closes the polygon of `scores`: one label per key in key order; the
   * values in key order followed by the first value again; angle `i` is
   * `i / n` of a turn, followed by the first angle again.
   */
  ghost predicate ClosesOver(p: Polygon, scores: ScoreMap) {
    var n := |scores.keys|;
    && scores.Valid()
    && p.labels == scores.keys
    && |p.values| == n + 1
    && (forall i :: 0 <= i < n ==> p.values[i] == scores.scores[scores.keys[i]])
    && p.values[n] == p.values[0]
    && |p.angles| == n + 1
    && (forall i :: 0 <= i < n ==> p.angles[i] == Turn(i, n))
    && p.angles[n] == p.angles[0]
  }

  /**
   * `if scores:` and the closing of `values` and `angles`: no chart for an
   * empty dict, otherwise the closed polygon of the dict.
   */
  method PlotData(scores: ScoreMap) returns (chart: Option<Polygon>)
    requires scores.Valid()
    ensures chart.None? <==> scores.keys == []
    ensures chart.Some? ==> ClosesOver(chart.value, scores)
  {
    if scores.keys == [] {
      return None;
    }
    var labels := scores.keys;
    var n := |labels|;
    var values := seq(n, i requires 0 <= i < n && labels[i] in scores.scores => scores.scores[labels[i]]);
    values := values + values[..1];
    var angles := seq(n, i requires 0 <= i < n => Turn(i, n));
    angles := angles + angles[..1];
    chart := Some(Polygon(labels, values, angles));
  }

  /**
   * The axes are evenly spaced over one turn starting at 0 degrees: axis `i`
   * sits at `360 i / n` degrees, each axis is one `n`-th of a turn after the
   * previous one, every axis lies below 360 degrees, and the closing point is
   * back at 0.
   */
  lemma EvenlySpaced(p: Polygon, scores: ScoreMap)
    requires ClosesOver(p, scores) && scores.keys != []
    ensures var n := |scores.keys|;
      && (forall i :: 0 <= i < n ==> p.angles[i].count == n && Degrees(p.angles[i]) == 360.0 * (i as real) / (n as real))
      && (forall i :: 0 <= i < n ==> 0.0 <= Degrees(p.angles[i]) < 360.0)
      && (forall i :: 0 <= i < n - 1 ==> Degrees(p.angles[i + 1]) - Degrees(p.angles[i]) == 360.0 / (n as real))
      && Degrees(p.angles[n]) == 0.0
  {
    var n := |scores.keys|;
    forall i | 0 <= i < n ensures 0.0 <= Degrees(p.angles[i]) < 360.0 {
      AxisInTurn(i, n);
    }
    forall i | 0 <= i < n - 1 ensures Degrees(p.angles[i + 1]) - Degrees(p.angles[i]) == 360.0 / (n as real) {
      NextAxis(i, n);
    }
    assert p.angles[n] == Turn(0, n);
  }

  /** Axis `i` of `n` lies in [0, 360) degrees. */
  lemma AxisInTurn(i: nat, n: nat)
    requires i < n
    ensures 0.0 <= Degrees(Turn(i, n)) < 360.0
  {
    assert (i as real) / (n as real) < 1.0;
  }

  /** Axis `i + 1` of `n` is one `n`-th of a turn after axis `i`. */
  lemma NextAxis(i: nat, n: nat)
    requires i + 1 < n
    ensures Degrees(Turn(i + 1, n)) - Degrees(Turn(i, n)) == 360.0 / (n as real)
  {
  }

  /** A single axis gives two copies of angle 0 and two copies of its value. */
  lemma SingleAxis(p: Polygon, scores: ScoreMap)
    requires ClosesOver(p, scores) && |scores.keys| == 1
    ensures p.angles == [Turn(0, 1), Turn(0, 1)]
    ensures p.values == [scores.scores[scores.keys[0]], scores.scores[scores.keys[0]]]
  {
  }

  /** Four axes sit at 0, 90, 180 and 270 degrees, and the polygon has five points. */
  lemma FourAxes(p: Polygon, scores: ScoreMap)
    requires ClosesOver(p, scores) && |scores.keys| == 4
    ensures |p.values| == 5 && |p.angles| == 5
    ensures Degrees(p.angles[0]) == 0.0 && Degrees(p.angles[1]) == 90.0
    ensures Degrees(p.angles[2]) == 180.0 && Degrees(p.angles[3]) == 270.0
    ensures Degrees(p.angles[4]) == 0.0
  {
    assert p.angles[1] == Turn(1, 4) && p.angles[2] == Turn(2, 4) && p.angles[3] == Turn(3, 4);
    assert p.angles[4] == p.angles[0] == Turn(0, 4);
  }

  /** The whole chart of a four-key dict: its labels, its closed values and its closed angles. */
  lemma FourAxesChart(p: Polygon, scores: ScoreMap)
    requires ClosesOver(p, scores) && |scores.keys| == 4
    ensures p.labels == scores.keys
    ensures var v := scores.scores; var k := scores.keys;
      p.values == [v[k[0]], v[k[1]], v[k[2]], v[k[3]], v[k[0]]]
    ensures p.angles == [Turn(0, 4), Turn(1, 4), Turn(2, 4), Turn(3, 4), Turn(0, 4)]
  {
    assert p.angles[4] == p.angles[0];
    assert p.values[4] == p.values[0];
  }
}
