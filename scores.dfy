/**
 * The score dictionary `scores = {}` and its assignment `scores[category] = score`.
 * A Python dict remembers the order in which its keys were first inserted;
 * assigning to a key that is already there replaces the value and leaves the
 * key where it was.
 */
module Scores {

  /** One parsed line: the stripped label and the integer read from its digits. */
  datatype Entry = Entry(category: string, score: int)

  /** A dict from label to score: its keys in insertion order, and its contents. */
  datatype ScoreMap = ScoreMap(keys: seq<string>, scores: map<string, int>) {

    /** Keys are unique and are exactly the labels that have a score. */
    ghost predicate Valid() {
      && (forall i, j :: 0 <= i < j < |keys| ==> keys[i] != keys[j])
      && (forall k :: k in scores <==> k in keys)
    }
  }

  /** `{}` */
  function Empty(): (m: ScoreMap)
    ensures m.Valid() && m.keys == [] && m.scores == map[]
  {
    ScoreMap([], map[])
  }

  /** `d[k] = v` */
  function Put(m: ScoreMap, k: string, v: int): (r: ScoreMap)
    requires m.Valid()
    ensures r.Valid()
    ensures k in r.scores && r.scores[k] == v
    ensures forall k' :: k' != k ==> (k' in r.scores <==> k' in m.scores)
    ensures forall k' :: k' != k && k' in m.scores ==> r.scores[k'] == m.scores[k']
    ensures r.keys == if k in m.scores then m.keys else m.keys + [k]
  {
    if k in m.scores then ScoreMap(m.keys, m.scores[k := v])
    else ScoreMap(m.keys + [k], m.scores[k := v])
  }

  /** The dict obtained by assigning the entries one after another into `{}`. */
  function Build(es: seq<Entry>): (m: ScoreMap)
    ensures m.Valid()
  {
    if es == [] then Empty() else Put(Build(es[..|es| - 1]), es[|es| - 1].category, es[|es| - 1].score)
  }

  function Categories(es: seq<Entry>): (cs: seq<string>)
    ensures |cs| == |es| && forall i :: 0 <= i < |es| ==> cs[i] == es[i].category
  {
    seq(|es|, i requires 0 <= i < |es| => es[i].category)
  }

  /** The index of the first entry whose label is `k`, or `|es|` when there is none. */
  function FirstOcc(es: seq<Entry>, k: string): (r: nat)
    ensures r <= |es|
    ensures r < |es| ==> es[r].category == k
  {
    if es == [] then 0
    else if es[0].category == k then 0
    else 1 + FirstOcc(es[1..], k)
  }

  /** No entry before the first occurrence carries the label. */
  lemma {:induction false} FirstOccMinimal(es: seq<Entry>, k: string, i: nat)
    requires i < |es| && es[i].category == k
    ensures FirstOcc(es, k) <= i
  {
    if es[0].category != k {
      FirstOccMinimal(es[1..], k, i - 1);
    }
  }

  lemma BuildSnoc(es: seq<Entry>, e: Entry)
    ensures Build(es + [e]) == Put(Build(es), e.category, e.score)
  {
    assert (es + [e])[..|es|] == es;
  }

  /**
   * The dict holds a score for exactly the labels some entry carries, and it
   * has at most one key per entry.
   */
  lemma {:induction false} BuildDomain(es: seq<Entry>)
    ensures |Build(es).keys| <= |es|
    ensures forall k :: k in Build(es).scores <==> FirstOcc(es, k) < |es|
  {
    if es != [] {
      var init, e := es[..|es| - 1], es[|es| - 1];
      assert es == init + [e];
      BuildDomain(init);
      forall k ensures k in Build(es).scores <==> FirstOcc(es, k) < |es| {
        FirstOccPrefix(init, [e], k);
      }
    }
  }

  /** Where a label first occurs does not change when entries are added after it. */
  lemma {:induction false} FirstOccPrefix(a: seq<Entry>, b: seq<Entry>, k: string)
    ensures FirstOcc(a, k) < |a| ==> FirstOcc(a + b, k) == FirstOcc(a, k)
    ensures FirstOcc(a, k) == |a| ==> FirstOcc(a + b, k) == |a| + FirstOcc(b, k)
  {
    if a == [] {
      assert a + b == b;
    } else {
      assert (a + b)[0] == a[0];
      if a[0].category != k {
        assert (a + b)[1..] == a[1..] + b;
        FirstOccPrefix(a[1..], b, k);
      }
    }
  }

  /** Last write wins: a label's score is the one of the last entry that carries it. */
  lemma {:induction false} BuildLastWins(es: seq<Entry>, i: nat)
    requires i < |es|
    requires forall j :: i < j < |es| ==> es[j].category != es[i].category
    ensures es[i].category in Build(es).scores
    ensures Build(es).scores[es[i].category] == es[i].score
  {
    var init, e := es[..|es| - 1], es[|es| - 1];
    if i < |es| - 1 {
      BuildLastWins(init, i);
    }
  }

  /** `ks` lists labels that occur in `es`, in the order of their first occurrence. */
  ghost predicate InFirstSeenOrder(es: seq<Entry>, ks: seq<string>) {
    && (forall p :: 0 <= p < |ks| ==> FirstOcc(es, ks[p]) < |es|)
    && (forall p, q :: 0 <= p < q < |ks| ==> FirstOcc(es, ks[p]) < FirstOcc(es, ks[q]))
  }

  lemma FirstSeenSnoc(init: seq<Entry>, e: Entry, ks: seq<string>)
    requires InFirstSeenOrder(init, ks)
    ensures InFirstSeenOrder(init + [e], ks)
    ensures forall p :: 0 <= p < |ks| ==> FirstOcc(init + [e], ks[p]) < |init|
  {
    forall p | 0 <= p < |ks| ensures FirstOcc(init + [e], ks[p]) == FirstOcc(init, ks[p]) {
      FirstOccPrefix(init, [e], ks[p]);
    }
  }

  lemma FirstSeenSnocNew(es: seq<Entry>, ks: seq<string>, k: string)
    requires InFirstSeenOrder(es, ks)
    requires FirstOcc(es, k) < |es|
    requires forall p :: 0 <= p < |ks| ==> FirstOcc(es, ks[p]) < FirstOcc(es, k)
    ensures InFirstSeenOrder(es, ks + [k])
  {
    var ks' := ks + [k];
    forall p | 0 <= p < |ks'| ensures FirstOcc(es, ks'[p]) < |es| {
      if p < |ks| {
        assert ks'[p] == ks[p];
      }
    }
    forall p, q | 0 <= p < q < |ks'| ensures FirstOcc(es, ks'[p]) < FirstOcc(es, ks'[q]) {
      assert ks'[p] == ks[p];
      if q < |ks| {
        assert ks'[q] == ks[q];
      }
    }
  }

  /**
   * First-seen order: the keys appear in the order in which their labels
   * first occur among the entries; overwriting a label does not move it.
   */
  lemma {:induction false} BuildFirstSeenOrder(es: seq<Entry>)
    ensures InFirstSeenOrder(es, Build(es).keys)
  {
    if es != [] {
      var init, e := es[..|es| - 1], es[|es| - 1];
      BuildFirstSeenOrder(init);
      var m := Build(init);
      assert InFirstSeenOrder(es, m.keys) && forall p :: 0 <= p < |m.keys| ==> FirstOcc(es, m.keys[p]) < |init| by {
        assert es == init + [e];
        FirstSeenSnoc(init, e, m.keys);
      }
      assert Build(es) == Put(m, e.category, e.score);
      if e.category in m.scores {
        assert Build(es).keys == m.keys;
      } else {
        assert Build(es).keys == m.keys + [e.category];
        assert FirstOcc(es, e.category) == |init| by {
          BuildDomain(init);
          assert es == init + [e];
          FirstOccPrefix(init, [e], e.category);
        }
        FirstSeenSnocNew(es, m.keys, e.category);
      }
    }
  }

  /**
   * With pairwise different labels, the dict has one key per entry, in entry
   * order, each with its entry's score.
   */
  lemma BuildDistinct(es: seq<Entry>)
    requires forall i, j :: 0 <= i < j < |es| ==> es[i].category != es[j].category
    ensures Build(es).keys == Categories(es)
    ensures forall i :: 0 <= i < |es| ==> Build(es).scores[es[i].category] == es[i].score
  {
    BuildDistinctKeys(es);
    forall i | 0 <= i < |es| ensures Build(es).scores[es[i].category] == es[i].score {
      BuildLastWins(es, i);
    }
  }

  lemma {:induction false} BuildDistinctKeys(es: seq<Entry>)
    requires forall i, j :: 0 <= i < j < |es| ==> es[i].category != es[j].category
    ensures Build(es).keys == Categories(es)
  {
    if es != [] {
      var init, e := es[..|es| - 1], es[|es| - 1];
      assert forall i, j :: 0 <= i < j < |init| ==> init[i].category != init[j].category by {
        assert forall i :: 0 <= i < |init| ==> init[i] == es[i];
      }
      BuildDistinctKeys(init);
      assert e.category !in Categories(init) by {
        forall j | 0 <= j < |init| ensures Categories(init)[j] != e.category {
          assert init[j] == es[j];
        }
      }
      CategoriesLast(es);
    }
  }

  /** The labels of a non-empty list are those of all but its last entry, then the last one's. */
  lemma CategoriesLast(es: seq<Entry>)
    requires es != []
    ensures Categories(es) == Categories(es[..|es| - 1]) + [es[|es| - 1].category]
  {
  }

  /** Every score in the dict is the score of some entry; in particular none is negative when no entry is. */
  lemma {:induction false} BuildScoresFromEntries(es: seq<Entry>)
    ensures forall k :: k in Build(es).scores ==> exists i :: 0 <= i < |es| && es[i] == Entry(k, Build(es).scores[k])
  {
    if es != [] {
      var init, e := es[..|es| - 1], es[|es| - 1];
      BuildScoresFromEntries(init);
      var m, r := Build(init), Build(es);
      assert r == Put(m, e.category, e.score);
      forall k | k in r.scores
        ensures exists i :: 0 <= i < |es| && es[i] == Entry(k, r.scores[k])
      {
        if k == e.category {
          assert es[|es| - 1] == Entry(k, r.scores[k]);
        } else {
          assert k in m.scores && r.scores[k] == m.scores[k];
          var i :| 0 <= i < |init| && init[i] == Entry(k, m.scores[k]);
          assert es[i] == init[i];
        }
      }
    }
  }

  /** A valid dict with four keys holds exactly those four. */
  lemma FourKeys(m: ScoreMap, a: string, b: string, c: string, d: string)
    requires m.Valid() && |m.keys| == 4
    requires m.keys[0] == a && m.keys[1] == b && m.keys[2] == c && m.keys[3] == d
    ensures m.keys == [a, b, c, d]
    ensures m.scores == map[a := m.scores[a], b := m.scores[b], c := m.scores[c], d := m.scores[d]]
  {
    assert m.scores.Keys == {a, b, c, d};
  }
}
