/**
 * `re.match(r"(.*)：(\d+)点", line)` and `int(match.group(2))`.
 *
 * `re.match` anchors at the first character of the line only, so whatever
 * follows `点` is never looked at by the pattern itself. The greedy `(.*)`
 * backtracks from the longest reach of `.` (everything up to the first
 * "\n"), so group 1 ends at the LAST full-width colon that is directly
 * followed by a digit run and `点`; `\d+` is greedy too and, since `点` is
 * not a digit, group 2 is the whole digit run after that colon.
 */
module ScorePattern {
  import opened Optional

  /** `\d`: the ASCII digits and the full-width digits U+FF10..U+FF19. */
  predicate IsDigit(c: char) {
    '0' <= c <= '9' || '０' <= c <= '９'
  }

  function DigitValue(c: char): (v: nat)
    requires IsDigit(c)
    ensures v < 10
  {
    if c <= '9' then c as int - '0' as int else c as int - '０' as int
  }

  predicate AllDigits(s: string) {
    forall k :: 0 <= k < |s| ==> IsDigit(s[k])
  }

  /** The end of the run of digits that starts at `i`. */
  function DigitEnd(s: string, i: nat): (j: nat)
    requires i <= |s|
    ensures i <= j <= |s|
    ensures forall k :: i <= k < j ==> IsDigit(s[k])
    ensures j < |s| ==> !IsDigit(s[j])
    decreases |s| - i
  {
    if i < |s| && IsDigit(s[i]) then DigitEnd(s, i + 1) else i
  }

  /** How far `.` can reach from the start: up to the first "\n", or the end. */
  function DotReach(s: string, i: nat): (j: nat)
    requires i <= |s|
    ensures i <= j <= |s|
    ensures forall k :: i <= k < j ==> s[k] != '\n'
    ensures j < |s| ==> s[j] == '\n'
    decreases |s| - i
  {
    if i < |s| && s[i] != '\n' then DotReach(s, i + 1) else i
  }

  /** Position `c` holds `：`, then one or more digits, then `点`. */
  predicate AcceptsAt(s: string, c: nat) {
    c < |s| && s[c] == '：' &&
    var e := DigitEnd(s, c + 1);
    c + 1 < e < |s| && s[e] == '点'
  }

  /** The largest position below `c` that `AcceptsAt` holds for. */
  function LastAcceptBelow(s: string, c: nat): (r: Option<nat>)
    ensures r.Some? ==> r.value < c && AcceptsAt(s, r.value)
    ensures forall k :: (if r.Some? then r.value else 0) <= k < c && (r.None? || k != r.value) ==> !AcceptsAt(s, k)
  {
    if c == 0 then None
    else if AcceptsAt(s, c - 1) then Some(c - 1)
    else LastAcceptBelow(s, c - 1)
  }

  /** The two groups of a successful match. */
  datatype Groups = Groups(group1: string, group2: string)

  /** `re.match(r"(.*)：(\d+)点", line)`, reduced to its two groups. */
  function Match(line: string): (m: Option<Groups>)
    ensures m.Some? ==> |m.value.group2| >= 1 && AllDigits(m.value.group2)
  {
    match LastAcceptBelow(line, DotReach(line, 0))
    case None => None
    case Some(c) => Some(Groups(line[..c], line[c + 1..DigitEnd(line, c + 1)]))
  }

  /**
   * The regular expression matches a prefix of `s` with group 1 being the
   * first `c` characters and group 2 the `d` characters after the colon.
   */
  ghost predicate PatternMatches(s: string, c: nat, d: nat) {
    && c + d + 1 < |s|
    && (forall k :: 0 <= k < c ==> s[k] != '\n')
    && s[c] == '：'
    && d >= 1
    && (forall k :: c + 1 <= k <= c + d ==> IsDigit(s[k]))
    && s[c + d + 1] == '点'
  }

  lemma AcceptsWhenMatches(s: string, c: nat, d: nat)
    requires PatternMatches(s, c, d)
    ensures AcceptsAt(s, c) && DigitEnd(s, c + 1) == c + d + 1
    ensures c < DotReach(s, 0)
  {
    var e := DigitEnd(s, c + 1);
    assert !IsDigit(s[c + d + 1]);
  }

  /** A match that `Match` reports is one the regular expression accepts. */
  lemma MatchSound(s: string)
    requires Match(s).Some?
    ensures var g := Match(s).value;
      && PatternMatches(s, |g.group1|, |g.group2|)
      && g.group1 == s[..|g.group1|]
      && g.group2 == s[|g.group1| + 1..|g.group1| + 1 + |g.group2|]
  {
    var c := LastAcceptBelow(s, DotReach(s, 0)).value;
    assert forall k :: 0 <= k < c ==> s[k] != '\n';
  }

  /**
   * `Match` reports the alternative Python's backtracking tries first: if the
   * pattern can match with group 1 of length `c` and group 2 of length `d`,
   * then `Match` finds a match, its group 1 is at least as long, and when it
   * is as long its group 2 is the same length.
   */
  lemma MatchPriority(s: string, c: nat, d: nat)
    requires PatternMatches(s, c, d)
    ensures Match(s).Some?
    ensures var g := Match(s).value;
      c < |g.group1| || (c == |g.group1| && d == |g.group2|)
  {
    AcceptsWhenMatches(s, c, d);
    var r := LastAcceptBelow(s, DotReach(s, 0));
    assert r.Some?;
  }

  /** No match is reported exactly when the pattern matches in no way at all. */
  lemma MatchNone(s: string)
    ensures Match(s).None? <==> forall c: nat, d: nat :: !PatternMatches(s, c, d)
  {
    if Match(s).Some? {
      MatchSound(s);
    } else {
      forall c: nat, d: nat ensures !PatternMatches(s, c, d) {
        if PatternMatches(s, c, d) {
          MatchPriority(s, c, d);
        }
      }
    }
  }

  /** A line without a full-width colon never matches. */
  lemma NoColonNoMatch(s: string)
    requires forall k :: 0 <= k < |s| ==> s[k] != '：'
    ensures Match(s).None?
  {
    if Match(s).Some? {
      MatchHasColon(s);
      assert false;
    }
  }

  /** A reported match has a full-width colon right after group 1. */
  lemma MatchHasColon(s: string)
    requires Match(s).Some?
    ensures |Match(s).value.group1| < |s| && s[|Match(s).value.group1|] == '：'
  {
    MatchSound(s);
  }

  /** The digit run scanned inside a tail of a text is the one scanned in the tail alone, shifted. */
  lemma {:induction false} DigitEndShift(p: string, t: string, i: nat)
    requires i <= |t|
    ensures DigitEnd(p + t, |p| + i) == |p| + DigitEnd(t, i)
    decreases |t| - i
  {
    if i < |t| {
      assert (p + t)[|p| + i] == t[i];
      if IsDigit(t[i]) {
        DigitEndShift(p, t, i + 1);
      }
    }
  }

  /** Whether `：<digits>点` starts at a position depends only on what follows it. */
  lemma AcceptsShift(p: string, t: string, k: nat)
    ensures AcceptsAt(p + t, |p| + k) <==> AcceptsAt(t, k)
  {
    if k < |t| {
      assert (p + t)[|p| + k] == t[k];
      DigitEndShift(p, t, k + 1);
      var e := DigitEnd(t, k + 1);
      if e < |t| {
        assert (p + t)[|p| + e] == t[e];
      }
    }
  }

  /**
   * A line shaped `<head>：<digits>点<rest>` matches with exactly `head` as
   * group 1 and that digit run as group 2, whatever `rest` holds, as long as
   * no `：<digits>点` starts inside `rest` (a reason such as `（理由：良い）`
   * is fine).
   */
  lemma MatchScoreLine(head: string, digits: string, rest: string)
    requires forall k :: 0 <= k < |head| ==> head[k] != '\n'
    requires |digits| >= 1 && AllDigits(digits)
    requires forall k :: 0 <= k < |rest| ==> !AcceptsAt(rest, k)
    ensures Match(head + "：" + digits + "点" + rest) == Some(Groups(head, digits))
  {
    var s := head + "：" + digits + "点" + rest;
    var c, d := |head|, |digits|;
    assert PatternMatches(s, c, d) by {
      assert s[c] == '：';
      assert forall k :: c + 1 <= k <= c + d ==> s[k] == digits[k - c - 1];
      assert s[c + d + 1] == '点';
    }
    MatchPriority(s, c, d);
    MatchSound(s);
    var g := Match(s).value;
    if |g.group1| > c {
      NoAcceptAfterHead(head, digits, rest);
      AcceptsWhenMatches(s, |g.group1|, |g.group2|);
      assert false;
    }
    assert s[..c] == head;
    assert s[c + 1..c + 1 + d] == digits;
  }

  /** With no `：<digits>点` inside `rest`, the colon after `head` is the last place the pattern can use. */
  lemma NoAcceptAfterHead(head: string, digits: string, rest: string)
    requires AllDigits(digits)
    requires forall k :: 0 <= k < |rest| ==> !AcceptsAt(rest, k)
    ensures var s := head + "：" + digits + "点" + rest;
      forall j :: |head| < j < |s| ==> !AcceptsAt(s, j)
  {
    var p := head + "：" + digits + "点";
    var s := p + rest;
    forall j | |head| < j < |s| ensures !AcceptsAt(s, j) {
      if j >= |p| {
        AcceptsShift(p, rest, j - |p|);
      } else if j < |p| - 1 {
        assert s[j] == digits[j - |head| - 1];
        assert !IsDigit('：');
      } else {
        assert s[j] == '点';
      }
    }
  }

  /**
   * The converse: when a `：<digits>点` does start inside `rest` (and the line
   * has no "\n"), group 1 runs at least up to that later colon.
   */
  lemma ScoreInRestTakesOver(head: string, digits: string, rest: string, k: nat)
    requires forall j :: 0 <= j < |head| ==> head[j] != '\n'
    requires |digits| >= 1 && AllDigits(digits)
    requires forall j :: 0 <= j < |rest| ==> rest[j] != '\n'
    requires AcceptsAt(rest, k)
    ensures Match(head + "：" + digits + "点" + rest).Some?
    ensures |Match(head + "：" + digits + "点" + rest).value.group1| >= |head| + |digits| + 2 + k
  {
    var p := head + "：" + digits + "点";
    var s := p + rest;
    var c := |p| + k;
    AcceptsShift(p, rest, k);
    var e := DigitEnd(s, c + 1);
    assert forall j :: 0 <= j < c ==> s[j] != '\n' by {
      forall j | 0 <= j < c ensures s[j] != '\n' {
        if j < |head| {
          assert s[j] == head[j];
        } else if j >= |p| {
          assert s[j] == rest[j - |p|];
        } else if |head| < j < |p| - 1 {
          assert s[j] == digits[j - |head| - 1];
        }
      }
    }
    assert PatternMatches(s, c, e - c - 1);
    MatchPriority(s, c, e - c - 1);
  }

  /**
   * Within one line, `<head>：<digits>点<rest>` is read as `head` and
   * `digits` exactly when no `：<digits>点` starts inside `rest`.
   */
  lemma MatchScoreLineIff(head: string, digits: string, rest: string)
    requires forall k :: 0 <= k < |head| ==> head[k] != '\n'
    requires |digits| >= 1 && AllDigits(digits)
    requires forall k :: 0 <= k < |rest| ==> rest[k] != '\n'
    ensures Match(head + "：" + digits + "点" + rest) == Some(Groups(head, digits))
      <==> forall k :: 0 <= k < |rest| ==> !AcceptsAt(rest, k)
  {
    if forall k :: 0 <= k < |rest| ==> !AcceptsAt(rest, k) {
      MatchScoreLine(head, digits, rest);
    } else {
      var k :| 0 <= k < |rest| && AcceptsAt(rest, k);
      ScoreInRestTakesOver(head, digits, rest, k);
    }
  }

  /**
   * The greedy group 1: a reason that itself holds `：<digits>点` moves both
   * groups to that later colon.
   */
  lemma GreedyLabelInReason()
    ensures Match("胆力：7点（理由：3点）") == Some(Groups("胆力：7点（理由", "3"))
  {
    assert "胆力：7点（理由" + "：" + "3" + "点" + "）" == "胆力：7点（理由：3点）";
    MatchScoreLine("胆力：7点（理由", "3", "）");
  }

  function Pow10(n: nat): (p: nat)
    ensures p >= 1
  {
    if n == 0 then 1 else 10 * Pow10(n - 1)
  }

  /**
   * `int()` on a digit run: its base-10 value, leading zeros and all. The
   * value is never negative, and a run of `k` digits is worth less than 10^k.
   */
  function DigitsValue(ds: string): (v: nat)
    requires AllDigits(ds)
    ensures v < Pow10(|ds|)
  {
    if ds == [] then 0 else DigitsValue(ds[..|ds| - 1]) * 10 + DigitValue(ds[|ds| - 1])
  }

  /** Python's `str(n)` for a natural number: its ASCII decimal digits. */
  function ToDecimal(n: nat): (ds: string)
    ensures |ds| >= 1 && AllDigits(ds)
    ensures forall k :: 0 <= k < |ds| ==> '0' <= ds[k] <= '9'
    ensures n < Pow10(|ds|) && (|ds| == 1 || Pow10(|ds| - 1) <= n)
    decreases n
  {
    var last := ['0' + (n % 10) as char];
    if n < 10 then last else ToDecimal(n / 10) + last
  }

  lemma DigitsValueSnoc(ds: string, c: char)
    requires AllDigits(ds) && IsDigit(c)
    ensures AllDigits(ds + [c]) && DigitsValue(ds + [c]) == DigitsValue(ds) * 10 + DigitValue(c)
  {
    assert (ds + [c])[..|ds|] == ds;
  }

  /** `int(str(n)) == n`: every natural number is read back from its digits. */
  lemma {:induction false} DecimalRoundTrip(n: nat)
    ensures DigitsValue(ToDecimal(n)) == n
  {
    var last := '0' + (n % 10) as char;
    if n < 10 {
      assert ToDecimal(n) == [] + [last];
      DigitsValueSnoc([], last);
    } else {
      DecimalRoundTrip(n / 10);
      DigitsValueSnoc(ToDecimal(n / 10), last);
    }
  }

  /** `int("0" + ds) == int(ds)`: leading zeros do not change the score. */
  lemma {:induction false} LeadingZero(ds: string)
    requires AllDigits(ds)
    ensures AllDigits("0" + ds) && DigitsValue("0" + ds) == DigitsValue(ds)
  {
    if ds != [] {
      var init := ds[..|ds| - 1];
      LeadingZero(init);
      assert ("0" + ds)[..|ds|] == "0" + init;
    }
  }
}
