# Interview evaluator: score extraction and radar data

The application sends an interview transcript to a chat model with a fixed
prompt. The prompt asks for four scores out of 10 (胆力, 好奇心, 論理性, 協調性),
one per line, in the form `胆力：7点（理由）`. The application then reads the
scores back out of the free-text reply and draws them as a closed radar polygon.

This project models the logic between those two steps:

- **Score extraction** (`Extraction.ExtractScores`) is the loop over
  `result_text.splitlines()`. It matches each line from its first character
  against `(.*)：(\d+)点`, strips group 1 to get the label, reads group 2 with
  `int()`, and assigns the pair into an insertion-ordered dict.
  - The method is proved equal to `Extraction.Parse`, a left fold of dict
    assignments.
  - The lemmas say what that dict holds:
    - non-matching lines change nothing;
    - the last write wins;
    - keys keep their first-seen order;
    - there is at most one key per line;
    - scores are never negative and never clamped;
    - the dict is empty exactly when no line matches;
    - a reply written in the requested format is read back as its stripped
      labels and scores.
- **The regular expression** (`ScorePattern.Match`) is modelled with Python's
  backtracking order:
  - the greedy group 1 ends at the last `：` that is followed by a digit run
    and `点`;
  - group 2 is that whole digit run.

  `ScorePattern.PatternMatches` is an independent statement of what the
  pattern accepts. The lemmas prove that `Match` reports a match exactly when
  one exists, and that it reports the one Python tries first.
- **Python's string builtins** are `Text.SplitLines` (with all of
  `str.splitlines()`'s separators, `\r\n` counted once, as
  `Text.SplitJoinEnded` states) and `Text.Strip`
  (with the whole `str.isspace()` set, including U+3000).
- **The dict** is `Scores.ScoreMap`: its keys in insertion order, plus a map
  from label to score.
- **The chart step** (`Radar.PlotData`) is the `if scores:` guard and the
  closing of the value and angle lists. Angles are kept exactly, as the
  fraction `index / count` of a full turn (`Radar.Turn`).
- **The prompt** (`Prompt.BuildPrompt`) is the f-string template. It is proved
  to carry the transcript verbatim after the `【面接内容】` line, and its own
  format example is proved to parse to the four criteria.
- **`Scenarios`** holds concrete replies:
  - the well-formed four-line reply and its chart;
  - a refusal with no score line;
  - a repeated label;
  - a padded label with a score above 10;
  - an empty label;
  - a reason that holds a `：` but no score after it;
  - a reason that itself contains a score.

A negative score cannot arise. `\d+` admits no sign, so a line such as
`胆力：-3点` does not match: its `：` is followed by `-`. The model follows the
code here, and every stored score is a natural number.

## Model

| member | source | states |
|---|---|---|
| Text.SplitLines | app.py:67 | no line contains a separator; there are at most as many lines as characters; there are no lines exactly when the text is empty |
| Text.SplitSingleLine | app.py:67 | a text with no separator is a single line, unchanged |
| Text.SplitJoin | app.py:67 | splitting lines joined with "\n" gives them back, if no line holds a separator |
| Text.SplitJoinEnded | app.py:67 | lines without a boundary of their own, each ended by any boundary `splitlines()` knows (`\n`, `\r`, `\r\n`, `\x0b`, `\x0c`, `\x1c`-`\x1e`, `\x85`, U+2028, U+2029), split back into exactly those lines, as long as a lone `\r` is not followed by the `\n` ending an empty line |
| Text.SplitFinalNewline | app.py:67 | a final "\n" opens no extra empty line |
| Text.TrimStart | app.py:70 | `lstrip()`: the result is no longer than the input and does not start with whitespace |
| Text.TrimEnd | app.py:70 | `rstrip()`: the result is no longer than the input and does not end with whitespace |
| Text.Strip | app.py:70 | `strip()`: the result is no longer than the input and has no whitespace at either end |
| Text.TrimStartSpec | app.py:70 | the result is a suffix of the input; everything dropped is whitespace; the result does not start with whitespace |
| Text.TrimEndSpec | app.py:70 | the result is a prefix of the input; everything dropped is whitespace; the result does not end with whitespace |
| Text.StripResult | app.py:70 | `strip()` leaves no whitespace at either end and returns a contiguous piece of its input |
| Text.StripPadded | app.py:70 | whitespace on both sides of an unpadded text is exactly what `strip()` removes |
| Text.StripIdempotent | app.py:70 | stripping twice is the same as stripping once |
| ScorePattern.Match | app.py:68 | a reported group 2 is a non-empty run of digits |
| ScorePattern.MatchSound | app.py:68 | a reported match is one the pattern accepts from the first character, with the groups taken from the line |
| ScorePattern.MatchPriority | app.py:68 | whenever the pattern can match, a match is reported; its group 1 is the longest possible, and for that group 1 its digit run is the longest |
| ScorePattern.MatchNone | app.py:68-69 | no match is reported exactly when the pattern cannot match the line at all |
| ScorePattern.NoColonNoMatch | app.py:68-69 | a line without a full-width colon never matches, so it is skipped |
| ScorePattern.MatchScoreLine | app.py:68-71 | `<head>：<digits>点<rest>` gives group 1 = head and group 2 = digits, whatever rest says, provided no `：<digits>点` starts inside rest (a plain `：` there is fine) |
| ScorePattern.ScoreInRestTakesOver | app.py:68 | when a `：<digits>点` does start inside rest, group 1 runs at least up to that later colon |
| ScorePattern.MatchScoreLineIff | app.py:68 | within one line, `<head>：<digits>点<rest>` is read as head and digits exactly when no `：<digits>点` starts inside rest |
| ScorePattern.GreedyLabelInReason | app.py:68 | a reason holding `：3点` moves both groups to that later colon |
| ScorePattern.ToDecimal | app.py:71 | a reference definition with no counterpart in the source: Python's `str(n)`, the inverse that `int()` is checked against; it is a non-empty run of ASCII digits, whose length is the number of decimal places of n |
| ScorePattern.DecimalRoundTrip | app.py:71 | `int(str(n)) == n` for every natural n, so any score a reply writes is read back unchanged, above 10 included |
| ScorePattern.DigitsValue | app.py:71 | `int()` of a digit run is a natural number, less than 10^k for a run of k digits |
| ScorePattern.LeadingZero | app.py:71 | a leading zero does not change the value |
| Scores.Empty | app.py:66 | `{}` is a valid dict with no keys |
| Scores.Put | app.py:72 | after `d[k] = v`: keys stay unique; k maps to v; other keys keep their values; k is appended to the key order only if it was new |
| Scores.Build | app.py:66-72 | the dict built by the assignments is valid: unique keys, exactly the labels that have a score |
| Scores.BuildDomain | app.py:72 | a label has a score exactly when some entry carries it; there are at most as many keys as entries |
| Scores.BuildLastWins | app.py:72 | a label's score is that of the last entry carrying it |
| Scores.BuildFirstSeenOrder | app.py:72 | keys are ordered by the first entry carrying each label; overwriting does not move a key |
| Scores.BuildDistinct | app.py:67-72 | with pairwise different labels, the keys are the labels in entry order, each with its entry's score |
| Scores.BuildScoresFromEntries | app.py:71-72 | every stored score is the score of some entry with that label |
| Extraction.ParseLine | app.py:68-71 | one line gives an entry exactly when the pattern can match it at all; the entry's label has no whitespace at either end |
| Extraction.Parse | app.py:66-72 | the dict built from a reply is valid, has at most one key per line, and holds no negative score |
| Extraction.Entries | app.py:67-71 | at most one entry per line, none with a negative score |
| Extraction.LoopStep | app.py:67-72 | one iteration: a matching line assigns its stripped label and integer score into the dict; any other line leaves the dict unchanged |
| Extraction.ExtractScores | app.py:66-72 | the loop computes `Parse` of the reply; the dict is valid, has at most one key per line, and holds no negative score |
| Extraction.EntriesAppend | app.py:67 | the entries of consecutive blocks of lines are the blocks' entries in order |
| Extraction.NonMatchingLineIgnored | app.py:67-69 | inserting a non-matching line anywhere changes neither the entries nor the dict |
| Extraction.EntriesEmpty | app.py:67-69 | there are no entries exactly when no line matches |
| Extraction.BuildEmpty | app.py:74 | the dict is empty exactly when there are no entries |
| Extraction.EmptyExactlyWhenNothingMatches | app.py:66-74 | the dict is empty, so no chart is drawn, exactly when no line of the reply matches; an empty reply gives an empty dict |
| Extraction.ParseRenderedRow | app.py:68-71 | a line `<label>：<n>点<reason>` gives the stripped label and n, whatever the reason says, provided no `：<digits>点` starts inside the reason |
| Extraction.ParseRendered | app.py:66-72 | a reply written line by line in that form is read back as the dict of its stripped labels and scores |
| Extraction.ParseDistinctRows | app.py:66-72 | k such lines with pairwise different labels give exactly k keys, in line order, with their scores |
| Extraction.FourRowsParse | app.py:66-72 | four such lines give the dict of exactly those four labels and scores |
| Extraction.ParseOneLine | app.py:66-72 | a one-line reply gives the dict of that line alone, or `{}` when the line does not match |
| Extraction.ParseOneRow | app.py:66-72 | a one-line reply in the requested form gives the single stripped label with its score |
| Radar.PlotData | app.py:74-80 | no chart data exactly when the dict is empty; otherwise the labels are the keys in order, the value and angle lists have n+1 entries, entry i is the i-th key's score and angle i/n of a turn, and the last entry repeats the first |
| Radar.EvenlySpaced | app.py:79 | axis i sits at 360·i/n degrees, all axes lie in [0, 360), neighbours are 360/n apart, and the closing angle is 0 |
| Radar.SingleAxis | app.py:77-80 | one key gives the angle 0 twice and its value twice |
| Radar.FourAxes | app.py:79-80 | four keys give axes at 0, 90, 180 and 270 degrees and five points |
| Radar.FourAxesChart | app.py:76-80 | for four keys, the labels, the closed list of values in key order, and the closed list of angles |
| Prompt.BuildPrompt | app.py:28-46 | the prompt is the fixed header, then the transcript verbatim, then a final newline |
| Prompt.TranscriptOf | app.py:44-46 | a reference definition with no counterpart in the source, the inverse of the template: it recovers the transcript from any text shaped like a prompt |
| Prompt.TranscriptRoundTrip | app.py:28-46 | the transcript is read back out of its prompt unchanged |
| Prompt.PromptOfTranscript | app.py:28-46 | every text `TranscriptOf` accepts is the prompt of the transcript it returns |
| Prompt.BuildPromptInjective | app.py:28-46 | different transcripts give different prompts |
| Prompt.TranscriptAfterMarker | app.py:44-45 | the transcript begins on the line right after `【面接内容】` |
| Prompt.CriteriaStripped | app.py:38-41 | the four criterion names carry no whitespace for `strip()` to remove |
| Prompt.CriteriaDistinct | app.py:38-41 | the four criterion names are pairwise different, so each gets a key of its own |
| Prompt.FormatExampleParses | app.py:38-41 | the reply format shown in the prompt is read back as 胆力 7, 好奇心 8, 論理性 6, 協調性 7, in that order |
| Scenarios.FourLineReplyScores | app.py:66-72 | the four-line reply gives 胆力 7, 好奇心 8, 論理性 6, 協調性 7, in that order |
| Scenarios.FourLineReplyChart | app.py:74-80 | the chart of that reply has the four labels, values 7, 8, 6, 7, 7 and angles 0, 1/4, 2/4, 3/4, 0 of a turn |
| Scenarios.RefusalHasNoScores | app.py:66-74 | the reply `評価できません` gives an empty dict, so no chart is drawn |
| Scenarios.PaddedLabelHighScore | app.py:70-72 | ` 胆力 ：15点` is stored as 胆力 → 15: the label is stripped and the score is not clamped |
| Scenarios.ColonInReasonKept | app.py:68-72 | `胆力：7点（理由：良い）` is stored as 胆力 → 7: a `：` in the reason with no score after it changes nothing |
| Scenarios.EmptyLabelKept | app.py:68-72 | `：5点` is stored under the empty label |
| Scenarios.ReasonWithScoreTakesOver | app.py:68-72 | `胆力：7点（理由：3点）` is stored as `胆力：7点（理由` → 3 |
| Scenarios.RepeatedLabelLastWins | app.py:72 | a label repeated on a later line keeps its first position and takes the later score |

## Left out

- The Streamlit page: the file uploader, the API-key field, the button, the
  spinner and the rendering of text and figures. This is presentation and I/O.
- Reading and UTF-8 decoding of the uploaded transcript. It is I/O; the model
  takes the transcript as a string.
- The OpenAI client and the chat-completion call. This is a network call; the
  reply text is a parameter of the model.
- A reply whose content is `None`. The model takes the reply as a string.
- The matplotlib figure: plotting, filling, theta grids, y-limits and title.
  This is a library outside the model; only the data handed to it is modelled.
- Radar.PlotData: angles are exact fractions of a turn (`Turn(i, n)`, shown
  in degrees by `Radar.Degrees`), not the floating-point radians that
  `np.linspace` returns, because floating point is out of scope.
- ScorePattern.Match: `\d` is modelled as the ASCII digits and the full-width
  digits U+FF10..U+FF19. The other Unicode decimal digits that Python's `\d`
  and `int()` also accept are not matched here.
- ScorePattern.Match: `.` is modelled as "any character but `\n`". This is
  Python's rule; it only matters before splitting, since no line that
  `splitlines()` returns contains `\n`.
- Extraction.ExtractScores: the runtime's limit on converting very long digit
  strings to `int` is not modelled. A digit run past that limit is read at
  its full value here, where Python raises an error that the `try`/`except`
  turns into an error message.
- The `try`/`except` around extraction and plotting. Apart from that digit
  limit and failures inside matplotlib, the modelled steps raise no
  exception for a string reply.
