/** app/graders/deterministic.py: exact match after normalisation, and which
    grader runs. Lower-casing is a per-character map that keeps whitespace
    whitespace; the regex engine is an opaque predicate. */
module Deterministic {
  import opened Options

  /** What str.split() splits on. */
  predicate IsSpace(c: char) {
    || '\U{0009}' <= c <= '\U{000D}' || '\U{001C}' <= c <= '\U{0020}'
    || c == '\U{0085}' || c == '\U{00A0}' || c == '\U{1680}' || '\U{2000}' <= c <= '\U{200A}'
    || c == '\U{2028}' || c == '\U{2029}' || c == '\U{202F}' || c == '\U{205F}' || c == '\U{3000}'
  }

  predicate AllSpace(s: string) {
    forall k :: 0 <= k < |s| ==> IsSpace(s[k])
  }

  predicate IsWord(w: string) {
    w != "" && forall k :: 0 <= k < |w| ==> !IsSpace(w[k])
  }

  predicate AreWords(ws: seq<string>) {
    forall k :: 0 <= k < |ws| ==> IsWord(ws[k])
  }

  /** text.split() */
  function Words(s: string): (ws: seq<string>)
    ensures s != "" && !IsSpace(s[0]) ==> ws != []
  {
    if s == "" then []
    else if IsSpace(s[0]) then Words(s[1..])
    else if |s| == 1 || IsSpace(s[1]) then [s[..1]] + Words(s[1..])
    else
      var rest := Words(s[1..]);
      [s[..1] + rest[0]] + rest[1..]
  }

  /** " ".join(ws) */
  function Join(ws: seq<string>): string {
    if ws == [] then "" else if |ws| == 1 then ws[0] else ws[0] + " " + Join(ws[1..])
  }

  function Normalize(s: string): string {
    Join(Words(s))
  }

  // ----- split is the inverse of spacing out -----

  /** Words with whitespace before, between and after them. */
  function SpacedOut(lead: string, ws: seq<string>, gaps: seq<string>): string
    requires |gaps| == |ws|
    decreases |ws|
  {
    if ws == [] then lead else lead + ws[0] + SpacedOut(gaps[0], ws[1..], gaps[1..])
  }

  /** All whitespace, and some of it between any two words. */
  predicate AreGaps(gaps: seq<string>) {
    && (forall k :: 0 <= k < |gaps| ==> AllSpace(gaps[k]))
    && (forall k :: 0 <= k < |gaps| - 1 ==> gaps[k] != "")
  }

  lemma {:induction false} LeadingSpace(lead: string, s: string)
    requires AllSpace(lead)
    ensures Words(lead + s) == Words(s)
  {
    if lead == "" {
      assert lead + s == s;
    } else {
      assert (lead + s)[1..] == lead[1..] + s;
      LeadingSpace(lead[1..], s);
    }
  }

  lemma {:induction false} LeadingWord(w: string, s: string)
    requires IsWord(w) && (s == "" || IsSpace(s[0]))
    ensures Words(w + s) == [w] + Words(s)
  {
    var t := w + s;
    assert t[1..] == w[1..] + s;
    if |w| == 1 {
      assert w[1..] + s == s && t[..1] == w;
    } else {
      LeadingWord(w[1..], s);
      assert t[..1] + w[1..] == w;
    }
  }

  /** str.split() undoes any spacing: whatever whitespace surrounds and
      separates whitespace-free words, splitting returns just those words. */
  lemma {:induction false} SplitUndoesSpacing(lead: string, ws: seq<string>, gaps: seq<string>)
    requires AreWords(ws) && |gaps| == |ws| && AllSpace(lead) && AreGaps(gaps)
    ensures Words(SpacedOut(lead, ws, gaps)) == ws
    decreases |ws|
  {
    if ws == [] {
      LeadingSpace(lead, "");
      assert lead + "" == lead;
    } else {
      var tail := SpacedOut(gaps[0], ws[1..], gaps[1..]);
      SplitUndoesSpacing(gaps[0], ws[1..], gaps[1..]);
      assert tail == "" || IsSpace(tail[0]) by {
        if |ws| == 1 {
          assert tail == gaps[0];
        } else {
          assert gaps[0] != "";
        }
      }
      LeadingWord(ws[0], tail);
      LeadingSpace(lead, ws[0] + tail);
      assert lead + ws[0] + tail == lead + (ws[0] + tail);
    }
  }

  lemma {:induction false} WordsAreWords(s: string)
    ensures AreWords(Words(s))
  {
    if s != "" {
      WordsAreWords(s[1..]);
    }
  }

  function Singles(n: nat): seq<string> {
    if n == 0 then [] else if n == 1 then [""] else [" "] + Singles(n - 1)
  }

  lemma {:induction false} SinglesAreGaps(n: nat)
    ensures |Singles(n)| == n && AreGaps(Singles(n))
  {
    if n > 1 {
      SinglesAreGaps(n - 1);
      var gaps, rest := Singles(n), Singles(n - 1);
      assert forall k :: 1 <= k < n ==> gaps[k] == rest[k - 1];
      assert AllSpace(" ");
    }
  }

  lemma {:induction false} JoinIsSpacing(ws: seq<string>)
    ensures |Singles(|ws|)| == |ws|
    ensures Join(ws) == SpacedOut("", ws, Singles(|ws|))
    decreases |ws|
  {
    SinglesAreGaps(|ws|);
    if |ws| == 1 {
      assert SpacedOut("", ws, [""]) == "" + ws[0] + SpacedOut("", [], []);
    } else if ws != [] {
      var rest, gaps := ws[1..], Singles(|ws| - 1);
      JoinIsSpacing(rest);
      ReLead("", " ", rest, gaps);
      assert " " + "" == " ";
      assert Singles(|ws|)[1..] == gaps;
    }
  }

  lemma ReLead(lead: string, more: string, ws: seq<string>, gaps: seq<string>)
    requires |gaps| == |ws|
    ensures SpacedOut(more + lead, ws, gaps) == more + SpacedOut(lead, ws, gaps)
  {
    if ws != [] {
      var tail := SpacedOut(gaps[0], ws[1..], gaps[1..]);
      assert (more + lead) + ws[0] + tail == more + (lead + ws[0] + tail);
    }
  }

  /** Splitting a single-space join of words returns the words. */
  lemma SplitJoin(ws: seq<string>)
    requires AreWords(ws)
    ensures Words(Join(ws)) == ws
  {
    JoinIsSpacing(ws);
    SinglesAreGaps(|ws|);
    SplitUndoesSpacing("", ws, Singles(|ws|));
  }

  /** Normalising is idempotent, and identifies two texts exactly when they
      have the same words. */
  lemma {:induction false} NormalizeComparesWords(a: string, b: string)
    ensures Normalize(Normalize(a)) == Normalize(a)
    ensures Normalize(a) == Normalize(b) <==> Words(a) == Words(b)
  {
    WordsAreWords(a);
    WordsAreWords(b);
    SplitJoin(Words(a));
    SplitJoin(Words(b));
  }

  // ----- lower-casing -----

  function Lower(lower: char -> char, s: string): (t: string)
    ensures |t| == |s|
    ensures forall k :: 0 <= k < |s| ==> t[k] == lower(s[k])
  {
    seq(|s|, k requires 0 <= k < |s| => lower(s[k]))
  }

  function LowerAll(lower: char -> char, ws: seq<string>): (vs: seq<string>)
    ensures |vs| == |ws|
    ensures forall k :: 0 <= k < |ws| ==> vs[k] == Lower(lower, ws[k])
  {
    seq(|ws|, k requires 0 <= k < |ws| => Lower(lower, ws[k]))
  }

  ghost predicate KeepsSpaces(lower: char -> char) {
    lower(' ') == ' ' && forall c :: IsSpace(lower(c)) == IsSpace(c)
  }

  lemma LowerFront(lower: char -> char, s: string, w: string)
    requires s != ""
    ensures Lower(lower, s)[..1] == Lower(lower, s[..1]) && Lower(lower, s)[1..] == Lower(lower, s[1..])
    ensures Lower(lower, s[..1]) + Lower(lower, w) == Lower(lower, s[..1] + w)
  {
  }

  lemma LowerSpaces(lower: char -> char, s: string)
    requires KeepsSpaces(lower) && s != ""
    ensures IsSpace(Lower(lower, s)[0]) == IsSpace(s[0])
    ensures |s| > 1 ==> IsSpace(Lower(lower, s)[1]) == IsSpace(s[1])
  {
    hide IsSpace;
  }

  lemma LowerWords(lower: char -> char, w: string, ws: seq<string>)
    ensures LowerAll(lower, [w] + ws) == [Lower(lower, w)] + LowerAll(lower, ws)
    ensures ws != [] ==> LowerAll(lower, ws)[1..] == LowerAll(lower, ws[1..]) && LowerAll(lower, ws)[0] == Lower(lower, ws[0])
  {
  }

  lemma {:induction false} WordsOfLower(lower: char -> char, s: string)
    requires KeepsSpaces(lower)
    ensures Words(Lower(lower, s)) == LowerAll(lower, Words(s))
  {
    if s != "" {
      var t, rest := Lower(lower, s), Words(s[1..]);
      WordsOfLower(lower, s[1..]);
      LowerSpaces(lower, s);
      LowerFront(lower, s, if rest == [] then "" else rest[0]);
      LowerWords(lower, s[..1], rest);
      if rest != [] {
        LowerWords(lower, s[..1] + rest[0], rest[1..]);
      }
      hide IsSpace, Lower, LowerAll, KeepsSpaces;
    }
  }

  lemma {:induction false} JoinOfLower(lower: char -> char, ws: seq<string>)
    requires KeepsSpaces(lower)
    ensures Join(LowerAll(lower, ws)) == Lower(lower, Join(ws))
    decreases |ws|
  {
    if |ws| > 1 {
      JoinOfLower(lower, ws[1..]);
      assert LowerAll(lower, ws)[1..] == LowerAll(lower, ws[1..]);
      assert Lower(lower, ws[0]) + " " + Lower(lower, Join(ws[1..])) == Lower(lower, Join(ws));
    }
  }

  // ----- grade_exact_match -----

  datatype ExactConfig = ExactConfig(normalizeWhitespace: bool, caseSensitive: bool)

  function Canonical(cfg: ExactConfig, lower: char -> char, s: string): string {
    var spaced := if cfg.normalizeWhitespace then Normalize(s) else s;
    if cfg.caseSensitive then spaced else Lower(lower, spaced)
  }

  predicate GradeExactMatch(cfg: ExactConfig, lower: char -> char, actual: string, expected: string) {
    Canonical(cfg, lower, actual) == Canonical(cfg, lower, expected)
  }

  /** With both normalisations on, an answer passes exactly when its words are
      the expected words up to case; either order of normalising would do. */
  lemma {:induction false} DefaultMatchComparesWords(lower: char -> char, actual: string, expected: string)
    requires KeepsSpaces(lower)
    ensures GradeExactMatch(ExactConfig(true, false), lower, actual, expected)
            <==> LowerAll(lower, Words(actual)) == LowerAll(lower, Words(expected))
    ensures Lower(lower, Normalize(actual)) == Normalize(Lower(lower, actual))
  {
    JoinOfLower(lower, Words(actual));
    JoinOfLower(lower, Words(expected));
    WordsOfLower(lower, actual);
    WordsOfLower(lower, expected);
    NormalizeComparesWords(Lower(lower, actual), Lower(lower, expected));
  }

  /** The texts have the same length and agree, character by character, up to case. */
  ghost predicate SameUpToCase(lower: char -> char, a: string, b: string) {
    |a| == |b| && forall k :: 0 <= k < |a| ==> lower(a[k]) == lower(b[k])
  }

  /** What each configuration compares: the texts, the texts up to case, their words,
      or their words up to case. */
  lemma {:induction false} MatchComparesByConfig(lower: char -> char, actual: string, expected: string)
    ensures GradeExactMatch(ExactConfig(false, true), lower, actual, expected) <==> actual == expected
    ensures GradeExactMatch(ExactConfig(false, false), lower, actual, expected) <==> SameUpToCase(lower, actual, expected)
    ensures GradeExactMatch(ExactConfig(true, true), lower, actual, expected) <==> Words(actual) == Words(expected)
    ensures KeepsSpaces(lower) ==>
              var found, wanted := Words(actual), Words(expected);
              GradeExactMatch(ExactConfig(true, false), lower, actual, expected) <==>
              |found| == |wanted| && forall k :: 0 <= k < |wanted| ==> SameUpToCase(lower, found[k], wanted[k])
  {
    LoweredAlike(lower, actual, expected);
    NormalizeComparesWords(actual, expected);
    if KeepsSpaces(lower) {
      var found, wanted := Words(actual), Words(expected);
      DefaultMatchComparesWords(lower, actual, expected);
      hide GradeExactMatch, SameUpToCase, KeepsSpaces;
      if |found| == |wanted| {
        forall k | 0 <= k < |wanted| ensures Lower(lower, found[k]) == Lower(lower, wanted[k]) <==> SameUpToCase(lower, found[k], wanted[k]) {
          LoweredAlike(lower, found[k], wanted[k]);
        }
        assert LowerAll(lower, found) == LowerAll(lower, wanted) <==> forall k :: 0 <= k < |wanted| ==> LowerAll(lower, found)[k] == LowerAll(lower, wanted)[k];
      }
    }
  }

  lemma LoweredAlike(lower: char -> char, a: string, b: string)
    ensures Lower(lower, a) == Lower(lower, b) <==> SameUpToCase(lower, a, b)
  {
    if Lower(lower, a) == Lower(lower, b) {
      forall k | 0 <= k < |a| ensures lower(a[k]) == lower(b[k]) {
        assert Lower(lower, a)[k] == Lower(lower, b)[k];
      }
    }
  }

  /** Passing does not depend on how an answer is spaced: any two spacings of
      the same words grade alike, against any expectation. */
  lemma {:induction false} SpacingIsIrrelevant(cfg: ExactConfig, lower: char -> char, expected: string, ws: seq<string>,
                            lead: string, gaps: seq<string>, lead': string, gaps': seq<string>)
    requires cfg.normalizeWhitespace && AreWords(ws)
    requires |gaps| == |ws| && AllSpace(lead) && AreGaps(gaps)
    requires |gaps'| == |ws| && AllSpace(lead') && AreGaps(gaps')
    ensures GradeExactMatch(cfg, lower, SpacedOut(lead, ws, gaps), expected)
            == GradeExactMatch(cfg, lower, SpacedOut(lead', ws, gaps'), expected)
  {
    SplitUndoesSpacing(lead, ws, gaps);
    SplitUndoesSpacing(lead', ws, gaps');
  }

  // ----- run_deterministic -----

  datatype GraderType = ExactMatch | Regex | LlmJudge

  /** rubric: whether the configuration of the task holds a rubric for the judge. */
  datatype Task = Task(grader: GraderType, expected: Option<string>, pattern: Option<string>, config: ExactConfig, rubric: bool)

  /** cfg.get("pattern") or task.expected_output: an empty string counts as absent. */
  function PatternOf(task: Task): Option<string> {
    var p := if task.pattern.Some? && task.pattern.value != "" then task.pattern else task.expected;
    if p.Some? && p.value != "" then p else None
  }

  /** None: no deterministic grader is configured. */
  function RunDeterministic(task: Task, lower: char -> char, matches: (string, string) -> bool, actual: string): Option<bool> {
    match task.grader
    case ExactMatch =>
      if task.expected.None? then None
      else Some(GradeExactMatch(task.config, lower, actual, task.expected.value))
    case Regex =>
      if PatternOf(task).None? then None else Some(matches(PatternOf(task).value, actual))
    case LlmJudge => None
  }

  /** The task has something to compare an answer with. */
  predicate IsConfigured(task: Task) {
    match task.grader
    case ExactMatch => task.expected.Some?
    case Regex => (task.pattern.Some? && task.pattern.value != "") || (task.expected.Some? && task.expected.value != "")
    case LlmJudge => false
  }

  lemma RunsIfConfigured(task: Task, lower: char -> char, matches: (string, string) -> bool, actual: string)
    ensures RunDeterministic(task, lower, matches, actual).Some? <==> IsConfigured(task)
  {
  }

  /** The regex grader searches for the configured pattern, and for the expected
      output when there is none; an empty text is no pattern. Exact match compares
      with the expected output, and a task for the judge alone runs neither. */
  lemma GradersRun(task: Task, lower: char -> char, matches: (string, string) -> bool, actual: string)
    ensures task.grader.Regex? ==>
              RunDeterministic(task, lower, matches, actual) ==
              match (task.pattern, task.expected)
              case (Some(pattern), Some(expected)) =>
                if pattern != "" then Some(matches(pattern, actual)) else if expected != "" then Some(matches(expected, actual)) else None
              case (Some(pattern), None) => if pattern != "" then Some(matches(pattern, actual)) else None
              case (None, Some(expected)) => if expected != "" then Some(matches(expected, actual)) else None
              case (None, None) => None
    ensures task.grader.ExactMatch? && task.expected.Some? && task.config.caseSensitive && !task.config.normalizeWhitespace ==>
              RunDeterministic(task, lower, matches, actual) == Some(actual == task.expected.value)
    ensures task.grader.ExactMatch? ==> (RunDeterministic(task, lower, matches, actual).None? <==> task.expected.None?)
    ensures task.grader.LlmJudge? ==> RunDeterministic(task, lower, matches, actual).None?
  {
  }
}
