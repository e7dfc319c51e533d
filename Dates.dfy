/**
 * KitchenRequestBot.validate_date (main.py:86-113).
 *
 * Instants are naive local wall-clock times in microseconds (the resolution of
 * Python's datetime), counted from a midnight, so `t - t % Day` is the midnight
 * that starts t's day. `parsed` is what dateutil's parser made of the text (None
 * when it raised); `fmt` is strftime('%m/%d/%Y').
 */
module Dates {
  import opened Wrappers
  import opened Errors
  import opened PyText

  const Day: int := 86_400_000_000

  type DateFormatter = int -> string

  /** The indentation the triple-quoted error message carries on every line. */
  const Indent: string := "            "

  const FormatRule: string := "\U{2022} Must be in MM/DD/YYYY format"
  const AgeRule: string := "\U{2022} Cannot be older than 30 days"
  const FutureRule: string := "\U{2022} Cannot be in the future"

  /**
   * The text of the ValueError validate_date raises for `raw`, with `example` as the
   * suggested date: the triple-quoted message is its five lines joined by newlines,
   * opened and closed by a newline and the indentation.
   */
  function InvalidDateText(raw: string, example: string): string {
    "\n" + Indent + JoinLines(ErrorLines(raw, example)) + "\n" + Indent
  }

  /** The five lines of the error text: the rejected input, the three rules, the example date. */
  function ErrorLines(raw: string, example: string): seq<string> {
    ["Invalid date: " + raw] + DetailLines(example)
  }

  /** The lines of the error text after its first one. */
  function DetailLines(example: string): seq<string> {
    [Indent + FormatRule, Indent + AgeRule, Indent + FutureRule, Indent + "Example valid date: " + example]
  }

  /** The suggested date: seven days before now. */
  function ExampleDate(now: int, fmt: DateFormatter): string {
    fmt(now - 7 * Day)
  }

  /**
   * The date is accepted iff it parsed and lies in [now - 30 days, now + 1 day];
   * every failure becomes the same ValueError, whose text names the input and an example.
   */
  function ValidateDate(raw: string, parsed: Option<int>, now: int, fmt: DateFormatter): (r: Result<int, Exc>)
    ensures r.Ok? <==> parsed.Some? && now - 30 * Day <= parsed.value <= now + Day
    ensures r.Ok? ==> r.value == parsed.value
    ensures r.Err? ==> r.error == ValueError(InvalidDateText(raw, ExampleDate(now, fmt)))
  {
    var invalid := Err(ValueError(InvalidDateText(raw, ExampleDate(now, fmt))));
    match parsed
    case None => invalid
    case Some(inputDate) =>
      var maxPastDate := now - 30 * Day;
      var maxFutureDate := now + Day;
      if inputDate < maxPastDate then invalid
      else if inputDate > maxFutureDate then invalid
      else Ok(inputDate)
  }

  /** The midnight that starts the day of `t`: what the parser yields for a bare calendar date. */
  function Midnight(t: int): (m: int)
    ensures m <= t < m + Day && m % Day == 0
  {
    t - t % Day
  }

  /**
   * Both bounds are inclusive (the comparisons are strict), and one unit of time beyond
   * either bound is refused.
   */
  lemma WindowBounds(raw: string, now: int, fmt: DateFormatter)
    ensures ValidateDate(raw, Some(now - 30 * Day), now, fmt) == Ok(now - 30 * Day)
    ensures ValidateDate(raw, Some(now + Day), now, fmt) == Ok(now + Day)
    ensures ValidateDate(raw, Some(now - 30 * Day - 1), now, fmt).Err?
    ensures ValidateDate(raw, Some(now + Day + 1), now, fmt).Err?
    ensures ValidateDate(raw, Some(now - 31 * Day), now, fmt).Err?
    ensures ValidateDate(raw, Some(now + 2 * Day), now, fmt).Err?
  {
  }

  /**
   * A bare calendar date parses to its midnight. The date thirty days back is therefore
   * refused unless now is itself a midnight, and tomorrow's date is accepted.
   */
  lemma CalendarDateBounds(raw: string, now: int, fmt: DateFormatter)
    ensures now % Day != 0 ==> ValidateDate(raw, Some(Midnight(now) - 30 * Day), now, fmt).Err?
    ensures ValidateDate(raw, Some(Midnight(now) + Day), now, fmt).Ok?
    ensures ValidateDate(raw, Some(Midnight(now) - 29 * Day), now, fmt).Ok?
  {
  }

  /** What strftime('%m/%d/%Y') produces: digits and slashes only. */
  predicate DateText(s: string) {
    |s| > 0 && forall i :: 0 <= i < |s| ==> s[i] == '/' || '0' <= s[i] <= '9'
  }

  /** The newline and indentation that open and close the error text are whitespace. */
  lemma LeadIsSpace()
    ensures AllSpace("\n" + Indent)
  {
    var lead := "\n" + Indent;
    forall i | 0 <= i < |lead| ensures IsSpace(lead[i]) {
      assert lead[i] == '\n' || lead[i] == ' ';
    }
  }

  /** The joined lines start with the 'I' of "Invalid date" and end with the example date's last character. */
  lemma JoinedLinesEnd(raw: string, example: string)
    requires example != []
    ensures var body := JoinLines(ErrorLines(raw, example));
            body != [] && body[0] == 'I' && body[|body| - 1] == example[|example| - 1]
  {
    var lines := ErrorLines(raw, example);
    JoinLinesEnds(lines);
    var first := lines[0];
    var last := lines[|lines| - 1];
    assert first == "Invalid date: " + raw && first[0] == 'I';
    assert last == Indent + "Example valid date: " + example;
    assert last[|last| - 1] == example[|example| - 1];
  }

  /** The indentation and the labels of the error text are single lines. */
  lemma LabelsOneLine()
    ensures '\n' !in Indent && '\n' !in "Invalid date: " && '\n' !in "Example valid date: "
  {
  }

  /** The three rules of the error text are single lines. */
  lemma RulesOneLine()
    ensures '\n' !in FormatRule && '\n' !in AgeRule && '\n' !in FutureRule
  {
  }

  /** No line of the error text holds a newline of its own. */
  lemma LinesHaveNoNewline(raw: string, example: string)
    requires '\n' !in raw
    requires DateText(example)
    ensures forall i :: 0 <= i < |ErrorLines(raw, example)| ==> '\n' !in ErrorLines(raw, example)[i]
  {
    LabelsOneLine();
    RulesOneLine();
    assert '\n' !in example;
    var lines := ErrorLines(raw, example);
    assert lines[0] == "Invalid date: " + raw;
    assert lines[1] == Indent + FormatRule && lines[2] == Indent + AgeRule && lines[3] == Indent + FutureRule;
    assert lines[4] == Indent + ("Example valid date: " + example);
  }

  /** A date text ends with a digit or a slash, never with whitespace. */
  lemma DateTextEndsVisibly(example: string)
    requires DateText(example)
    ensures !IsSpace(example[|example| - 1])
  {
    assert '/' as int == 47;
  }

  /**
   * Once stripped, the error text's first line is "Invalid date: <input>" and its
   * later lines are the three rules and the example date.
   */
  lemma {:induction false} InvalidDateLines(raw: string, example: string)
    requires '\n' !in raw
    requires DateText(example)
    ensures SplitLines(Strip(InvalidDateText(raw, example))) ==
            ErrorLines(raw, example)
  {
    var lines := ErrorLines(raw, example);
    var body := JoinLines(lines);
    var lead := "\n" + Indent;
    assert InvalidDateText(raw, example) == lead + body + lead;
    JoinedLinesEnd(raw, example);
    LeadIsSpace();
    assert 'I' as int == 73;
    DateTextEndsVisibly(example);
    StripEnclosed(lead, body, lead);
    LinesHaveNoNewline(raw, example);
    SplitJoin(lines);
  }

  /** A text that ends with `t`, where `t` ends with `u`, ends with `u`. */
  lemma SuffixOfSuffix(s: string, t: string, u: string)
    requires |s| >= |t| && s[|s| - |t|..] == t
    requires |t| >= |u| && t[|t| - |u|..] == u
    ensures |s| >= |u| && s[|s| - |u|..] == u
  {
    assert s[|s| - |u|..] == s[|s| - |t|..][|t| - |u|..];
  }

  /** Stripped, the text starts with "Invalid date: <input>" and ends with the example date. */
  lemma InvalidDateTextNamesInputAndExample(raw: string, example: string)
    requires '\n' !in raw
    requires DateText(example)
    ensures var s := Strip(InvalidDateText(raw, example));
            |s| >= |"Invalid date: " + raw| && s[..|"Invalid date: " + raw|] == "Invalid date: " + raw &&
            |s| >= |example| && s[|s| - |example|..] == example
  {
    InvalidDateLines(raw, example);
    var lines := ErrorLines(raw, example);
    JoinLinesEnds(lines);
    var prefix := Indent + "Example valid date: ";
    var last := prefix + example;
    assert lines[|lines| - 1] == last;
    assert last[|last| - |example|..] == example;
    SuffixOfSuffix(JoinLines(lines), last, example);
  }
}
