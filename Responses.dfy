/**
 * format_error (main.py:218-239) and process_command_background (main.py:264-356):
 * the background run of one slash command and the one message it posts to the
 * command's response_url.
 */
module Responses {
  import opened Wrappers
  import opened Errors
  import opened PyText
  import opened Dates
  import opened History
  import opened Collaborators
  import opened Aggregation
  import opened Report

  // ---- format_error ----

  /** {"type": blockType, "text": {"type": textType, "text": text}} */
  datatype Block = Block(blockType: string, textType: string, text: string)

  function Section(text: string): Block {
    Block("section", "mrkdwn", text)
  }

  /** `if example:` -- None and the empty string are falsy. */
  predicate Truthy(example: Option<string>) {
    example.Some? && example.value != ""
  }

  /** The blocks of an error message: the titled text, then the example when there is one. */
  predicate FormatsAs(blocks: seq<Block>, title: string, message: string, example: Option<string>) {
    |blocks| == (if Truthy(example) then 2 else 1) &&
    blocks[0] == Section(":x: *" + title + "* \n" + message) &&
    (Truthy(example) ==> blocks[1] == Section(":bulb: *Example:* `" + example.value + "`"))
  }

  method FormatError(title: string, message: string, example: Option<string>) returns (blocks: seq<Block>)
    ensures FormatsAs(blocks, title, message, example)
  {
    blocks := [Section(":x: *" + title + "* \n" + message)];
    if example.Some? && example.value != "" {
      blocks := blocks + [Section(":bulb: *Example:* `" + example.value + "`")];
    }
  }

  // ---- the outcome of a run ----

  /** The branch of process_command_background a run ends in. */
  datatype Outcome =
    | Delivered               // the DM upload completed
    | NotDelivered            // send_file_via_dm answered False
    | NoData                  // process_messages returned no records
    | RenderFailed            // generate_excel_bytes raised
    | DeliveryFailed          // send_file_via_dm raised SlackApiError
    | InvalidDate(message: string)  // a ValueError reached the outer handler; str(e)
    | ApiFailure              // a RequestException reached the outer handler
    | Unexpected              // any other exception reached the outer handler

  /** The outer handlers (main.py:325-356), tried in order. */
  function Raised(e: Exc): (o: Outcome)
    ensures o.InvalidDate? <==> IsValueError(e)
    ensures o.InvalidDate? ==> o.message == e.msg
    ensures o == ApiFailure <==> e.RequestException?
    ensures o == Unexpected <==> !IsValueError(e) && !e.RequestException?
  {
    if IsValueError(e) then InvalidDate(e.msg)
    else if e.RequestException? then ApiFailure
    else Unexpected
  }

  /**
   * The branch a run ends in, from what process_messages returned, whether the encoder
   * succeeds, and what send_file_via_dm returned (consulted only when the run gets that far).
   */
  function OutcomeSpec(processed: Result<seq<Record>, Exc>, encodes: bool, sent: Result<bool, Exc>): (o: Outcome)
    ensures o == NoData <==> processed == Ok([])
    ensures o == RenderFailed <==> processed.Ok? && processed.value != [] && !encodes
    ensures o == Delivered <==> processed.Ok? && processed.value != [] && encodes && sent == Ok(true)
    ensures o == NotDelivered <==> processed.Ok? && processed.value != [] && encodes && sent == Ok(false)
    ensures o == DeliveryFailed <==>
              processed.Ok? && processed.value != [] && encodes && sent.Err? && sent.error.SlackApiError?
    ensures o.InvalidDate? <==>
              (processed.Err? && IsValueError(processed.error)) ||
              (processed.Ok? && processed.value != [] && encodes && sent.Err? && IsValueError(sent.error))
    ensures processed.Err? ==> o == Raised(processed.error)
    ensures processed.Ok? && processed.value != [] && encodes && sent.Err? && !sent.error.SlackApiError? ==>
              o == Raised(sent.error)
  {
    match processed
    case Err(e) => Raised(e)
    case Ok(records) =>
      if records == [] then NoData
      else if !encodes then RenderFailed
      else
        match sent
        case Err(e) => if e.SlackApiError? then DeliveryFailed else Raised(e)
        case Ok(success) => if success then Delivered else NotDelivered
  }

  // ---- what is posted for each outcome ----

  /** The posted content: a plain text, or an error message with a title and an optional example. */
  datatype Response = Notice(text: string) | ErrorReport(title: string, message: string, example: Option<string>)

  /** The example command the data and date errors suggest: three days back. */
  function RetryExample(now: int, fmt: DateFormatter): string {
    "/shopping-list " + fmt(now - 3 * Day)
  }

  const SentNotice: string := ":white_check_mark: Your report has been sent to your DMs!"
  const NotSentNotice: string := ":x: Failed to send report. Please try again later."
  const NoDataTitle: string := "No Data Found"
  const NoDataMessage: string := "No valid orders found since "
  const RenderFailedTitle: string := "Report Generation Failed"
  const RenderFailedMessage: string := "Could not create the Excel file. Please try again later."
  const DeliveryFailedTitle: string := "Delivery Failed"
  const DeliveryFailedMessage: string := "Couldn't send you a DM. Please check if you have DMs enabled with this app."
  const InvalidDateTitle: string := "Invalid Date Format"
  const ApiFailureTitle: string := "API Error"
  const ApiFailureMessage: string := "Failed to process messages. Please try again in a few minutes."
  const UnexpectedTitle: string := "Something Went Wrong"
  const UnexpectedMessage: string := "We encountered an unexpected error. Our team has been notified."

  /**
   * The body shown under "Invalid Date Format": the lines after the first when the
   * stripped message has several, otherwise the whole message (main.py:327-332).
   */
  function InvalidDateBody(message: string): (body: string)
    ensures '\n' in Strip(message) ==>
              exists first :: '\n' !in first && Strip(message) == first + "\n" + body
    ensures '\n' !in Strip(message) ==> body == message
  {
    var errorLines := SplitLines(Strip(message));
    if |errorLines| > 1 then
      assert Strip(message) == errorLines[0] + "\n" + JoinLines(errorLines[1..]);
      JoinLines(errorLines[1..])
    else
      assert '\n' !in Strip(message) by {
        assert Strip(message) == JoinLines(errorLines) == errorLines[0];
      }
      message
  }

  function ResponseFor(o: Outcome, dateStr: string, retry: string): (r: Response)
    ensures r.Notice? <==> o == Delivered || o == NotDelivered
    ensures r.ErrorReport? ==> (r.example.Some? <==> o == NoData || o.InvalidDate?)
    ensures r.ErrorReport? && r.example.Some? ==> r.example.value == retry
    ensures o.InvalidDate? ==> r.message == InvalidDateBody(o.message)
  {
    match o
    case Delivered => Notice(SentNotice)
    case NotDelivered => Notice(NotSentNotice)
    case NoData => ErrorReport(NoDataTitle, NoDataMessage + dateStr, Some(retry))
    case RenderFailed => ErrorReport(RenderFailedTitle, RenderFailedMessage, None)
    case DeliveryFailed => ErrorReport(DeliveryFailedTitle, DeliveryFailedMessage, None)
    case InvalidDate(message) => ErrorReport(InvalidDateTitle, InvalidDateBody(message), Some(retry))
    case ApiFailure => ErrorReport(ApiFailureTitle, ApiFailureMessage, None)
    case Unexpected => ErrorReport(UnexpectedTitle, UnexpectedMessage, None)
  }

  /** The title of an error report, or the text of a notice. */
  function Headline(r: Response): string {
    if r.Notice? then r.text else r.title
  }

  /**
   * Each kind of outcome is posted under its own headline, so the user can tell any two
   * apart; only two "Invalid Date Format" runs share one.
   */
  lemma OutcomesPostDistinctHeadlines(o1: Outcome, o2: Outcome, dateStr: string, retry: string)
    requires o1 != o2 && !(o1.InvalidDate? && o2.InvalidDate?)
    ensures Headline(ResponseFor(o1, dateStr, retry)) != Headline(ResponseFor(o2, dateStr, retry))
  {
    HeadlinesDiffer();
  }

  /** No two headlines have the same length. */
  lemma HeadlinesDiffer()
    ensures |SentNotice| == 57 && |NotSentNotice| == 50 && |NoDataTitle| == 13 && |RenderFailedTitle| == 24
    ensures |DeliveryFailedTitle| == 15 && |InvalidDateTitle| == 19 && |ApiFailureTitle| == 9 && |UnexpectedTitle| == 20
  {
  }

  const Ephemeral: string := "ephemeral"

  /** The JSON body posted to response_url. */
  datatype Payload = TextPayload(responseType: string, text: string) | BlocksPayload(responseType: string, blocks: seq<Block>)

  predicate Renders(payload: Payload, response: Response) {
    payload.responseType == Ephemeral &&
    match response
    case Notice(text) => payload == TextPayload(Ephemeral, text)
    case ErrorReport(title, message, example) => payload.BlocksPayload? && FormatsAs(payload.blocks, title, message, example)
  }

  method Respond(o: Outcome, dateStr: string, retry: string) returns (payload: Payload)
    ensures Renders(payload, ResponseFor(o, dateStr, retry))
  {
    match ResponseFor(o, dateStr, retry)
    case Notice(text) =>
      payload := TextPayload(Ephemeral, text);
    case ErrorReport(title, message, example) =>
      var blocks := FormatError(title, message, example);
      payload := BlocksPayload(Ephemeral, blocks);
  }

  // ---- process_command_background ----

  const ReportFileName: string := "kitchen_orders.xlsx"

  /**
   * One background run: process the messages, render the report, send it by DM, and post
   * the one message that says how it ended. Every remote answer is an input.
   */
  method ProcessCommandBackground(userId: string, dateStr: string, parsed: Option<int>, now: int, fmt: DateFormatter,
                                  replies: seq<PageReply>, users: nat -> UserReply, completions: nat -> LlmReply,
                                  dayOf: DayFormatter, encodes: bool,
                                  open: string -> OpenReply, upload: UploadRequest -> UploadReply)
    returns (outcome: Outcome, payload: Payload)
    requires Ends(replies)
    ensures outcome == OutcomeSpec(ProcessSpec(dateStr, parsed, now, fmt, replies, users, completions, dayOf),
                                   encodes, SendFileViaDm(userId, ReportFileName, open, upload))
    ensures Renders(payload, ResponseFor(outcome, dateStr, RetryExample(now, fmt)))
  {
    var parsedData := ProcessMessages(dateStr, parsed, now, fmt, replies, users, completions, dayOf);
    if parsedData.Err? {
      outcome := Raised(parsedData.error);
    } else if parsedData.value == [] {
      outcome := NoData;
    } else {
      var excelBytes := GenerateExcelBytes(ListData(RecordRows(parsedData.value)), encodes);
      if excelBytes.Err? {
        outcome := RenderFailed;
      } else {
        var success := SendFileViaDm(userId, ReportFileName, open, upload);
        if success.Err? {
          outcome := if success.error.SlackApiError? then DeliveryFailed else Raised(success.error);
        } else if success.value {
          outcome := Delivered;
        } else {
          outcome := NotDelivered;
        }
      }
    }
    payload := Respond(outcome, dateStr, RetryExample(now, fmt));
  }

  // ---- properties of whole runs ----

  /** A one-line message is shown whole under "Invalid Date Format". */
  lemma OneLineBody(message: string)
    requires '\n' !in message
    ensures InvalidDateBody(message) == message
  {
    StripKeepsOneLine(message);
    NoNewlineSplitsToItself(Strip(message));
  }

  /** The generic text of process_messages is one line, so it is posted whole. */
  lemma GenericTextShownWhole()
    ensures InvalidDateBody(GenericProcessError) == GenericProcessError
  {
    OneLineBody(GenericProcessError);
  }

  /**
   * The branches that cannot be reached in this model: send_file_via_dm never raises
   * SlackApiError, and no callee lets a RequestException through, so "Delivery Failed" and
   * "API Error" are never posted; a ValueError reaching the outer handler always carries the
   * generic text of process_messages. The posts to response_url are taken to succeed; in the
   * program a RequestException from the post at main.py:273, 287, 315 or 320 would still
   * reach the "API Error" handler.
   */
  lemma UnreachableOutcomes(dateStr: string, parsed: Option<int>, now: int, fmt: DateFormatter,
                            replies: seq<PageReply>, users: nat -> UserReply, completions: nat -> LlmReply,
                            dayOf: DayFormatter, encodes: bool, userId: string,
                            open: string -> OpenReply, upload: UploadRequest -> UploadReply)
    requires Ends(replies)
    ensures var o := OutcomeSpec(ProcessSpec(dateStr, parsed, now, fmt, replies, users, completions, dayOf),
                                 encodes, SendFileViaDm(userId, ReportFileName, open, upload));
            o != DeliveryFailed && o != ApiFailure && (o.InvalidDate? ==> o.message == GenericProcessError)
  {
    ProcessRaisesGenericError(dateStr, parsed, now, fmt, replies, users, completions, dayOf);
  }

  /**
   * A history fetch that yields nothing -- an empty channel, or a SlackApiError on the
   * first page, which fetch_messages swallows -- is posted under "Invalid Date Format"
   * with the body "Error processing messages", whatever the other collaborators answer.
   */
  lemma EmptyFetchPostedAsInvalidDate(dateStr: string, parsed: Option<int>, now: int, fmt: DateFormatter,
                                      replies: seq<PageReply>, users: nat -> UserReply, completions: nat -> LlmReply,
                                      dayOf: DayFormatter, encodes: bool, sent: Result<bool, Exc>)
    requires Ends(replies) && FetchSpec(replies) == Ok([])
    requires parsed.Some? && now - 30 * Day <= parsed.value <= now + Day
    ensures var o := OutcomeSpec(ProcessSpec(dateStr, parsed, now, fmt, replies, users, completions, dayOf), encodes, sent);
            o == InvalidDate(GenericProcessError) &&
            ResponseFor(o, dateStr, RetryExample(now, fmt)) ==
              ErrorReport(InvalidDateTitle, GenericProcessError, Some(RetryExample(now, fmt)))
  {
    assert ValidateDate(dateStr, parsed, now, fmt).Ok?;
    var processed := ProcessSpec(dateStr, parsed, now, fmt, replies, users, completions, dayOf);
    assert processed == Err(ValueError(GenericProcessError));
    assert OutcomeSpec(processed, encodes, sent) == InvalidDate(GenericProcessError);
    InvalidDateReport(GenericProcessError, dateStr, RetryExample(now, fmt));
    GenericTextShownWhole();
  }

  /**
   * Extraction failures are absorbed: when every completion call fails and nothing else
   * does, the run ends in "No Data Found", never in an error.
   */
  lemma FailedExtractionsPostNoData(dateStr: string, parsed: Option<int>, now: int, fmt: DateFormatter,
                                    replies: seq<PageReply>, users: nat -> UserReply, completions: nat -> LlmReply,
                                    dayOf: DayFormatter, encodes: bool, sent: Result<bool, Exc>)
    requires Ends(replies) && FetchSpec(replies).Ok? && FetchSpec(replies).value != []
    requires parsed.Some? && now - 30 * Day <= parsed.value <= now + Day
    requires forall i :: 0 <= i < |FetchSpec(replies).value| ==> completions(i).CompletionFailure?
    requires forall i :: 0 <= i < |FetchSpec(replies).value| && Eligible(FetchSpec(replies).value[i]) ==>
               !users(i).UserFault? && FetchSpec(replies).value[i].ts.Some?
    ensures OutcomeSpec(ProcessSpec(dateStr, parsed, now, fmt, replies, users, completions, dayOf), encodes, sent) == NoData
  {
    var xs := Exchanges(FetchSpec(replies).value, users, completions);
    FailedExtractionsGiveNoRecords(xs, dayOf);
  }

  // ---- the date error never reaches the user (see README, Findings) ----

  /**
   * As written: a date outside the window (or one that does not parse) is posted as
   * "Invalid Date Format" with the body "Error processing messages"; the rules and the
   * example date that validate_date put in its message are lost.
   */
  lemma BadDateShowsGenericText(dateStr: string, parsed: Option<int>, now: int, fmt: DateFormatter,
                                replies: seq<PageReply>, users: nat -> UserReply, completions: nat -> LlmReply,
                                dayOf: DayFormatter, encodes: bool, sent: Result<bool, Exc>)
    requires Ends(replies)
    requires parsed.None? || parsed.value < now - 30 * Day || parsed.value > now + Day
    ensures var o := OutcomeSpec(ProcessSpec(dateStr, parsed, now, fmt, replies, users, completions, dayOf), encodes, sent);
            o == InvalidDate(GenericProcessError) &&
            ResponseFor(o, dateStr, RetryExample(now, fmt)).message == GenericProcessError
  {
    assert ValidateDate(dateStr, parsed, now, fmt).Err?;
    InvalidDateReport(GenericProcessError, dateStr, RetryExample(now, fmt));
    GenericTextShownWhole();
  }

  /** What is posted for a ValueError reaching the outer handler. */
  lemma InvalidDateReport(message: string, dateStr: string, retry: string)
    ensures ResponseFor(InvalidDate(message), dateStr, retry) ==
            ErrorReport(InvalidDateTitle, InvalidDateBody(message), Some(retry))
  {
  }

  /** Under the intended handler, the body is the date error's lines after the first. */
  lemma IntendedBody(raw: string, example: string)
    requires '\n' !in raw
    requires DateText(example)
    ensures InvalidDateBody(InvalidDateText(raw, example)) == JoinLines(DetailLines(example))
  {
    InvalidDateLines(raw, example);
    assert ErrorLines(raw, example)[1..] == DetailLines(example);
  }

  /**
   * Intended: with validate_date's ValueError re-raised unchanged, the posted body is the
   * message's lines after "Invalid date: ...": the three rules and the example date.
   */
  lemma IntendedBadDateShowsRules(dateStr: string, parsed: Option<int>, now: int, fmt: DateFormatter)
    requires parsed.None? || parsed.value < now - 30 * Day || parsed.value > now + Day
    requires '\n' !in dateStr
    requires DateText(ExampleDate(now, fmt))
    ensures var e := WrapProcessErrorIntended(ValidateDate(dateStr, parsed, now, fmt).error);
            var body := ResponseFor(Raised(e), dateStr, RetryExample(now, fmt)).message;
            Raised(e).InvalidDate? && body == JoinLines(DetailLines(ExampleDate(now, fmt)))
  {
    var text := InvalidDateText(dateStr, ExampleDate(now, fmt));
    var e := WrapProcessErrorIntended(ValidateDate(dateStr, parsed, now, fmt).error);
    assert e == ValueError(text);
    InvalidDateReport(text, dateStr, RetryExample(now, fmt));
    IntendedBody(dateStr, ExampleDate(now, fmt));
  }

  /** The example date ends the body the intended handler posts. */
  lemma IntendedBodyEndsWithExample(example: string)
    ensures var body := JoinLines(DetailLines(example));
            |body| >= |example| && body[|body| - |example|..] == example
  {
    var lines := DetailLines(example);
    JoinLinesEnds(lines);
    var last := lines[|lines| - 1];
    assert last[|last| - |example|..] == example;
  }
}
