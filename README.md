# Kitchen orders bot — a Dafny model of its decision and aggregation logic

The bot answers the `/shopping-list <date>` slash command. In the background it:

1. checks the date against a window of thirty days back to one day ahead;
2. reads the order channel's history page by page;
3. resolves each author's display name;
4. asks a completion service to extract the ordered items from each message;
5. turns every (message, item) pair into a `{name, date, products}` record;
6. builds a three-column table from the records and encodes it as a spreadsheet;
7. sends the spreadsheet to the requester by direct message;
8. posts exactly one message saying how the run ended to the command's `response_url`.

This project models steps 1–8 of `main.py`. Every remote service is an input to the model:

- **History pages**: a sequence of replies, one per request.
- **Per-message answers**: the answers to each message's `users_info` and completion calls, as functions of the message's position.
- **DM channel and upload**: the channel-open answer and the upload answer, as functions of their requests.
- **Encoder**: whether the spreadsheet encoder succeeds.
- **Clock and date handling**: the clock `now`, the date parser's result, and the two date formatters.

Python exceptions are values of `Errors.Exc`. Every fallible step returns a `Result`, and each `try`/`except` becomes the explicit choice of which exceptions a step absorbs and which it lets through.

The modules follow the program:

- `Dates`: `validate_date`.
- `History`: `fetch_messages`. The loop is a method proved against the function `FetchSpec`.
- `Collaborators`: `get_user_info`, the fallback of `parse_message`, `_open_dm_channel` and `send_file_via_dm`.
- `Aggregation`: `process_messages`. The nested loop is a method proved against `AggregateSpec`, and its exception handlers are `WrapProcessError`.
- `Report`: the column completion of `generate_excel_bytes`, a loop method over a table value.
- `Responses`: `format_error`, plus the outcome branching and payloads of `process_command_background`.
- `PyText`: the three `str` builtins the outer handler applies to error texts.
- `Wrappers` and `Errors`: the `Option`/`Result` types and the exception classes.

Behaviour that follows the code rather than the documented design:

- **Error wrapping.** `process_messages` ends with `except Exception` (main.py:215-216). A ValueError raised inside it is not a JSONDecodeError, so it falls through to that handler and is re-raised as `ValueError("Error processing messages")`. This applies to the date error and to "No messages found in the specified date range".
  - A rejected date, an empty channel and a history read refused with a SlackApiError on its first request are therefore all posted as "Invalid Date Format" with the body "Error processing messages".
  - No example date and no "No messages found" text reaches the user. See Findings.
- **SlackApiError in the history read.** `fetch_messages` catches it and returns the messages gathered so far. The read does not fail hard.
- **Unreachable handlers.** The SlackApiError and JSONDecodeError handlers of `process_messages` (main.py:205-213), "Delivery Failed" (main.py:303-311) and "API Error" (main.py:337-345) are never reached in the model: every callee absorbs those exceptions first. In the program, "API Error" is still reached when one of the posts to `response_url` inside the `try` (main.py:273, 287, 315, 320) raises a RequestException; the model takes those posts to succeed (see the `requests.post` line under Left out).
- **Failed uploads.** An upload refused by Slack makes `send_file_via_dm` return False. The run then posts ":x: Failed to send report. Please try again later.", not a delivery error.
- **Render faults.** The fallback of `generate_excel_bytes` (main.py:78) calls `to_excel()` without a target, which raises. A render fault therefore ends in "Report Generation Failed"; no error spreadsheet is produced.
- **Window boundaries.** Both bounds are inclusive at the instant level. A bare calendar date parses to its midnight, so the date thirty days back is refused unless the command runs exactly at midnight, and tomorrow's date is accepted (`Dates.CalendarDateBounds`).

## Model

| member | source | states |
|---|---|---|
| Dates.ValidateDate | main.py:86-113 | the date is returned iff it parsed and lies in [now − 30 days, now + 1 day]; otherwise a ValueError is raised, and its text is the fixed message naming the input and the example date seven days back |
| Dates.WindowBounds | main.py:93-101 | both window bounds are accepted (strict comparisons); one microsecond beyond either bound, 31 days back, and 2 days ahead are refused |
| Dates.CalendarDateBounds | main.py:89-101 | a calendar date 30 days back is refused unless now is a midnight; tomorrow's date and the date 29 days back are accepted |
| Dates.InvalidDateLines | main.py:106-112 | once stripped and split into lines, the date error is "Invalid date: <input>" followed by the three rules and the example-date line |
| Dates.InvalidDateTextNamesInputAndExample | main.py:106-112 | the stripped date error starts with "Invalid date: <input>" and ends with the example date |
| History.FetchMessages | main.py:142-164 | the loop's result equals `FetchSpec`; it sends no cursor first, then exactly the previous page's next_cursor after each page that has more, and it stops at the first page that does not continue |
| History.LastPageEndsFetch | main.py:144-159 | when pages 0..k−1 continue and page k has no more, the fetch returns every page's messages in page order |
| History.ApiErrorKeepsEarlierPages | main.py:153-164 | when the request after k continuing pages raises SlackApiError, the fetch returns those k pages' messages and does not raise |
| History.FetchRaisesOnlyOtherErrors | main.py:145-163 | a SlackApiError never escapes the fetch; only other exceptions do |
| Collaborators.GetUserInfo | main.py:166-173 | a found user gives the real name; a SlackApiError gives the raw user id; any other exception propagates, and only then does the call fail |
| Collaborators.ParseMessage | main.py:45-52 | any failure of the completion call gives `{"items": []}`; otherwise the decoded JSON is returned |
| Collaborators.OpenDmChannel | main.py:115-122 | the channel id when the channel opens, None after a SlackApiError; other exceptions propagate |
| Collaborators.SendFileViaDm | main.py:124-140 | True iff a channel with a non-empty id opened and the upload completed; without a channel the answer is False (or the open fault); an upload refused with a SlackApiError gives False; the call raises iff opening the channel, or the upload attempted on a usable channel, raised something other than SlackApiError; no SlackApiError escapes |
| Collaborators.NoChannelNoUpload | main.py:126-128 | without a usable channel the result does not depend on the upload service: the upload is not attempted |
| Aggregation.Aggregate | main.py:184-203 | the nested loop's result equals `AggregateSpec`: records in message order, then item order, and the first exception wins |
| Aggregation.NonEmptyNames | main.py:193-195 | a name is listed iff it is non-empty and some item carries it; at most one per item |
| Aggregation.ItemRecordsAreNonEmptyNames | main.py:193-201 | a message's items raise iff one lacks a name; otherwise record k carries the author, the message date and the k-th non-empty name |
| Aggregation.AggregateAppend | main.py:185-201 | the records of a message list are those of its first part followed by those of the rest |
| Aggregation.AggregateOkIff | main.py:185-201 | aggregation succeeds iff every message's step succeeds |
| Aggregation.AggregateSound | main.py:185-201 | every emitted record comes from one message's records |
| Aggregation.AggregateComplete | main.py:185-201 | every record of every message is emitted |
| Aggregation.FailedExtractionsGiveNoRecords | main.py:185-201 | when every completion call fails (and lookups succeed), no record is emitted and nothing is raised |
| Aggregation.AggregateRaisesOnlyOtherErrors | main.py:185-201 | the loop raises no ValueError, JSONDecodeError or SlackApiError |
| Aggregation.WrapProcessError | main.py:205-216 | the handlers always raise a ValueError, and anything other than SlackApiError or JSONDecodeError becomes "Error processing messages" |
| Aggregation.WrapProcessErrorIntended | main.py:205-216 | corrected handlers: a ValueError is re-raised unchanged; anything else is wrapped exactly as `WrapProcessError` wraps it |
| Aggregation.ProcessMessages | main.py:175-216 | the method's result equals `ProcessSpec`: validate, fetch, refuse an empty fetch, aggregate, wrap any exception |
| Aggregation.ProcessRaisesGenericError | main.py:177-216 | every failure of process_messages is `ValueError("Error processing messages")` |
| Aggregation.EmptyFetchFailsBeforeLookups | main.py:179-182 | an empty fetch fails, and the result is the same whatever the user and completion services would answer |
| Aggregation.ProcessSuccess | main.py:177-203 | a success implies a date in the window and a non-empty fetch, and returns exactly the aggregated records |
| Report.FrameOf | main.py:63 | `pd.DataFrame(rows)`: one row per dict, and every row has a cell for every column |
| Report.ColumnsFromKeys | main.py:63 | the derived column list extends the given one, and a name is in it iff it was given or some dict has it as a key |
| Report.LookupFinds | main.py:63 | a cell is NaN iff the dict lacks the key; otherwise it holds the value at the key's first occurrence |
| Report.FrameColumns | main.py:63 | the table's columns are exactly the keys of the dicts |
| Report.FrameCells | main.py:63 | a cell is NaN iff its dict lacks that column's key, and otherwise holds that dict's value for the key |
| Report.CleanData | main.py:59-61 | None, an empty list or an empty dict give no rows; a non-empty dict becomes a single row; a list is kept |
| Report.MissingColumns | main.py:66-67 | a column is listed iff it is required and absent |
| Report.GenerateExcelBytes | main.py:55-78 | the encoder's success decides success; the table then holds the three report columns, its columns are the data's plus the missing ones in report order, rows and existing cells are unchanged, and added cells are "" |
| Report.CompletionStep | main.py:66-68 | one more loop iteration keeps the table completed for the longer column list |
| Report.CompletionIdempotent | main.py:66-68 | completing an already completed table adds no column |
| Report.EmptyDataGivesBareSchema | main.py:59-68 | no data gives zero rows and exactly the columns name, date, products |
| Report.RecordsTable | main.py:63-68 | the table of a record list has the columns name, date, products in that order, one row per record, and row k holds record k's fields |
| Responses.FormatError | main.py:218-239 | the first block is the titled message; a second example block is added iff the example is truthy, so there are one or two blocks |
| Responses.Raised | main.py:325-356 | the ValueError family becomes "Invalid Date Format" carrying `str(e)`; RequestException becomes "API Error"; "Something Went Wrong" iff the exception is neither |
| Responses.OutcomeSpec | main.py:269-356 | each outcome holds exactly when its branch's condition does: no records, render fault, delivered, not delivered, SlackApiError from the sender, ValueError anywhere; a process_messages failure and a non-Slack fault of the sender go to the outer handlers (`Raised`) |
| Responses.ResponseFor | main.py:273-356 | the two DM outcomes post a plain notice and every other outcome an error report; only "No Data Found" and "Invalid Date Format" carry the retry example; the date error's body is `InvalidDateBody` of its text |
| Responses.InvalidDateBody | main.py:327-332 | a multi-line error text (after stripping) shows everything after its first line; a one-line text is shown whole |
| Responses.OutcomesPostDistinctHeadlines | main.py:273-356 | any two different kinds of outcome are posted under different headlines |
| Responses.Respond | main.py:273-356 | the payload is ephemeral and is the outcome's text, or the outcome's error blocks as `format_error` builds them |
| Responses.ProcessCommandBackground | main.py:264-356 | the run's outcome is `OutcomeSpec` of process_messages, the encoder and send_file_via_dm, and the posted payload renders that outcome |
| Responses.OneLineBody | main.py:327-332 | a one-line error message is posted whole under "Invalid Date Format" |
| Responses.UnreachableOutcomes | main.py:303-345 | no run ends in "Delivery Failed" or "API Error", and an "Invalid Date Format" run always carries "Error processing messages" |
| Responses.EmptyFetchPostedAsInvalidDate | main.py:179-182 | an in-window date with an empty fetch is posted as "Invalid Date Format" / "Error processing messages" with the retry example |
| Responses.FailedExtractionsPostNoData | main.py:269-281 | when every completion call fails, the run ends in "No Data Found" |
| Responses.BadDateShowsGenericText | main.py:215-216 | a rejected date is posted with the body "Error processing messages" |
| Responses.IntendedBadDateShowsRules | main.py:325-335 | with the corrected handlers, a rejected date is posted with the three rules and the example date as its body |
| Responses.IntendedBodyEndsWithExample | main.py:111 | that corrected body ends with the example date |

## Left out

- Slack SDK transport (`conversations_history`, `users_info`, `conversations_open`, `files_upload_v2`): each answer is an input value (a page, a name, a channel, an upload result) or an exception kind.
- The OpenAI request, the prompt text and `json.loads` of the reply (main.py:24-49): the reply is the decoded JSON or a failure.
- The pandas/openpyxl byte encoding (main.py:70-73): the table handed to the encoder is modelled, and the encoder only as success or failure.
- dateutil's free-form parsing: an `Option<int>` instant, with None when the parser raised. An OverflowError from the parser is not distinguished from a parse failure.
- `datetime.now()`: a parameter `now`. The later calls are taken to return the same instant: the one at main.py:111 for the date error's example, and those at main.py:278 and 333 for the retry example (`Responses.RetryExample`).
- `float(msg['ts'])` and the local-time `strftime` (main.py:190): an abstract `dayOf`. The `%m/%d/%Y` formatter of the example dates is the abstract `fmt`.
- The oldest-timestamp filter sent to the history service: the replies are taken as already answering for the validated start date.
- Item names that are not strings, and list elements that are not dicts: an item either has a string name or has no name key.
- Column completion for rows whose values are not strings: row values are strings.
- HMAC signature checking, aiohttp routing, the 403 and acknowledgement responses, `asyncio.create_task` and the server loop (main.py:241-262, 358-369): HTTP and concurrency plumbing.
- config.py: environment-variable loading, no logic.
- Whether the `requests.post` to `response_url` succeeds: a failing post (which would trigger a second post through the outer handlers) is not modelled; each run posts the one payload of its outcome.
- Termination of the history loop: the replies must contain a page that does not continue (`History.Ends`); a service that paginates forever makes the source loop forever.
- Log lines printed by the handlers.

## Findings

| source | as written | input that shows it | evidently intended | confidence | as-written member | corrected member |
|---|---|---|---|---|---|---|
| main.py:215-216 | `except Exception` re-raises every inner ValueError, the date error included, as `ValueError("Error processing messages")` | date text "01/01/2000" (or any date outside the window) | the outer handler (main.py:325-332) shows the date error's rules and example date, which is why it splits off the lines after "Invalid date: ..." | not executed | Responses.BadDateShowsGenericText | Responses.IntendedBadDateShowsRules |

The corrected handler is `Aggregation.WrapProcessErrorIntended`. The pipeline itself (`Aggregation.ProcessSpec` and everything built on it) keeps the code's wrapping, so its posted messages are the ones the bot actually posts.
