/**
 * KitchenRequestBot.process_messages (main.py:175-216): validate the date, fetch
 * the history, and turn every (message, extracted item) pair into an order record.
 */
module Aggregation {
  import opened Wrappers
  import opened Errors
  import opened Dates
  import opened History
  import opened Collaborators

  /** One element of parsed_data: {'name': ..., 'date': ..., 'products': ...}. */
  datatype Record = Record(name: string, date: string, products: string)

  /** A fetched message with the answers its users_info and completion calls got. */
  datatype Exchange = Exchange(msg: Message, user: UserReply, completion: LlmReply)

  /** Local-time strftime('%m/%d/%Y') of a message timestamp. */
  type DayFormatter = int -> string

  /** `'user' in msg and 'text' in msg`. */
  predicate Eligible(m: Message) {
    m.user.Some? && m.text.Some?
  }

  /** An exception in `a` wins; otherwise `a`'s records come before `b`'s. */
  function Chain(a: Result<seq<Record>, Exc>, b: Result<seq<Record>, Exc>): Result<seq<Record>, Exc> {
    match a
    case Err(e) => Err(e)
    case Ok(records) => Prepend(records, b)
  }

  /** The record one item yields: none for the empty-name sentinel, a KeyError without a name. */
  function ItemRecord(name: string, date: string, item: Item): Result<seq<Record>, Exc> {
    match item
    case Unnamed => Err(OtherError)
    case Named(product) => if product == "" then Ok([]) else Ok([Record(name, date, product)])
  }

  /** The inner loop of process_messages over one message's items. */
  function ItemRecords(name: string, date: string, items: seq<Item>): Result<seq<Record>, Exc> {
    if items == [] then Ok([])
    else Chain(ItemRecord(name, date, items[0]), ItemRecords(name, date, items[1..]))
  }

  /** One iteration of the outer loop: skip, or resolve the author, date the message and extract. */
  function MessageRecords(x: Exchange, dayOf: DayFormatter): Result<seq<Record>, Exc> {
    if !Eligible(x.msg) then Ok([])
    else
      match GetUserInfo(x.msg.user.value, x.user)
      case Err(e) => Err(e)
      case Ok(userName) =>
        match x.msg.ts
        case None => Err(OtherError)
        case Some(ts) =>
          match ParseMessage(x.completion)
          case OtherJson => Err(OtherError)
          case ItemsObject(items) => ItemRecords(userName, dayOf(ts), items)
  }

  /** The outer loop of process_messages: message order, then item order. */
  function AggregateSpec(xs: seq<Exchange>, dayOf: DayFormatter): Result<seq<Record>, Exc> {
    if xs == [] then Ok([])
    else Chain(MessageRecords(xs[0], dayOf), AggregateSpec(xs[1..], dayOf))
  }

  lemma PrependNothing(r: Result<seq<Record>, Exc>)
    ensures Prepend([], r) == r
  {
    if r.Ok? {
      assert [] + r.value == r.value;
    }
  }

  lemma ChainAssoc(a: Result<seq<Record>, Exc>, b: Result<seq<Record>, Exc>, c: Result<seq<Record>, Exc>)
    ensures Chain(Chain(a, b), c) == Chain(a, Chain(b, c))
  {
    if a.Ok? && b.Ok? {
      PrependTwice(a.value, b.value, c);
    }
  }

  /** The nested loop of process_messages (main.py:184-201), appending to parsed_data. */
  method Aggregate(xs: seq<Exchange>, dayOf: DayFormatter) returns (r: Result<seq<Record>, Exc>)
    ensures r == AggregateSpec(xs, dayOf)
  {
    var parsedData: seq<Record> := [];
    var i := 0;
    assert xs[0..] == xs;
    PrependNothing(AggregateSpec(xs, dayOf));
    while i < |xs|
      invariant 0 <= i <= |xs|
      invariant AggregateSpec(xs, dayOf) == Prepend(parsedData, AggregateSpec(xs[i..], dayOf))
    {
      var msg := xs[i].msg;
      assert xs[i..][0] == xs[i] && xs[i..][1..] == xs[i + 1..];
      if !(msg.user.Some? && msg.text.Some?) {
        PrependNothing(AggregateSpec(xs[i + 1..], dayOf));
        i := i + 1;
        continue;
      }
      var userName := GetUserInfo(msg.user.value, xs[i].user);
      if userName.Err? {
        return Err(userName.error);
      }
      if msg.ts.None? {
        return Err(OtherError);
      }
      var msgDate := dayOf(msg.ts.value);
      var parsedItems := ParseMessage(xs[i].completion);
      if parsedItems.OtherJson? {
        return Err(OtherError);
      }
      var items := parsedItems.items;
      var j := 0;
      assert items[0..] == items;
      while j < |items|
        invariant 0 <= j <= |items|
        invariant AggregateSpec(xs, dayOf) ==
                  Prepend(parsedData, Chain(ItemRecords(userName.value, msgDate, items[j..]), AggregateSpec(xs[i + 1..], dayOf)))
      {
        assert items[j..][0] == items[j] && items[j..][1..] == items[j + 1..];
        var item := items[j];
        ghost var later := Chain(ItemRecords(userName.value, msgDate, items[j + 1..]), AggregateSpec(xs[i + 1..], dayOf));
        ChainAssoc(ItemRecord(userName.value, msgDate, item), ItemRecords(userName.value, msgDate, items[j + 1..]),
                   AggregateSpec(xs[i + 1..], dayOf));
        if item.Unnamed? {
          return Err(OtherError);
        }
        if item.name != "" {
          PrependTwice(parsedData, [Record(userName.value, msgDate, item.name)], later);
          parsedData := parsedData + [Record(userName.value, msgDate, item.name)];
        } else {
          PrependNothing(later);
        }
        j := j + 1;
      }
      assert items[|items|..] == [];
      PrependNothing(AggregateSpec(xs[i + 1..], dayOf));
      i := i + 1;
    }
    assert parsedData + [] == parsedData;
    r := Ok(parsedData);
  }

  // ---- what the records are ----

  /** The non-empty item names, in item order: the reference the records are checked against. */
  function NonEmptyNames(items: seq<Item>): (names: seq<string>)
    ensures forall n :: n in names <==> n != "" && Named(n) in items
    ensures |names| <= |items|
  {
    if items == [] then []
    else
      var rest := NonEmptyNames(items[1..]);
      assert items == [items[0]] + items[1..];
      if items[0].Named? && items[0].name != "" then [items[0].name] + rest else rest
  }

  /**
   * A message's items give one record per non-empty name, in item order, each carrying
   * the author's name and the message date; an item without a name raises.
   */
  lemma {:induction false} ItemRecordsAreNonEmptyNames(name: string, date: string, items: seq<Item>)
    ensures ItemRecords(name, date, items).Ok? <==> Unnamed !in items
    ensures ItemRecords(name, date, items).Ok? ==>
              var rs := ItemRecords(name, date, items).value;
              |rs| == |NonEmptyNames(items)| &&
              forall k :: 0 <= k < |rs| ==> rs[k] == Record(name, date, NonEmptyNames(items)[k])
  {
    if items != [] {
      var rest := items[1..];
      ItemRecordsAreNonEmptyNames(name, date, rest);
      assert items == [items[0]] + rest;
      assert Unnamed in items <==> items[0] == Unnamed || Unnamed in rest;
      if items[0].Named? && ItemRecords(name, date, rest).Ok? {
        var tail := ItemRecords(name, date, rest).value;
        if items[0].name == "" {
          assert NonEmptyNames(items) == NonEmptyNames(rest);
          assert ItemRecords(name, date, items).value == [] + tail;
        } else {
          var names := NonEmptyNames(items);
          assert names == [items[0].name] + NonEmptyNames(rest);
          var rs := ItemRecords(name, date, items).value;
          assert rs == [Record(name, date, items[0].name)] + tail;
          forall k | 0 <= k < |rs| ensures rs[k] == Record(name, date, names[k]) {
            if k > 0 {
              assert rs[k] == tail[k - 1] && names[k] == NonEmptyNames(rest)[k - 1];
            }
          }
        }
      }
    }
  }

  /** Records of earlier messages come before those of later messages. */
  lemma {:induction false} AggregateAppend(xs: seq<Exchange>, ys: seq<Exchange>, dayOf: DayFormatter)
    ensures AggregateSpec(xs + ys, dayOf) == Chain(AggregateSpec(xs, dayOf), AggregateSpec(ys, dayOf))
  {
    if xs == [] {
      assert xs + ys == ys;
      PrependNothing(AggregateSpec(ys, dayOf));
    } else {
      assert (xs + ys)[0] == xs[0] && (xs + ys)[1..] == xs[1..] + ys;
      AggregateAppend(xs[1..], ys, dayOf);
      ChainAssoc(MessageRecords(xs[0], dayOf), AggregateSpec(xs[1..], dayOf), AggregateSpec(ys, dayOf));
    }
  }

  /** The aggregation succeeds iff every message's iteration does. */
  lemma {:induction false} AggregateOkIff(xs: seq<Exchange>, dayOf: DayFormatter)
    ensures AggregateSpec(xs, dayOf).Ok? <==> forall i :: 0 <= i < |xs| ==> MessageRecords(xs[i], dayOf).Ok?
  {
    if xs != [] {
      AggregateOkIff(xs[1..], dayOf);
      assert forall i :: 1 <= i < |xs| ==> xs[1..][i - 1] == xs[i];
    }
  }

  /** Nothing else is emitted: every record comes from the items of some message. */
  lemma {:induction false} AggregateSound(xs: seq<Exchange>, dayOf: DayFormatter, r: Record)
    requires AggregateSpec(xs, dayOf).Ok? && r in AggregateSpec(xs, dayOf).value
    ensures exists i :: 0 <= i < |xs| && MessageRecords(xs[i], dayOf).Ok? && r in MessageRecords(xs[i], dayOf).value
  {
    var head := MessageRecords(xs[0], dayOf);
    if r !in head.value {
      AggregateSound(xs[1..], dayOf, r);
      var i :| 0 <= i < |xs[1..]| && MessageRecords(xs[1..][i], dayOf).Ok? && r in MessageRecords(xs[1..][i], dayOf).value;
      assert xs[1..][i] == xs[i + 1];
    }
  }

  /** Every record of every message is emitted. */
  lemma {:induction false} AggregateComplete(xs: seq<Exchange>, dayOf: DayFormatter, i: nat)
    requires AggregateSpec(xs, dayOf).Ok? && i < |xs|
    ensures MessageRecords(xs[i], dayOf).Ok?
    ensures forall r :: r in MessageRecords(xs[i], dayOf).value ==> r in AggregateSpec(xs, dayOf).value
  {
    if i > 0 {
      AggregateComplete(xs[1..], dayOf, i - 1);
      assert xs[1..][i - 1] == xs[i];
    }
  }

  /**
   * The extractor's failures never abort the batch: when every completion call fails and
   * every other step succeeds, the result is an empty record list, not an exception.
   */
  lemma {:induction false} FailedExtractionsGiveNoRecords(xs: seq<Exchange>, dayOf: DayFormatter)
    requires forall i :: 0 <= i < |xs| ==> xs[i].completion.CompletionFailure?
    requires forall i :: 0 <= i < |xs| && Eligible(xs[i].msg) ==> !xs[i].user.UserFault? && xs[i].msg.ts.Some?
    ensures AggregateSpec(xs, dayOf) == Ok([])
  {
    if xs != [] {
      assert forall i :: 1 <= i < |xs| ==> xs[1..][i - 1] == xs[i];
      FailedExtractionsGiveNoRecords(xs[1..], dayOf);
      PrependNothing(Ok([]));
    }
  }

  /** The loop's only exceptions are KeyError-like ones: no SlackApiError, no ValueError. */
  lemma {:induction false} AggregateRaisesOnlyOtherErrors(xs: seq<Exchange>, dayOf: DayFormatter)
    ensures AggregateSpec(xs, dayOf).Err? ==> AggregateSpec(xs, dayOf).error == OtherError
  {
    if xs != [] {
      AggregateRaisesOnlyOtherErrors(xs[1..], dayOf);
      ItemRecordsRaiseOnlyOtherErrors(xs[0], dayOf);
    }
  }

  lemma {:induction false} ItemRecordsRaiseOnlyOtherErrors(x: Exchange, dayOf: DayFormatter)
    ensures MessageRecords(x, dayOf).Err? ==> MessageRecords(x, dayOf).error == OtherError
  {
    if Eligible(x.msg) && !x.user.UserFault? && x.msg.ts.Some? && ParseMessage(x.completion).ItemsObject? {
      var name := GetUserInfo(x.msg.user.value, x.user).value;
      ItemsRaiseOnlyOtherErrors(name, dayOf(x.msg.ts.value), ParseMessage(x.completion).items);
    }
  }

  lemma {:induction false} ItemsRaiseOnlyOtherErrors(name: string, date: string, items: seq<Item>)
    ensures ItemRecords(name, date, items).Err? ==> ItemRecords(name, date, items).error == OtherError
  {
    if items != [] {
      ItemsRaiseOnlyOtherErrors(name, date, items[1..]);
    }
  }

  // ---- the whole of process_messages ----

  const NoMessagesText: string := "No messages found in the specified date range"
  const GenericProcessError: string := "Error processing messages"

  /** The texts the SlackApiError handler picks by error code (main.py:206-209). */
  function SlackErrorText(code: string): string {
    if code == "channel_error" then ":lock: Bot doesn't have access to this channel"
    else if code == "not_in_channel" then ":eyes: Bot needs to be added to the channel first"
    else "Error fetching messages from Slack"
  }

  /**
   * The handlers of process_messages (main.py:205-216), tried in order. A plain ValueError
   * is not a JSONDecodeError, so it reaches `except Exception` like everything else.
   */
  function WrapProcessError(e: Exc): (w: Exc)
    ensures w.ValueError?
    ensures !e.SlackApiError? && !e.JsonDecodeError? ==> w == ValueError(GenericProcessError)
  {
    match e
    case SlackApiError(code) => ValueError(SlackErrorText(code))
    case JsonDecodeError(_) => ValueError("Failed to parse order information from messages")
    case _ => ValueError(GenericProcessError)
  }

  /**
   * The evidently intended handlers: the bot's own ValueErrors (the date error, the empty
   * fetch) re-raised unchanged, everything else wrapped as before.
   */
  function WrapProcessErrorIntended(e: Exc): (w: Exc)
    ensures IsValueError(w)
    ensures IsValueError(e) ==> w == e
    ensures !IsValueError(e) ==> w == WrapProcessError(e)
  {
    if IsValueError(e) then e else WrapProcessError(e)
  }

  /** The fetched messages, each with the answers its collaborator calls got. */
  function Exchanges(msgs: seq<Message>, users: nat -> UserReply, completions: nat -> LlmReply): (xs: seq<Exchange>)
    ensures |xs| == |msgs|
    ensures forall i :: 0 <= i < |xs| ==> xs[i] == Exchange(msgs[i], users(i), completions(i))
  {
    seq(|msgs|, i requires 0 <= i < |msgs| => Exchange(msgs[i], users(i), completions(i)))
  }

  /** process_messages as a value: validate, fetch, refuse an empty fetch, aggregate; wrap any exception. */
  function ProcessSpec(raw: string, parsed: Option<int>, now: int, fmt: DateFormatter,
                       replies: seq<PageReply>, users: nat -> UserReply, completions: nat -> LlmReply,
                       dayOf: DayFormatter): Result<seq<Record>, Exc>
    requires Ends(replies)
  {
    match ValidateDate(raw, parsed, now, fmt)
    case Err(e) => Err(WrapProcessError(e))
    case Ok(_) =>
      match FetchSpec(replies)
      case Err(e) => Err(WrapProcessError(e))
      case Ok(messages) =>
        if messages == [] then Err(WrapProcessError(ValueError(NoMessagesText)))
        else
          match AggregateSpec(Exchanges(messages, users, completions), dayOf)
          case Err(e) => Err(WrapProcessError(e))
          case Ok(records) => Ok(records)
  }

  /**
   * KitchenRequestBot.process_messages. The history service answers the requests made for
   * the validated start date; users(i) and completions(i) answer the calls made for the
   * i-th fetched message.
   */
  method ProcessMessages(raw: string, parsed: Option<int>, now: int, fmt: DateFormatter,
                         replies: seq<PageReply>, users: nat -> UserReply, completions: nat -> LlmReply,
                         dayOf: DayFormatter) returns (r: Result<seq<Record>, Exc>)
    requires Ends(replies)
    ensures r == ProcessSpec(raw, parsed, now, fmt, replies, users, completions, dayOf)
  {
    var startDate := ValidateDate(raw, parsed, now, fmt);
    if startDate.Err? {
      return Err(WrapProcessError(startDate.error));
    }
    var messages, _ := FetchMessages(replies);
    if messages.Err? {
      return Err(WrapProcessError(messages.error));
    }
    if messages.value == [] {
      return Err(WrapProcessError(ValueError(NoMessagesText)));
    }
    var parsedData := Aggregate(Exchanges(messages.value, users, completions), dayOf);
    if parsedData.Err? {
      return Err(WrapProcessError(parsedData.error));
    }
    r := parsedData;
  }

  /**
   * Every failure of process_messages reaches its caller as the same
   * ValueError("Error processing messages"): the date error's details and the
   * "No messages found" text are replaced, and the SlackApiError and JSONDecodeError
   * handlers are never reached.
   */
  lemma ProcessRaisesGenericError(raw: string, parsed: Option<int>, now: int, fmt: DateFormatter,
                                  replies: seq<PageReply>, users: nat -> UserReply, completions: nat -> LlmReply,
                                  dayOf: DayFormatter)
    requires Ends(replies)
    ensures var r := ProcessSpec(raw, parsed, now, fmt, replies, users, completions, dayOf);
            r.Err? ==> r.error == ValueError(GenericProcessError)
  {
    FetchRaisesOnlyOtherErrors(replies);
    if FetchSpec(replies).Ok? {
      AggregateRaisesOnlyOtherErrors(Exchanges(FetchSpec(replies).value, users, completions), dayOf);
    }
  }

  /**
   * An empty fetch fails before any user lookup or extraction: the outcome is the same
   * whatever the collaborators would have answered.
   */
  lemma EmptyFetchFailsBeforeLookups(raw: string, parsed: Option<int>, now: int, fmt: DateFormatter,
                                     replies: seq<PageReply>, dayOf: DayFormatter,
                                     users1: nat -> UserReply, completions1: nat -> LlmReply,
                                     users2: nat -> UserReply, completions2: nat -> LlmReply)
    requires Ends(replies) && FetchSpec(replies) == Ok([])
    ensures ProcessSpec(raw, parsed, now, fmt, replies, users1, completions1, dayOf).Err?
    ensures ProcessSpec(raw, parsed, now, fmt, replies, users1, completions1, dayOf) ==
            ProcessSpec(raw, parsed, now, fmt, replies, users2, completions2, dayOf)
  {
  }

  /**
   * A successful run had a date inside the window, fetched at least one message, and
   * returns exactly what the nested loop built from those messages.
   */
  lemma ProcessSuccess(raw: string, parsed: Option<int>, now: int, fmt: DateFormatter,
                       replies: seq<PageReply>, users: nat -> UserReply, completions: nat -> LlmReply,
                       dayOf: DayFormatter)
    requires Ends(replies)
    requires ProcessSpec(raw, parsed, now, fmt, replies, users, completions, dayOf).Ok?
    ensures parsed.Some? && now - 30 * Day <= parsed.value <= now + Day
    ensures FetchSpec(replies).Ok? && FetchSpec(replies).value != []
    ensures AggregateSpec(Exchanges(FetchSpec(replies).value, users, completions), dayOf) ==
            ProcessSpec(raw, parsed, now, fmt, replies, users, completions, dayOf)
  {
  }
}
