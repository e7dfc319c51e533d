/**
 * KitchenRequestBot.fetch_messages (main.py:142-164): paginated reads of the
 * channel history. The history service is the sequence of its replies, one per
 * request in the order the requests are made.
 */
module History {
  import opened Wrappers
  import opened Errors

  /** A message of the channel, with the keys process_messages reads (None: key absent). */
  datatype Message = Message(user: Option<string>, text: Option<string>, ts: Option<int>)

  /** One answer of conversations_history. */
  datatype PageReply =
    | Page(messages: seq<Message>, hasMore: bool, nextCursor: Option<string>)  // nextCursor None: response_metadata.next_cursor absent
    | PageApiError(code: string)  // the SDK raised SlackApiError
    | PageFault                   // any other exception (transport, a missing 'messages' key, ...)

  /** A page after which the loop asks for the next one. */
  predicate Continues(p: PageReply) {
    p.Page? && p.hasMore && p.nextCursor.Some?
  }

  /** The service eventually stops paginating (otherwise the source loops forever). */
  predicate Ends(replies: seq<PageReply>) {
    exists k :: 0 <= k < |replies| && !Continues(replies[k])
  }

  lemma EndsAfterContinuing(replies: seq<PageReply>)
    requires Ends(replies) && Continues(replies[0])
    ensures Ends(replies[1..])
  {
    var k :| 0 <= k < |replies| && !Continues(replies[k]);
    assert replies[1..][k - 1] == replies[k];
  }

  /** `pre` put in front of a successful result; an exception passes through. */
  function Prepend<T>(pre: seq<T>, r: Result<seq<T>, Exc>): Result<seq<T>, Exc> {
    match r
    case Ok(rest) => Ok(pre + rest)
    case Err(e) => Err(e)
  }

  lemma PrependTwice<T>(a: seq<T>, b: seq<T>, r: Result<seq<T>, Exc>)
    ensures Prepend(a, Prepend(b, r)) == Prepend(a + b, r)
  {
    if r.Ok? {
      assert a + (b + r.value) == (a + b) + r.value;
    }
  }

  /**
   * What fetch_messages returns for the replies: a SlackApiError ends the fetch with the
   * messages gathered so far, any other exception propagates, and a page that says
   * has_more without a cursor fails on the missing key.
   */
  function FetchSpec(replies: seq<PageReply>): Result<seq<Message>, Exc>
    requires Ends(replies)
    decreases |replies|
  {
    match replies[0]
    case PageApiError(_) => Ok([])
    case PageFault => Err(OtherError)
    case Page(messages, hasMore, nextCursor) =>
      if !hasMore then Ok(messages)
      else if nextCursor.None? then Err(OtherError)
      else
        EndsAfterContinuing(replies);
        Prepend(messages, FetchSpec(replies[1..]))
  }

  /** The messages of the pages among `replies`, in page order. */
  function PageMessages(replies: seq<PageReply>): seq<Message> {
    if replies == [] then []
    else (if replies[0].Page? then replies[0].messages else []) + PageMessages(replies[1..])
  }

  /**
   * Reads pages while the last one says has_more, each request carrying the previous
   * page's cursor. `cursors[i]` is the cursor sent with request i (None for the first).
   */
  method FetchMessages(replies: seq<PageReply>) returns (r: Result<seq<Message>, Exc>, cursors: seq<Option<string>>)
    requires Ends(replies)
    ensures r == FetchSpec(replies)
    ensures 1 <= |cursors| <= |replies| && cursors[0] == None
    ensures forall i :: 0 <= i < |cursors| - 1 ==> Continues(replies[i]) && cursors[i + 1] == replies[i].nextCursor
    ensures !Continues(replies[|cursors| - 1])
  {
    ghost var stop :| 0 <= stop < |replies| && !Continues(replies[stop]);
    cursors := [None];
    var i := 0;
    var result := replies[0];
    if result.PageApiError? {
      return Ok([]), cursors;
    } else if result.PageFault? {
      return Err(OtherError), cursors;
    }
    var messages := result.messages;
    ghost var before: seq<Message> := [];
    assert replies[0..] == replies;
    assert FetchSpec(replies).Ok? ==> [] + FetchSpec(replies).value == FetchSpec(replies).value;
    while result.hasMore
      invariant 0 <= i <= stop && |cursors| == i + 1
      invariant result == replies[i] && result.Page?
      invariant cursors[0] == None
      invariant forall j :: 0 <= j < i ==> Continues(replies[j]) && cursors[j + 1] == replies[j].nextCursor
      invariant messages == before + result.messages
      invariant Ends(replies[i..])
      invariant FetchSpec(replies) == Prepend(before, FetchSpec(replies[i..]))
      decreases stop - i
    {
      if result.nextCursor.None? {
        return Err(OtherError), cursors;
      }
      NextPage(replies, i, before);
      before := messages;
      cursors := cursors + [result.nextCursor];
      i := i + 1;
      result := replies[i];
      if result.PageApiError? {
        FetchStopsAt(replies, i, before);
        assert FetchSpec(replies) == Ok(before + []);
        assert before + [] == messages;
        return Ok(messages), cursors;
      } else if result.PageFault? {
        assert replies[i..][0] == result;
        return Err(OtherError), cursors;
      }
      messages := messages + result.messages;
    }
    FetchStopsAt(replies, i, before);
    r := Ok(messages);
  }

  /** A SlackApiError or a last page ends the fetch with what was gathered. */
  lemma FetchStopsAt(replies: seq<PageReply>, i: nat, before: seq<Message>)
    requires i < |replies| && Ends(replies[i..])
    requires replies[i].PageApiError? || (replies[i].Page? && !replies[i].hasMore)
    requires FetchSpec(replies) == Prepend(before, FetchSpec(replies[i..]))
    ensures FetchSpec(replies) == Ok(before + if replies[i].Page? then replies[i].messages else [])
  {
    assert replies[i..][0] == replies[i];
    assert before + [] == before;
  }

  /** After a page that continues, the fetch goes on with the rest of the replies. */
  lemma NextPage(replies: seq<PageReply>, i: nat, before: seq<Message>)
    requires i < |replies| && Continues(replies[i]) && Ends(replies[i..])
    requires FetchSpec(replies) == Prepend(before, FetchSpec(replies[i..]))
    ensures i + 1 < |replies| && Ends(replies[i + 1..])
    ensures FetchSpec(replies) == Prepend(before + replies[i].messages, FetchSpec(replies[i + 1..]))
  {
    assert replies[i..][0] == replies[i];
    assert replies[i..][1..] == replies[i + 1..];
    EndsAfterContinuing(replies[i..]);
    PrependTwice(before, replies[i].messages, FetchSpec(replies[i + 1..]));
  }

  /**
   * When the first k pages say has_more and the next request fails with a SlackApiError,
   * the fetch returns the k pages' messages and does not raise.
   */
  lemma {:induction false} ApiErrorKeepsEarlierPages(replies: seq<PageReply>, k: nat)
    requires k < |replies| && replies[k].PageApiError?
    requires forall j :: 0 <= j < k ==> Continues(replies[j])
    ensures Ends(replies)
    ensures FetchSpec(replies) == Ok(PageMessages(replies[..k]))
  {
    assert !Continues(replies[k]);
    if k > 0 {
      EndsAfterContinuing(replies);
      ApiErrorKeepsEarlierPages(replies[1..], k - 1);
      assert replies[..k][1..] == replies[1..][..k - 1];
    }
  }

  /**
   * When the first k pages say has_more and page k is the last, the fetch returns every
   * page's messages in page order.
   */
  lemma {:induction false} LastPageEndsFetch(replies: seq<PageReply>, k: nat)
    requires k < |replies| && replies[k].Page? && !replies[k].hasMore
    requires forall j :: 0 <= j < k ==> Continues(replies[j])
    ensures Ends(replies)
    ensures FetchSpec(replies) == Ok(PageMessages(replies[..k + 1]))
  {
    assert !Continues(replies[k]);
    if k > 0 {
      EndsAfterContinuing(replies);
      LastPageEndsFetch(replies[1..], k - 1);
      assert replies[..k + 1][1..] == replies[1..][..k];
    } else {
      assert replies[..1] == [replies[0]];
      assert [replies[0]][1..] == [];
      assert PageMessages(replies[..1]) == replies[0].messages + PageMessages([]);
      assert replies[0].messages + [] == replies[0].messages;
    }
  }

  /** The only exception fetch_messages lets through is a non-Slack one: SlackApiError is absorbed. */
  lemma {:induction false} FetchRaisesOnlyOtherErrors(replies: seq<PageReply>)
    requires Ends(replies)
    ensures FetchSpec(replies).Err? ==> FetchSpec(replies).error == OtherError
    decreases |replies|
  {
    if Continues(replies[0]) {
      EndsAfterContinuing(replies);
      FetchRaisesOnlyOtherErrors(replies[1..]);
    }
  }
}
