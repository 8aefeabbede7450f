/**
 The channel reader `read_channel`: pages backward through a channel's history, feeding each
 message to the accumulator, until a page comes back empty.

 The chat client's history call is abstracted as a page source: given the cursor, the page of
 messages created before it, in the order the client yields them. The client promises
 that those messages are strictly older than the cursor; that promise is what makes the
 reading terminate, and the model takes it as a precondition.
 */
module History {
  import opened Messages
  import opened Usage

  /** One call of `channel.history(before=cursor)`. */
  type PageSource = Timestamp -> seq<Message>

  /** The history call returns only messages created strictly before the cursor. */
  ghost predicate StrictlyBefore(fetch: PageSource) {
    forall t: Timestamp, k :: 0 <= k < |fetch(t)| ==> fetch(t)[k].createdAt < t
  }

  /**
   The non-empty pages the reader receives when it starts at `cursor`: each next page is
   requested before the creation instant of the last message of the previous one, and
   reading stops at the first empty page, which is not listed.
   */
  function Pages(fetch: PageSource, cursor: Timestamp): (pages: seq<seq<Message>>)
    requires StrictlyBefore(fetch)
    ensures forall k :: 0 <= k < |pages| ==> pages[k] != []
    ensures pages == [] <==> fetch(cursor) == []
    ensures pages != [] ==> pages[0] == fetch(cursor)
    decreases cursor
  {
    var page := fetch(cursor);
    if page == [] then [] else [page] + Pages(fetch, page[|page| - 1].createdAt)
  }

  function Flatten(pages: seq<seq<Message>>): seq<Message>
    decreases |pages|
  {
    if |pages| == 0 then [] else pages[0] + Flatten(pages[1..])
  }

  /** A non-empty page is followed by the pages read from its last message's creation instant. */
  lemma PagesStep(fetch: PageSource, cursor: Timestamp)
    requires StrictlyBefore(fetch)
    requires fetch(cursor) != []
    ensures Flatten(Pages(fetch, cursor))
         == fetch(cursor) + Flatten(Pages(fetch, fetch(cursor)[|fetch(cursor)| - 1].createdAt))
  {
  }

  /**
   What one round of the reading loop does to the messages still to be read: a non-empty page
   moves them to the seen messages and lets the cursor go strictly back; an empty page means
   everything has been seen.
   */
  lemma ReadingStep(fetch: PageSource, now: Timestamp, seen: seq<Message>, before: Timestamp)
    requires StrictlyBefore(fetch)
    requires seen + Flatten(Pages(fetch, before)) == Flatten(Pages(fetch, now))
    ensures fetch(before) == [] ==> seen == Flatten(Pages(fetch, now))
    ensures fetch(before) != [] ==>
      var page := fetch(before);
      var next := page[|page| - 1].createdAt;
      && next < before
      && (seen + page) + Flatten(Pages(fetch, next)) == Flatten(Pages(fetch, now))
  {
    var page := fetch(before);
    if page != [] {
      PagesStep(fetch, before);
      assert (seen + page) + Flatten(Pages(fetch, page[|page| - 1].createdAt)) == seen + Flatten(Pages(fetch, before));
    } else {
      assert seen + [] == seen;
    }
  }

  /** All messages read from `cursor` on were created before it. */
  lemma {:induction false} PagesAreBefore(fetch: PageSource, cursor: Timestamp)
    requires StrictlyBefore(fetch)
    ensures forall k :: 0 <= k < |Flatten(Pages(fetch, cursor))| ==> Flatten(Pages(fetch, cursor))[k].createdAt < cursor
    decreases cursor
  {
    var page := fetch(cursor);
    if page != [] {
      var next := page[|page| - 1].createdAt;
      PagesAreBefore(fetch, next);
      var pages := Pages(fetch, cursor);
      assert pages[1..] == Pages(fetch, next);
      var all := Flatten(pages);
      assert all == page + Flatten(Pages(fetch, next));
      forall k | 0 <= k < |all|
        ensures all[k].createdAt < cursor
      {
        if k >= |page| {
          assert all[k] == Flatten(Pages(fetch, next))[k - |page|];
        }
      }
    }
  }

  /** Observing the next message of a page extends the scan of the page's prefix by one. */
  lemma ScanPrefix(usage: Usage, page: seq<Message>, k: nat)
    requires k < |page|
    ensures Observe(Scan(usage, page[..k]), page[k]) == Scan(usage, page[..k + 1])
  {
    assert page[..k + 1] == page[..k] + [page[k]];
    ScanSnoc(usage, page[..k], page[k]);
  }

  /**
   The body of one `async for` over a page: every message moves the cursor to its creation
   instant and is observed; `reading` records whether the page held any message.
   */
  method ReadPage(page: seq<Message>, before: Timestamp, usage: Usage)
    returns (result: Usage, cursor: Timestamp, reading: bool)
    ensures result == Scan(usage, page)
    ensures reading <==> page != []
    ensures page == [] ==> cursor == before
    ensures page != [] ==> cursor == page[|page| - 1].createdAt
  {
    result := usage;
    cursor := before;
    reading := false;
    var k := 0;
    while k < |page|
      invariant 0 <= k <= |page|
      invariant result == Scan(usage, page[..k])
      invariant reading <==> k > 0
      invariant k == 0 ==> cursor == before
      invariant k > 0 ==> cursor == page[k - 1].createdAt
    {
      var message := page[k];
      reading := true;
      cursor := message.createdAt;
      ScanPrefix(usage, page, k);
      result := Observe(result, message);
      k := k + 1;
    }
    assert page[..k] == page;
  }

  /**
   What the reading loop keeps: the accumulator is the scan of the messages seen so far, the
   cursor is the creation instant of the last of them (or the start instant when there are
   none), and the messages seen so far followed by those still to be read from the cursor are
   all the messages a full read yields; once reading stops, the page at the cursor is empty.
   */
  ghost predicate Reading(fetch: PageSource, now: Timestamp, usage: Usage,
                          result: Usage, cursor: Timestamp, seen: seq<Message>, reading: bool)
    requires StrictlyBefore(fetch)
  {
    && result == Scan(usage, seen)
    && (seen == [] ==> cursor == now)
    && (seen != [] ==> cursor == seen[|seen| - 1].createdAt)
    && (reading ==> seen + Flatten(Pages(fetch, cursor)) == Flatten(Pages(fetch, now)))
    && (!reading ==> seen == Flatten(Pages(fetch, now)) && fetch(cursor) == [])
  }

  /** One round of the reading loop keeps the loop's invariant and moves the cursor back. */
  lemma ReadingRound(fetch: PageSource, now: Timestamp, usage: Usage, result: Usage,
                     before: Timestamp, seen: seq<Message>,
                     next: Usage, cursor: Timestamp, reading: bool)
    requires StrictlyBefore(fetch)
    requires Reading(fetch, now, usage, result, before, seen, true)
    requires next == Scan(result, fetch(before))
    requires reading <==> fetch(before) != []
    requires fetch(before) == [] ==> cursor == before
    requires fetch(before) != [] ==> cursor == fetch(before)[|fetch(before)| - 1].createdAt
    ensures Reading(fetch, now, usage, next, cursor, seen + fetch(before), reading)
    ensures reading ==> cursor < before
  {
    var page := fetch(before);
    ScanAppend(usage, seen, page);
    ReadingStep(fetch, now, seen, before);
    if page != [] {
      assert (seen + page)[|seen + page| - 1] == page[|page| - 1];
    } else {
      assert seen + page == seen;
    }
  }

  /**
   `read_channel` over page source `fetch`, starting at `now` with accumulator `usage`.
   Returns the final accumulator, the final cursor and the messages read, in reading order.
   */
  method ReadChannel(fetch: PageSource, now: Timestamp, usage: Usage)
    returns (result: Usage, cursor: Timestamp, seen: seq<Message>)
    requires StrictlyBefore(fetch)
    ensures seen == Flatten(Pages(fetch, now))
    ensures result == Scan(usage, seen)
    ensures fetch(cursor) == []
    ensures seen == [] ==> cursor == now
    ensures seen != [] ==> cursor == seen[|seen| - 1].createdAt
    ensures Positive(usage) ==>
      forall c, d :: c in usage ==> Get(result[c], d) == Get(usage[c], d) + Count(seen, c, d)
  {
    result := usage;
    cursor := now;
    seen := [];
    var reading := true;
    while reading
      invariant Reading(fetch, now, usage, result, cursor, seen, reading)
      decreases if reading then cursor + 1 else 0
    {
      var before := cursor;
      var page := fetch(before);
      var next;
      next, cursor, reading := ReadPage(page, before, result);
      ReadingRound(fetch, now, usage, result, before, seen, next, cursor, reading);
      result := next;
      seen := seen + page;
    }
    if Positive(usage) {
      ScanCounts(usage, seen);
    }
  }
}
