/**
 Event delivery: pages of a run's log bounded by count and by encoded size, and the server-sent
 event loop that follows the log with a cursor.
 */
module EventPaging {
  import opened Wrappers
  import opened JsonText
  import opened JsValues

  /** The text of an event is an object's JSON; nothing but its ends matters here. */
  type ObjectText = t: Text | |t| >= 2 && t[0] == OPEN && t[|t| - 1] == CLOSE witness [OPEN, CLOSE]

  const OPEN: CodeUnit := 0x7B
  const CLOSE: CodeUnit := 0x7D
  const COMMA: CodeUnit := 0x2C

  datatype RunEvent = RunEvent(sequence: nat, text: ObjectText)

  const EVENT_PAGE_LIMIT := 256
  /** The envelope's size in bytes, `{"events":[` and `]}` together. */
  const ENVELOPE_BYTES := 13
  const ENVELOPE_HEAD: Text := [OPEN, 0x22, 0x65, 0x76, 0x65, 0x6E, 0x74, 0x73, 0x22, 0x3A, 0x5B]
  const ENVELOPE_TAIL: Text := [0x5D, CLOSE]

  // ---- the encoded size of a page

  function Joined(page: seq<RunEvent>): Text {
    if page == [] then []
    else if |page| == 1 then page[0].text
    else Joined(page[..|page| - 1]) + ([COMMA] + page[|page| - 1].text)
  }

  /** `JSON.stringify({ events: page })`. */
  function Encoded(page: seq<RunEvent>): Text { ENVELOPE_HEAD + Joined(page) + ENVELOPE_TAIL }

  /** The bytes that the next event adds to a page of `n` events. */
  function EventBytes(e: RunEvent, n: nat): nat { Utf8Length(e.text) + if n > 0 then 1 else 0 }

  /** Sizes add up where no surrogate pair straddles the border. */
  lemma {:induction false} SizesAdd(a: Text, b: Text)
    requires a != [] && b != [] ==> !(IsLead(a[|a| - 1]) && IsTrail(b[0]))
    ensures Utf8Length(a + b) == Utf8Length(a) + Utf8Length(b)
    decreases |a|
  {
    if a == [] {
      assert a + b == b;
    } else if IsLead(a[0]) && |a| > 1 && IsTrail(a[1]) {
      assert (a + b)[2..] == a[2..] + b;
      SizesAdd(a[2..], b);
    } else {
      assert (a + b)[1..] == a[1..] + b;
      SizesAdd(a[1..], b);
    }
  }

  lemma {:induction false} JoinedEnds(page: seq<RunEvent>)
    ensures page != [] ==> Joined(page) != [] && Joined(page)[|Joined(page)| - 1] == CLOSE
  {}

  lemma JoinedGrows(page: seq<RunEvent>, e: RunEvent)
    ensures Utf8Length(Joined(page + [e])) == Utf8Length(Joined(page)) + EventBytes(e, |page|)
  {
    assert (page + [e])[..|page|] == page;
    if page != [] {
      JoinedEnds(page);
      SizesAdd([COMMA], e.text);
      SizesAdd(Joined(page), [COMMA] + e.text);
    }
  }

  lemma EncodedSize(page: seq<RunEvent>)
    ensures Utf8Length(Encoded(page)) == ENVELOPE_BYTES + Utf8Length(Joined(page))
  {
    JoinedEnds(page);
    SizesAdd(ENVELOPE_HEAD, Joined(page));
    SizesAdd(ENVELOPE_HEAD + Joined(page), ENVELOPE_TAIL);
    HeadSize();
  }

  lemma HeadSize()
    ensures Utf8Length(ENVELOPE_HEAD) == 11 && Utf8Length(ENVELOPE_TAIL) == 2
  {
    AsciiSize(ENVELOPE_HEAD);
    AsciiSize(ENVELOPE_TAIL);
  }

  lemma {:induction false} AsciiSize(t: Text)
    requires forall u | u in t :: u < 0x80
    ensures Utf8Length(t) == |t|
  {
    if t != [] {
      assert t[0] in t && forall u | u in t[1..] :: u in t;
      AsciiSize(t[1..]);
    }
  }

  // ---- paging

  datatype PageError = LimitInvalid | EventTooLarge(sequence: nat)

  function Min(a: nat, b: nat): nat { if a < b then a else b }

  /** The running byte count after `n` events. */
  function PageSize(events: seq<RunEvent>, n: nat): nat
    requires n <= |events|
  {
    if n == 0 then ENVELOPE_BYTES else PageSize(events, n - 1) + EventBytes(events[n - 1], n - 1)
  }

  /** The running count is the encoded size of `{"events":page}`. */
  lemma {:induction false} PageSizeIsEncodedSize(events: seq<RunEvent>, n: nat)
    requires n <= |events|
    ensures PageSize(events, n) == Utf8Length(Encoded(events[..n]))
  {
    if n == 0 {
      EncodedSize(events[..0]);
    } else {
      PageSizeIsEncodedSize(events, n - 1);
      assert events[..n] == events[..n - 1] + [events[n - 1]];
      JoinedGrows(events[..n - 1], events[n - 1]);
      EncodedSize(events[..n - 1]);
      EncodedSize(events[..n]);
    }
  }

  predicate Fits(events: seq<RunEvent>, n: nat, maxBytes: int)
    requires n <= |events|
  {
    PageSize(events, n) <= maxBytes
  }

  lemma {:induction false} ShorterFits(events: seq<RunEvent>, n: nat, m: nat, maxBytes: int)
    requires n <= m <= |events| && Fits(events, m, maxBytes)
    ensures Fits(events, n, maxBytes)
    decreases m
  {
    if n < m { ShorterFits(events, n, m - 1, maxBytes); }
  }

  /** Event `n` stops the batch with an error: it alone is over the limit, or it is first and does not fit its envelope. */
  predicate Refused(events: seq<RunEvent>, n: nat, maxBytes: int) {
    && n < |events| && n < EVENT_PAGE_LIMIT
    && (n > 0 ==> Fits(events, n, maxBytes))
    && (EventBytes(events[n], n) > maxBytes || (n == 0 && !Fits(events, 1, maxBytes)))
  }

  lemma LaterNotRefused(events: seq<RunEvent>, n: nat, maxBytes: int)
    requires n < |events| && !Fits(events, n + 1, maxBytes)
    ensures forall m: nat | m > n :: !Refused(events, m, maxBytes)
  {
    forall m: nat | m > n && m < |events| && Fits(events, m, maxBytes) ensures false {
      ShorterFits(events, n + 1, m, maxBytes);
    }
  }

  /** `boundedEventBatch`: the longest prefix within the limits, or an error. */
  method BoundedEventBatch(events: seq<RunEvent>, maxBytes: int) returns (r: Result<seq<RunEvent>, PageError>)
    ensures r.Ok? ==>
      && r.value <= events && |r.value| <= EVENT_PAGE_LIMIT
      && (events != [] ==> r.value != [] && Utf8Length(Encoded(r.value)) <= maxBytes)
      && (|r.value| == Min(|events|, EVENT_PAGE_LIMIT) || !Fits(events, |r.value| + 1, maxBytes))
    ensures r.Err? <==> maxBytes < 1 || exists n: nat :: Refused(events, n, maxBytes)
    ensures r == Err(LimitInvalid) <==> maxBytes < 1
    ensures r.Err? && maxBytes >= 1 ==>
      exists n: nat :: Refused(events, n, maxBytes) && r.error == EventTooLarge(events[n].sequence)
  {
    if maxBytes < 1 { return Err(LimitInvalid); }
    var page: seq<RunEvent>, bytes: nat := [], ENVELOPE_BYTES;
    while |page| < Min(|events|, EVENT_PAGE_LIMIT)
      invariant |page| <= Min(|events|, EVENT_PAGE_LIMIT) && page == events[..|page|]
      invariant bytes == PageSize(events, |page|)
      invariant page != [] ==> Fits(events, |page|, maxBytes)
      invariant forall k: nat | k < |page| :: !Refused(events, k, maxBytes)
      decreases |events| - |page|
    {
      var n := |page|;
      var eventBytes := EventBytes(events[n], n);
      if eventBytes > maxBytes {
        assert Refused(events, n, maxBytes);
        return Err(EventTooLarge(events[n].sequence));
      }
      if bytes + eventBytes > maxBytes {
        if page == [] {
          assert Refused(events, 0, maxBytes);
          return Err(EventTooLarge(events[n].sequence));
        }
        LaterNotRefused(events, n, maxBytes);
        break;
      }
      page, bytes := page + [events[n]], bytes + eventBytes;
      assert events[..n + 1] == events[..n] + [events[n]];
    }
    PageSizeIsEncodedSize(events, |page|);
    r := Ok(page);
  }

  /** An object's text of `n` bytes and the braces around them. */
  function Padded(n: nat): ObjectText { [OPEN] + seq(n, _ => 0x61 as CodeUnit) + [CLOSE] }

  /** Two events under a limit of fifty bytes: the first alone would go out, and the batch fails for the second. */
  lemma SmallEventIsHeldBack(events: seq<RunEvent>)
    requires events == [RunEvent(1, Padded(0)), RunEvent(2, Padded(100))]
    ensures Fits(events, 1, 50) && Refused(events, 1, 50)
  {
    AsciiSize(events[0].text);
    AsciiSize(events[1].text);
    assert PageSize(events, 1) == PageSize(events, 0) + EventBytes(events[0], 0);
  }

  // ---- following a log

  /** A store's log: sequences count from one without gaps. */
  ghost predicate IsLog(log: seq<RunEvent>) { forall i | 0 <= i < |log| :: log[i].sequence == i + 1 }

  /**
   What one round of the loop meets: the log when events are asked for, how many writes succeed
   before the client goes away, and the run when its status is asked for.
   */
  datatype Round = Round(atFetch: seq<RunEvent>, leavesAfter: Option<nat>, atCheck: seq<RunEvent>, terminal: bool)

  /** A log only grows, within a round and from round to round. */
  ghost predicate Unfolds(start: seq<RunEvent>, rounds: seq<Round>)
    decreases |rounds|
  {
    rounds == [] || (start <= rounds[0].atFetch <= rounds[0].atCheck && IsLog(rounds[0].atCheck)
                     && Unfolds(rounds[0].atCheck, rounds[1..]))
  }

  datatype Ending = Complete | ClientLeft | StreamError | StillOpen

  /** The events after `cursor`, as the store lists them. */
  function EventsAfter(log: seq<RunEvent>, cursor: nat): seq<RunEvent> {
    var later := if cursor <= |log| then log[cursor..] else [];
    if |later| <= EVENT_PAGE_LIMIT then later else later[..EVENT_PAGE_LIMIT]
  }

  /** The part of a log that a client that asked from `start` on has been sent. */
  ghost predicate Delivered(sent: seq<RunEvent>, log: seq<RunEvent>, start: nat, cursor: nat) {
    && cursor == start + |sent|
    && (sent == [] || (cursor <= |log| && sent == log[start..cursor]))
  }

  lemma DeliveredLater(sent: seq<RunEvent>, log: seq<RunEvent>, longer: seq<RunEvent>, start: nat, cursor: nat)
    requires Delivered(sent, log, start, cursor) && log <= longer
    ensures Delivered(sent, longer, start, cursor)
  {
    if sent != [] { assert longer[start..cursor] == log[start..cursor]; }
  }

  lemma DeliverOne(sent: seq<RunEvent>, log: seq<RunEvent>, start: nat, cursor: nat)
    requires Delivered(sent, log, start, cursor) && cursor < |log|
    ensures Delivered(sent + [log[cursor]], log, start, cursor + 1)
  {
    assert log[start..cursor + 1] == log[start..cursor] + [log[cursor]];
  }

  /** Writing a page's events one by one, until all are written or the client goes away. */
  method WritePage(page: seq<RunEvent>, leavesAfter: Option<nat>, sent: seq<RunEvent>, cursor: nat,
                   ghost log: seq<RunEvent>, ghost start: nat)
    returns (all: bool, sent': seq<RunEvent>, cursor': nat)
    requires IsLog(log) && Delivered(sent, log, start, cursor)
    requires page == [] || (cursor <= |log| && page <= log[cursor..])
    ensures Delivered(sent', log, start, cursor') && sent <= sent'
    ensures all <==> leavesAfter.None? || leavesAfter.value >= |page|
    ensures sent' == sent + if all then page else page[..leavesAfter.value]
  {
    sent', cursor' := sent, cursor;
    for i := 0 to |page|
      invariant Delivered(sent', log, start, cursor') && sent' == sent + page[..i] && cursor' == cursor + i
      invariant leavesAfter.Some? ==> leavesAfter.value >= i
    {
      if leavesAfter == Some(i) { return false, sent', cursor'; }
      assert page[i] == log[cursor..][i] == log[cursor + i];
      DeliverOne(sent', log, start, cursor');
      assert page[..i + 1] == page[..i] + [page[i]];
      sent', cursor' := sent' + [page[i]], page[i].sequence;
    }
    all := true;
  }

  /** The log has a page that cannot be made. */
  ghost predicate PageFails(log: seq<RunEvent>, maxBytes: int) {
    maxBytes < 1 || exists cursor: nat, n: nat :: Refused(EventsAfter(log, cursor), n, maxBytes)
  }

  /** No page can be made of what comes after the cursor. */
  ghost predicate PageFailsAt(log: seq<RunEvent>, cursor: nat, maxBytes: int) {
    maxBytes < 1 || exists n: nat :: Refused(EventsAfter(log, cursor), n, maxBytes)
  }

  /** One round: fetch a page, write it, look whether the run is over. */
  method FollowRound(round: Round, sent: seq<RunEvent>, cursor: nat, maxBytes: int, ghost start: nat)
    returns (ending: Ending, sent': seq<RunEvent>, cursor': nat)
    requires IsLog(round.atCheck) && round.atFetch <= round.atCheck && Delivered(sent, round.atFetch, start, cursor)
    ensures Delivered(sent', round.atCheck, start, cursor') && sent <= sent'
    ensures ending.StreamError? <==> PageFailsAt(round.atFetch, cursor, maxBytes)
    ensures ending.StreamError? ==> sent' == sent
    ensures ending.ClientLeft? ==> round.leavesAfter.Some? && |sent'| == |sent| + round.leavesAfter.value
    ensures ending.Complete? || ending.StillOpen? ==>
      && (round.leavesAfter.Some? ==> |sent'| <= |sent| + round.leavesAfter.value)
      && (cursor >= |round.atFetch| || |sent'| > |sent|)
      && (ending.Complete? <==> round.terminal && |round.atCheck| <= cursor')
  {
    sent', cursor' := sent, cursor;
    DeliveredLater(sent, round.atFetch, round.atCheck, start, cursor);
    assert IsLog(round.atFetch);
    var events := EventsAfter(round.atFetch, cursor);
    var page := BoundedEventBatch(events, maxBytes);
    if page.Err? { return StreamError, sent', cursor'; }
    var all;
    all, sent', cursor' := WritePage(page.value, round.leavesAfter, sent, cursor, round.atFetch, start);
    DeliveredLater(sent', round.atFetch, round.atCheck, start, cursor');
    if !all { return ClientLeft, sent', cursor'; }
    ending := if round.terminal && cursor' >= |round.atCheck| then Complete else StillOpen;
  }

  /** A round after which another one follows: a page was made and written, and the run is not over or not all was sent. */
  ghost predicate GoesOn(round: Round, from: nat, to: nat, maxBytes: int) {
    && from <= to && !PageFailsAt(round.atFetch, from, maxBytes)
    && (from < |round.atFetch| ==> from < to) && (round.leavesAfter.Some? ==> to - from <= round.leavesAfter.value)
    && !(round.terminal && |round.atCheck| <= to)
  }

  /** Where round `k` begins, when the earlier ones have left the cursor there. */
  function CursorAt(start: nat, passed: seq<nat>, k: nat): nat
    requires k <= |passed|
  {
    if k == 0 then start else passed[k - 1]
  }

  ghost predicate AllGoOn(rounds: seq<Round>, start: nat, passed: seq<nat>, maxBytes: int) {
    && |passed| <= |rounds|
    && forall k: nat {:trigger CursorAt(start, passed, k)} | k < |passed| ::
         GoesOn(rounds[k], CursorAt(start, passed, k), passed[k], maxBytes)
  }

  lemma OneMoreGoesOn(rounds: seq<Round>, start: nat, passed: seq<nat>, to: nat, maxBytes: int)
    requires AllGoOn(rounds, start, passed, maxBytes) && |passed| < |rounds|
    requires GoesOn(rounds[|passed|], CursorAt(start, passed, |passed|), to, maxBytes)
    ensures AllGoOn(rounds, start, passed + [to], maxBytes)
  {
    forall k: nat | k < |passed + [to]|
      ensures GoesOn(rounds[k], CursorAt(start, passed + [to], k), (passed + [to])[k], maxBytes)
    {
      assert CursorAt(start, passed + [to], k) == CursorAt(start, passed, k);
    }
  }

  /** A round that ends the stream, and why. */
  ghost predicate Ends(round: Round, from: nat, to: nat, ending: Ending, maxBytes: int) {
    match ending
    case Complete => !PageFailsAt(round.atFetch, from, maxBytes) && round.terminal && |round.atCheck| <= to
    case ClientLeft => !PageFailsAt(round.atFetch, from, maxBytes) && round.leavesAfter == Some(to - from)
    case StreamError => PageFailsAt(round.atFetch, from, maxBytes) && to == from
    case StillOpen => false
  }

  /**
   The server-sent event loop. `log` is the latest log it looked at, `passed` the cursor after each round that
   went on. What was sent is always the part of that log right after the start, each event once and in order;
   a stream ends in the round in which all has been sent and the run was terminal, the client leaves, or no page
   can be made, and in no round before.
   */
  method StreamEvents(start: nat, rounds: seq<Round>, maxBytes: int)
    returns (sent: seq<RunEvent>, cursor: nat, ending: Ending, ghost log: seq<RunEvent>, ghost passed: seq<nat>)
    requires Unfolds([], rounds)
    ensures IsLog(log) && Delivered(sent, log, start, cursor)
    ensures AllGoOn(rounds, start, passed, maxBytes) && (ending.StillOpen? <==> |passed| == |rounds|)
    ensures !ending.StillOpen? ==> Ends(rounds[|passed|], CursorAt(start, passed, |passed|), cursor, ending, maxBytes)
    ensures ending.Complete? ==>
      (exists r :: r in rounds && r.terminal && r.atCheck == log) && |log| <= cursor && (start <= |log| ==> sent == log[start..])
    ensures ending.StillOpen? && rounds != [] && start + |rounds| <= |rounds[0].atFetch| ==> |sent| >= |rounds|
    ensures ending.ClientLeft? ==> exists r :: r in rounds && r.leavesAfter.Some?
    ensures ending.StreamError? ==> exists r :: r in rounds && PageFails(r.atFetch, maxBytes)
  {
    sent, cursor, log, ending, passed := [], start, [], StillOpen, [];
    for i := 0 to |rounds|
      invariant IsLog(log) && Delivered(sent, log, start, cursor) && Unfolds(log, rounds[i..])
      invariant i > 0 ==> rounds[0].atFetch <= log
      invariant ending.StillOpen? && |passed| == i && cursor == CursorAt(start, passed, i)
      invariant AllGoOn(rounds, start, passed, maxBytes)
      invariant |rounds| > 0 && start + |rounds| <= |rounds[0].atFetch| ==> |sent| >= i
    {
      var round := rounds[i];
      assert rounds[i..][0] == round && rounds[i..][1..] == rounds[i + 1..] && round in rounds;
      DeliveredLater(sent, log, round.atFetch, start, cursor);
      ending, sent, cursor := FollowRound(round, sent, cursor, maxBytes, start);
      log := round.atCheck;
      if !ending.StillOpen? { return; }
      OneMoreGoesOn(rounds, start, passed, cursor, maxBytes);
      passed := passed + [cursor];
    }
  }
}
