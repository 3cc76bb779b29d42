/**
 * The bot's `main`: a check of the tokens, then a `while True` loop that
 * threads one cursor through the iterations of `Cycle.Step` and sends the
 * messages they produce. `Poller` holds what the loop changes: the cursor,
 * the `from_date` of every request made so far and every message sent.
 */
module Bot {
  import opened Wrappers
  import opened Json
  import opened Homework
  import opened Cycle

  /** What a run of iterations does, in total. */
  datatype Trace = Trace(queries: seq<Json>, sent: seq<Delivery>, cursor: Json)

  /** Iterations one after the other, each starting from the cursor the previous one left. */
  function Replay(cursor: Json, ticks: seq<Tick>): Trace
    decreases |ticks|
  {
    if ticks == [] then Trace([], [], cursor)
    else
      var before := Replay(cursor, ticks[..|ticks| - 1]);
      var e := Step(before.cursor, ticks[|ticks| - 1]);
      Trace(before.queries + [e.query], before.sent + e.sent, e.next)
  }

  /** Running one more iteration extends the trace by that iteration's effect. */
  lemma ReplaySnoc(cursor: Json, ticks: seq<Tick>, tick: Tick)
    ensures var before := Replay(cursor, ticks);
            var e := Step(before.cursor, tick);
            Replay(cursor, ticks + [tick]) == Trace(before.queries + [e.query], before.sent + e.sent, e.next)
  {
    assert (ticks + [tick])[..|ticks|] == ticks;
  }

  /** The same, for a prefix of a run. */
  lemma ReplayPrefix(cursor: Json, ticks: seq<Tick>, i: nat)
    requires i < |ticks|
    ensures var before := Replay(cursor, ticks[..i]);
            var e := Step(before.cursor, ticks[i]);
            Replay(cursor, ticks[..i + 1]) == Trace(before.queries + [e.query], before.sent + e.sent, e.next)
  {
    assert ticks[..i + 1] == ticks[..i] + [ticks[i]];
    ReplaySnoc(cursor, ticks[..i], ticks[i]);
  }

  lemma AppendAssoc<T>(a: seq<T>, b: seq<T>, c: seq<T>)
    ensures (a + b) + c == a + (b + c)
  {
  }

  /** The number of iterations that end in the exception handler. */
  function Failures(ticks: seq<Tick>): nat {
    if ticks == [] then 0
    else Failures(ticks[..|ticks| - 1]) + (if Succeeds(ticks[|ticks| - 1].fetch) then 0 else 1)
  }

  /** The number of failure reports among the sent messages. */
  function Reports(sent: seq<Delivery>): nat {
    if sent == [] then 0
    else Reports(sent[..|sent| - 1]) + (if IsFailureReport(sent[|sent| - 1]) then 1 else 0)
  }

  lemma {:induction false} ReportsAppend(a: seq<Delivery>, b: seq<Delivery>)
    ensures Reports(a + b) == Reports(a) + Reports(b)
    decreases |b|
  {
    if b != [] {
      var last := b[|b| - 1];
      assert (a + b)[..|a + b| - 1] == a + b[..|b| - 1];
      assert (a + b)[|a + b| - 1] == last;
      assert Reports(a + b) == Reports(a + b[..|b| - 1]) + (if IsFailureReport(last) then 1 else 0);
      ReportsAppend(a, b[..|b| - 1]);
    } else {
      assert a + b == a;
    }
  }

  /** An iteration sends exactly one failure report if it fails and none if it succeeds. */
  lemma StepReportsOnce(cursor: Json, tick: Tick)
    ensures Reports(Step(cursor, tick).sent) == if Succeeds(tick.fetch) then 0 else 1
  {
    var sent := Step(cursor, tick).sent;
    StepSpec(cursor, tick);
    NotificationIsNotReport(tick.fetch, tick.statusDelivered);
    if |sent| == 1 {
      assert sent[..0] == [];
    } else if |sent| == 2 {
      var n := Notification(tick.fetch).value;
      assert sent[..1] == [Delivery(n, tick.statusDelivered)];
      assert !IsFailureReport(sent[0]) && IsFailureReport(sent[1]);
      assert sent[..1][..0] == [];
      assert Reports(sent[..1]) == 0;
    }
  }

  /**
   * Over a run, one request per iteration, at most two messages per iteration,
   * and exactly one failure report per failed iteration.
   */
  lemma {:induction false} ReplayCounts(cursor: Json, ticks: seq<Tick>)
    ensures |Replay(cursor, ticks).queries| == |ticks|
    ensures |Replay(cursor, ticks).sent| <= 2 * |ticks|
    ensures Reports(Replay(cursor, ticks).sent) == Failures(ticks)
    decreases |ticks|
  {
    if ticks != [] {
      var init := ticks[..|ticks| - 1];
      var before := Replay(cursor, init);
      assert ticks == init + [ticks[|ticks| - 1]];
      ReplaySnoc(cursor, init, ticks[|ticks| - 1]);
      ReplayCounts(cursor, init);
      StepSendsAtMostTwo(before.cursor, ticks[|ticks| - 1]);
      StepReportsOnce(before.cursor, ticks[|ticks| - 1]);
      ReportsAppend(before.sent, Step(before.cursor, ticks[|ticks| - 1]).sent);
    }
  }

  /** A run in which no iteration succeeds leaves the cursor where it was. */
  lemma {:induction false} ReplayKeepsCursor(cursor: Json, ticks: seq<Tick>)
    requires forall k :: 0 <= k < |ticks| ==> !Succeeds(ticks[k].fetch)
    ensures Replay(cursor, ticks).cursor == cursor
    decreases |ticks|
  {
    if ticks != [] {
      var n := |ticks| - 1;
      assert ticks == ticks[..n] + [ticks[n]];
      ReplaySnoc(cursor, ticks[..n], ticks[n]);
      StepSpec(Replay(cursor, ticks[..n]).cursor, ticks[n]);
      ReplayKeepsCursor(cursor, ticks[..n]);
    }
  }

  /**
   * The cursor only ever takes a value from a successful iteration: after a
   * run it is the `current_date` of the last iteration that succeeded.
   */
  lemma {:induction false} ReplayCursorIsLastSuccess(cursor: Json, ticks: seq<Tick>, k: nat)
    requires k < |ticks| && Succeeds(ticks[k].fetch)
    requires forall j :: k < j < |ticks| ==> !Succeeds(ticks[j].fetch)
    ensures Replay(cursor, ticks).cursor == CurrentDate(ticks[k].fetch)
    decreases |ticks|
  {
    var n := |ticks| - 1;
    assert ticks == ticks[..n] + [ticks[n]];
    ReplaySnoc(cursor, ticks[..n], ticks[n]);
    StepSpec(Replay(cursor, ticks[..n]).cursor, ticks[n]);
    if k < n {
      ReplayCursorIsLastSuccess(cursor, ticks[..n], k);
    }
  }

  /** Every request carries the `from_date` made from the cursor the previous iterations left. */
  lemma {:induction false} ReplayQueries(cursor: Json, ticks: seq<Tick>)
    ensures |Replay(cursor, ticks).queries| == |ticks|
    ensures forall i :: 0 <= i < |ticks| ==>
      Replay(cursor, ticks).queries[i] == FromDate(Replay(cursor, ticks[..i]).cursor, ticks[i].now)
    decreases |ticks|
  {
    if ticks != [] {
      var n := |ticks| - 1;
      var init := ticks[..n];
      assert ticks == init + [ticks[n]];
      ReplaySnoc(cursor, init, ticks[n]);
      StepSpec(Replay(cursor, init).cursor, ticks[n]);
      ReplayQueries(cursor, init);
      forall i | 0 <= i < n
        ensures Replay(cursor, ticks).queries[i] == FromDate(Replay(cursor, ticks[..i]).cursor, ticks[i].now)
      {
        assert init[..i] == ticks[..i];
      }
    }
  }

  /** The state `main` keeps across loop iterations. */
  class Poller {
    /** `current_timestamp`: the cursor of the next request. */
    var cursor: Json
    /** The `from_date` of every request made, in order. */
    var queries: seq<Json>
    /** Every `send_message` call made, in order. */
    var outbox: seq<Delivery>

    /** The start of the loop: the cursor is `int(time.time())`. */
    constructor (now: int)
      ensures cursor == JInt(now) && queries == [] && outbox == []
    {
      cursor := JInt(now);
      queries := [];
      outbox := [];
    }

    /** `send_message`: the call is recorded; a delivery failure is logged and goes no further. */
    method SendMessage(text: string, delivered: bool)
      modifies this
      ensures outbox == old(outbox) + [Delivery(text, delivered)]
      ensures cursor == old(cursor) && queries == old(queries)
    {
      outbox := outbox + [Delivery(text, delivered)];
    }

    /**
     * The `try` block of the loop body: requests from the cursor, validates,
     * notifies about element `[0]` and moves the cursor; the exception that
     * ends it early, if any, is returned.
     */
    method TryBody(tick: Tick) returns (failure: Option<Error>)
      modifies this
      ensures queries == old(queries) + [FromDate(old(cursor), tick.now)]
      ensures outbox == old(outbox) + TryBlock(tick.fetch, tick.statusDelivered).0
      ensures failure.Some? <==> TryBlock(tick.fetch, tick.statusDelivered).1.Fail?
      ensures failure.Some? ==>
        failure.value == TryBlock(tick.fetch, tick.statusDelivered).1.error && cursor == old(cursor)
      ensures failure.None? ==> cursor == TryBlock(tick.fetch, tick.statusDelivered).1.value
    {
      queries := queries + [FromDate(cursor, tick.now)];
      failure := None;
      var answer := GetApiAnswer(tick.fetch);
      if answer.Fail? {
        failure := Some(answer.error);
        return;
      }
      var response := answer.value;
      var checked := CheckResponse(response);
      if checked.Fail? {
        failure := Some(checked.error);
        return;
      }
      var homework := checked.value[0];
      if homework != JNull {
        var message := ParseStatus(homework);
        if message.Fail? {
          failure := Some(message.error);
          return;
        }
        SendMessage(message.value, tick.statusDelivered);
      }
      match Lookup(response.fields, "current_date")
      case None =>
        failure := Some(KeyErrorFor("current_date"));
      case Some(date) =>
        cursor := date;
    }

    /** One pass of the loop body: the `try` block, then the handler if it raised. */
    method Iterate(tick: Tick)
      modifies this
      ensures cursor == Step(old(cursor), tick).next
      ensures queries == old(queries) + [Step(old(cursor), tick).query]
      ensures outbox == old(outbox) + Step(old(cursor), tick).sent
    {
      var failure := TryBody(tick);
      if failure.Some? {
        SendMessage(FailureReport(failure.value), tick.failureDelivered);
      }
    }

    /** The `while True` loop, run for as many iterations as there are ticks. */
    method Run(ticks: seq<Tick>)
      modifies this
      ensures cursor == Replay(old(cursor), ticks).cursor
      ensures queries == old(queries) + Replay(old(cursor), ticks).queries
      ensures outbox == old(outbox) + Replay(old(cursor), ticks).sent
    {
      ghost var start, queries0, outbox0 := cursor, queries, outbox;
      var i := 0;
      while i < |ticks|
        invariant 0 <= i <= |ticks|
        invariant cursor == Replay(start, ticks[..i]).cursor
        invariant queries == queries0 + Replay(start, ticks[..i]).queries
        invariant outbox == outbox0 + Replay(start, ticks[..i]).sent
      {
        ReplayPrefix(start, ticks, i);
        ghost var before := Replay(start, ticks[..i]);
        ghost var e := Step(before.cursor, ticks[i]);
        Iterate(ticks[i]);
        AppendAssoc(queries0, before.queries, [e.query]);
        AppendAssoc(outbox0, before.sent, e.sent);
        i := i + 1;
      }
      assert ticks[..|ticks|] == ticks;
    }
  }

  /**
   * `main`: with both tokens set, a poller whose cursor is `now`; otherwise
   * the process exits before the loop.
   */
  method Launch(practicumToken: Option<string>, telegramToken: Option<string>,
                telegramChatId: Option<string>, now: int) returns (poller: Option<Poller>)
    ensures poller.Some? <==> Startup(practicumToken, telegramToken, telegramChatId, now).Ok?
    ensures poller.Some? ==> fresh(poller.value) && poller.value.cursor == JInt(now) &&
                             poller.value.queries == [] && poller.value.outbox == []
  {
    if CheckTokens(practicumToken, telegramToken, telegramChatId) {
      var p := new Poller(now);
      poller := Some(p);
    } else {
      poller := None;
    }
  }
}
