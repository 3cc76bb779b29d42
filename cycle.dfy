/**
 * One iteration of the bot's `while True` loop as a function of the cursor it
 * starts from and of what the outside world does during it: the clock, the
 * API's answer, and whether each `send_message` gets through.
 */
module Cycle {
  import opened Wrappers
  import opened Json
  import opened Homework

  const FAILURE_PREFIX := "Сбой в работе программы: "

  /** One `send_message` call: its text, and whether the chat library delivered it. */
  datatype Delivery = Delivery(text: string, delivered: bool)

  /** The inputs of one iteration. */
  datatype Tick = Tick(now: int, fetch: Fetch, statusDelivered: bool, failureDelivered: bool)

  /** What one iteration does: the `from_date` it asks for, what it sends, the cursor it leaves. */
  datatype Effect = Effect(query: Json, sent: seq<Delivery>, next: Json)

  /** The homework the loop looks at: element `[0]` of a validated list, if validation passed. */
  function FirstHomework(fetch: Fetch): (r: Option<Json>)
    ensures r.Some? <==> GetApiAnswer(fetch).Ok? && CheckResponse(GetApiAnswer(fetch).value).Ok?
    ensures r.Some? ==> r.value == CheckResponse(GetApiAnswer(fetch).value).value[0]
  {
    if fetch.Reply? && fetch.statusCode == HTTP_OK && fetch.body.Decoded? &&
       ValidResponse(fetch.body.json)
    then Some(Homeworks(fetch.body.json)[0])
    else None
  }

  /** An iteration that gets all the way to the cursor update. */
  predicate Succeeds(fetch: Fetch) {
    match FirstHomework(fetch)
    case None => false
    case Some(homework) =>
      (homework == JNull || ValidHomework(homework)) &&
      HasKey(fetch.body.json.fields, "current_date")
  }

  /** The server's `current_date` of a successful iteration. */
  function CurrentDate(fetch: Fetch): Json
    requires Succeeds(fetch)
  {
    Lookup(fetch.body.json.fields, "current_date").value
  }

  /** The status notification an iteration sends: one for element `[0]`, unless it is `null` or invalid. */
  function Notification(fetch: Fetch): Option<string> {
    match FirstHomework(fetch)
    case Some(homework) =>
      // A valid homework is a dict, so it is never the `None` of homework.py:140.
      if ValidHomework(homework) then Some(ParseStatus(homework).value)
      else None
    case None => None
  }

  /** The message the exception handler sends for an error. */
  function FailureReport(error: Error): (r: string)
    ensures FAILURE_PREFIX <= r
    ensures r[|FAILURE_PREFIX|..] == error.text
  {
    FAILURE_PREFIX + error.text
  }

  /** A message sent by the exception handler. */
  predicate IsFailureReport(d: Delivery) {
    FAILURE_PREFIX <= d.text
  }

  /**
   * The `try` block: the messages it sends before it ends, and either the
   * value assigned to the cursor or the exception that ends it.
   */
  function TryBlock(fetch: Fetch, statusDelivered: bool): (seq<Delivery>, Result<Json, Error>) {
    match GetApiAnswer(fetch)
    case Fail(e) => ([], Fail(e))
    case Ok(response) =>
      match CheckResponse(response)
      case Fail(e) => ([], Fail(e))
      case Ok(homeworks) =>
        var homework := homeworks[0];
        if homework != JNull && ParseStatus(homework).Fail? then
          ([], Fail(ParseStatus(homework).error))
        else
          var sent := if homework == JNull then [] else [Delivery(ParseStatus(homework).value, statusDelivered)];
          match Lookup(response.fields, "current_date")
          case None => (sent, Fail(KeyErrorFor("current_date")))
          case Some(date) => (sent, Ok(date))
  }

  /**
   * One loop iteration: request from `FromDate`, run the `try` block, and on an
   * exception report it and keep the cursor.
   */
  function Step(cursor: Json, tick: Tick): Effect
  {
    var query := FromDate(cursor, tick.now);
    var (sent, outcome) := TryBlock(tick.fetch, tick.statusDelivered);
    match outcome
    case Ok(date) => Effect(query, sent, date)
    case Fail(error) =>
      Effect(query, sent + [Delivery(FailureReport(error), tick.failureDelivered)], cursor)
  }

  /** The messages sent before the `try` block ends. */
  function Notes(fetch: Fetch, statusDelivered: bool): seq<Delivery> {
    if Notification(fetch).Some? then [Delivery(Notification(fetch).value, statusDelivered)] else []
  }

  /**
   * The `try` block reaches the cursor update exactly when the iteration
   * succeeds, and before it ends it has sent the notification for element `[0]`
   * if there is one.
   */
  lemma TryBlockSpec(fetch: Fetch, statusDelivered: bool)
    ensures TryBlock(fetch, statusDelivered).1.Ok? <==> Succeeds(fetch)
    ensures Succeeds(fetch) ==> TryBlock(fetch, statusDelivered).1.value == CurrentDate(fetch)
    ensures TryBlock(fetch, statusDelivered).0 == Notes(fetch, statusDelivered)
  {
    match GetApiAnswer(fetch)
    case Fail(_) =>
    case Ok(response) =>
      match CheckResponse(response)
      case Fail(_) =>
      case Ok(homeworks) =>
        assert FirstHomework(fetch) == Some(homeworks[0]);
  }

  /** The delivery of the notification has no effect on what the `try` block does otherwise. */
  lemma TryBlockIgnoresDelivery(fetch: Fetch, a: bool, b: bool)
    ensures TryBlock(fetch, a).1 == TryBlock(fetch, b).1
    ensures |TryBlock(fetch, a).0| == |TryBlock(fetch, b).0|
    ensures forall k :: 0 <= k < |TryBlock(fetch, a).0| ==> TryBlock(fetch, a).0[k].text == TryBlock(fetch, b).0[k].text
  {
    match GetApiAnswer(fetch)
    case Fail(_) =>
    case Ok(response) =>
      match CheckResponse(response)
      case Fail(_) =>
      case Ok(homeworks) =>
  }

  /**
   * What one iteration requests, where it leaves the cursor, and what it
   * sends: the notification for element `[0]` if there is one, then a failure
   * report exactly when the iteration fails.
   */
  lemma StepSpec(cursor: Json, tick: Tick)
    ensures Step(cursor, tick).query == FromDate(cursor, tick.now)
    ensures Step(cursor, tick).next == if Succeeds(tick.fetch) then CurrentDate(tick.fetch) else cursor
    ensures var notes := Notes(tick.fetch, tick.statusDelivered);
      && |Step(cursor, tick).sent| == |notes| + (if Succeeds(tick.fetch) then 0 else 1)
      && Step(cursor, tick).sent[..|notes|] == notes
      && (!Succeeds(tick.fetch) ==>
            IsFailureReport(Step(cursor, tick).sent[|notes|]) && Step(cursor, tick).sent[|notes|].delivered == tick.failureDelivered)
  {
    TryBlockSpec(tick.fetch, tick.statusDelivered);
  }

  /** An iteration sends at most two messages, and at most one of them is a status notification. */
  lemma StepSendsAtMostTwo(cursor: Json, tick: Tick)
    ensures |Step(cursor, tick).sent| <= 2
    ensures forall k :: 0 <= k < |Step(cursor, tick).sent| && !IsFailureReport(Step(cursor, tick).sent[k]) ==>
      k == 0 && Notification(tick.fetch) == Some(Step(cursor, tick).sent[k].text)
  {
    StepSpec(cursor, tick);
    if Notification(tick.fetch).Some? {
      var n := Notification(tick.fetch).value;
      var h := FirstHomework(tick.fetch).value;
      assert n[0] == MESSAGE_PREFIX[0];
      assert !(FAILURE_PREFIX <= n) by { assert FAILURE_PREFIX[0] != n[0]; }
    }
  }

  /** A status notification never reads as a failure report. */
  lemma NotificationIsNotReport(fetch: Fetch, delivered: bool)
    ensures Notification(fetch).Some? ==> !IsFailureReport(Delivery(Notification(fetch).value, delivered))
  {
    if Notification(fetch).Some? {
      var n := Notification(fetch).value;
      assert n[0] == MESSAGE_PREFIX[0];
      assert FAILURE_PREFIX[0] != n[0];
    }
  }

  /** Whether the chat library delivers a message has no effect on what is asked, sent or kept. */
  lemma StepIgnoresDelivery(cursor: Json, tick: Tick, statusDelivered: bool, failureDelivered: bool)
    ensures var other := Tick(tick.now, tick.fetch, statusDelivered, failureDelivered);
      && Step(cursor, other).query == Step(cursor, tick).query
      && Step(cursor, other).next == Step(cursor, tick).next
      && |Step(cursor, other).sent| == |Step(cursor, tick).sent|
      && forall k :: 0 <= k < |Step(cursor, tick).sent| ==>
           Step(cursor, other).sent[k].text == Step(cursor, tick).sent[k].text
  {
    TryBlockIgnoresDelivery(tick.fetch, tick.statusDelivered, statusDelivered);
  }

  /** A transport failure or a status other than 200 is reported as the API misbehaving. */
  lemma StepReportsApiFailure(cursor: Json, tick: Tick)
    requires tick.fetch.TransportFailure? || tick.fetch.statusCode != HTTP_OK
    ensures Step(cursor, tick).sent == [Delivery(FailureReport(Error(NegativeValueException, API_FAILURE)), tick.failureDelivered)]
    ensures Step(cursor, tick).next == cursor
  {
  }

  /** A 200 reply whose body does not decode is reported with the decoder's message. */
  lemma StepReportsUndecodable(cursor: Json, tick: Tick, reason: string)
    requires tick.fetch == Reply(HTTP_OK, Undecodable(reason))
    ensures Step(cursor, tick).sent == [Delivery(FailureReport(Error(JSONDecodeError, reason)), tick.failureDelivered)]
    ensures Step(cursor, tick).next == cursor
  {
  }

  /** A response the validator rejects is reported with the validator's message, and nothing else is sent. */
  lemma StepReportsInvalidResponse(cursor: Json, tick: Tick)
    requires GetApiAnswer(tick.fetch).Ok?
    requires CheckResponse(GetApiAnswer(tick.fetch).value).Fail?
    ensures Step(cursor, tick).sent ==
      [Delivery(FailureReport(CheckResponse(GetApiAnswer(tick.fetch).value).error), tick.failureDelivered)]
  {
  }

  /** A first homework `parse_status` rejects is reported with its error, and no notification is sent. */
  lemma StepReportsInvalidHomework(cursor: Json, tick: Tick)
    requires FirstHomework(tick.fetch).Some?
    requires FirstHomework(tick.fetch).value != JNull
    requires !ValidHomework(FirstHomework(tick.fetch).value)
    ensures Step(cursor, tick).sent ==
      [Delivery(FailureReport(ParseStatus(FirstHomework(tick.fetch).value).error), tick.failureDelivered)]
  {
  }

  /**
   * A response without 'current_date' fails only after the notification has
   * been sent, and is reported as the `KeyError` for that key.
   */
  lemma StepReportsMissingDate(cursor: Json, tick: Tick)
    requires FirstHomework(tick.fetch).Some?
    requires FirstHomework(tick.fetch).value == JNull || ValidHomework(FirstHomework(tick.fetch).value)
    requires !Succeeds(tick.fetch)
    ensures Step(cursor, tick).sent ==
      Notes(tick.fetch, tick.statusDelivered) + [Delivery(FailureReport(KeyErrorFor("current_date")), tick.failureDelivered)]
  {
    TryBlockSpec(tick.fetch, tick.statusDelivered);
    var response := GetApiAnswer(tick.fetch).value;
    assert Lookup(response.fields, "current_date").None?;
  }

  /** `str(KeyError('current_date'))` is the key in single quotes. */
  lemma MissingDateText()
    ensures FailureReport(KeyErrorFor("current_date")) == FAILURE_PREFIX + "'current_date'"
  {
    QuotePlain("current_date");
  }

  /** A homework record with a string name and a string status. */
  function Record(name: string, status: string): Json {
    JObj([Field("homework_name", JStr(name)), Field("status", JStr(status))])
  }

  lemma ParseRecord(name: string, status: string)
    ensures ParseStatus(Record(name, status)) ==
      if status in HomeworkStatuses then Ok(StatusMessage(name, HomeworkStatuses[status]))
      else Fail(Error(NegativeValueException, UNKNOWN_STATUS))
  {
    var r := Record(name, status);
    assert Lookup(r.fields[1..], "status") == Some(JStr(status));
    ParseStatusOfNamedHomework(r, name, status);
  }

  /** A response listing `homeworks` and carrying `current_date` 1000. */
  function Response(homeworks: seq<Json>): Json {
    JObj([Field("homeworks", JList(homeworks)), Field("current_date", JInt(1000))])
  }

  lemma ResponseFields(homeworks: seq<Json>)
    ensures Lookup(Response(homeworks).fields, "homeworks") == Some(JList(homeworks))
    ensures Lookup(Response(homeworks).fields, "current_date") == Some(JInt(1000))
  {
    assert Lookup(Response(homeworks).fields[1..], "current_date") == Some(JInt(1000));
  }

  /**
   * `{"homeworks": [{"homework_name": "HW1", "status": "approved"}], "current_date": 1000}`
   * gives one notification, and the cursor moves to 1000.
   */
  lemma ApprovedScenario(cursor: Json, tick: Tick)
    requires tick.fetch == Reply(200, Decoded(Response([Record("HW1", "approved")])))
    ensures Step(cursor, tick) ==
      Effect(FromDate(cursor, tick.now), [Delivery(StatusMessage("HW1", APPROVED_VERDICT), tick.statusDelivered)], JInt(1000))
  {
    ResponseFields([Record("HW1", "approved")]);
    ParseRecord("HW1", "approved");
  }

  /**
   * `{"homeworks": []}` is rejected by the validator as empty: the handler
   * reports it and the cursor stays.
   */
  lemma EmptyListScenario(cursor: Json, tick: Tick)
    requires tick.fetch == Reply(200, Decoded(JObj([Field("homeworks", JList([]))])))
    ensures Step(cursor, tick) ==
      Effect(FromDate(cursor, tick.now),
             [Delivery(FailureReport(Error(NegativeValueException, EMPTY_LIST)), tick.failureDelivered)], cursor)
  {
  }

  /** Only element `[0]` is looked at: a later homework with an unknown status is never read. */
  lemma LaterHomeworksIgnoredScenario(cursor: Json, tick: Tick)
    requires tick.fetch == Reply(200, Decoded(Response([Record("HW1", "approved"), Record("HW2", "bogus")])))
    ensures Step(cursor, tick) ==
      Effect(FromDate(cursor, tick.now), [Delivery(StatusMessage("HW1", APPROVED_VERDICT), tick.statusDelivered)], JInt(1000))
  {
    ResponseFields([Record("HW1", "approved"), Record("HW2", "bogus")]);
    ParseRecord("HW1", "approved");
  }

  /** A first homework with an unknown status fails the whole iteration, even when a later one is valid. */
  lemma FirstInvalidScenario(cursor: Json, tick: Tick)
    requires tick.fetch == Reply(200, Decoded(Response([Record("HW2", "bogus"), Record("HW1", "approved")])))
    ensures Step(cursor, tick) ==
      Effect(FromDate(cursor, tick.now),
             [Delivery(FailureReport(Error(NegativeValueException, UNKNOWN_STATUS)), tick.failureDelivered)], cursor)
  {
    ResponseFields([Record("HW2", "bogus"), Record("HW1", "approved")]);
    ParseRecord("HW2", "bogus");
  }
}
