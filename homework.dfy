/**
 * The bot's decision logic: the status table, the API-response validator, the
 * message composer, the token check and the request made to the API, as pure
 * functions. Each Python exception becomes a `Fail(Error(kind, text))` whose
 * `text` is what `str(error)` gives.
 */
module Homework {
  import opened Wrappers
  import opened Json

  /** The exception classes that can reach the main loop's handler. */
  datatype ErrorKind =
    | TypeError
    | IndexError
    | KeyError
    | NegativeValueException
    | JSONDecodeError

  /** A raised exception: its class and `str(error)`. */
  datatype Error = Error(kind: ErrorKind, text: string)

  /** `HTTPStatus.OK`. */
  const HTTP_OK := 200

  const APPROVED_VERDICT := "Работа проверена: ревьюеру всё понравилось. Ура!"
  const REVIEWING_VERDICT := "Работа взята на проверку ревьюером."
  const REJECTED_VERDICT := "Работа проверена: у ревьюера есть замечания."

  /** The fixed status-to-verdict table, `HOMEWORK_STATUSES`. */
  const HomeworkStatuses: map<string, string> := map[
    "approved" := APPROVED_VERDICT,
    "reviewing" := REVIEWING_VERDICT,
    "rejected" := REJECTED_VERDICT
  ]

  const MESSAGE_PREFIX := "Изменился статус проверки работы "
  const API_FAILURE := "API ведет себя незапланированно"
  const NOT_A_DICT := "Ответ API не словарь"
  const NO_HOMEWORKS := "В ответе API нет домашней работы"
  const EMPTY_LIST := "список пуст"
  const NOT_A_LIST := "домашки приходят не в виде списка"
  // The first letter of this message is a Latin 'C', as it is in the bot.
  const UNKNOWN_STATUS := "Cтатус отсутствующий в списке!"
  const AUTH_FAILED := "Аутентификация не удалась"

  /**
   * `str(KeyError(key))`: the key's `repr`, which for a key of plain
   * characters is the key between single quotes.
   */
  function KeyErrorFor(key: string): (e: Error)
    ensures e.kind == KeyError && e.text == Repr(JStr(key))
    ensures (forall k :: 0 <= k < |key| ==> PlainChar(key[k])) ==> e.text == "'" + key + "'"
  {
    if forall k :: 0 <= k < |key| ==> PlainChar(key[k]) then
      QuotePlain(key);
      Error(KeyError, Quote(key))
    else
      Error(KeyError, Quote(key))
  }

  /** The `TypeError` `len(v)` raises for a value without a length. */
  function NoLen(v: Json): Error {
    Error(TypeError, "object of type '" + TypeName(v) + "' has no len()")
  }

  // ---------------------------------------------------------------------------
  // check_response
  // ---------------------------------------------------------------------------

  /** The responses the validator accepts: a dict whose 'homeworks' is a non-empty list. */
  predicate ValidResponse(response: Json) {
    response.JObj? &&
    match Lookup(response.fields, "homeworks")
    case Some(JList(items)) => items != []
    case _ => false
  }

  /** The validated list of homeworks of a valid response. */
  function Homeworks(response: Json): (r: seq<Json>)
    requires ValidResponse(response)
    ensures r != []
  {
    Lookup(response.fields, "homeworks").value.items
  }

  /**
   * `check_response`: returns `response['homeworks']` unchanged, or raises.
   * Its checks run in a fixed order, so an empty value that is not a list
   * (`""`, `{}`) is reported as empty rather than as not a list.
   */
  function CheckResponse(response: Json): (r: Result<seq<Json>, Error>)
    ensures r.Ok? <==> ValidResponse(response)
    ensures r.Ok? ==> r.value == Homeworks(response)
    ensures !response.JObj? ==> r == Fail(Error(TypeError, NOT_A_DICT))
    ensures response.JObj? && !HasKey(response.fields, "homeworks") ==>
      r == Fail(Error(IndexError, NO_HOMEWORKS))
    ensures response.JObj? && HasKey(response.fields, "homeworks") ==>
      var homeworks := Lookup(response.fields, "homeworks").value;
      && ((homeworks.JNull? || homeworks.JBool? || homeworks.JInt?) ==>
            r == Fail(NoLen(homeworks)))
      && ((homeworks.JStr? || homeworks.JObj?) && !Truthy(homeworks) ==>
            r == Fail(Error(NegativeValueException, EMPTY_LIST)))
      && (homeworks.JList? && !Truthy(homeworks) ==>
            r == Fail(Error(NegativeValueException, EMPTY_LIST)))
      && ((homeworks.JStr? || homeworks.JObj?) && Truthy(homeworks) ==>
            r == Fail(Error(NegativeValueException, NOT_A_LIST)))
  {
    if !response.JObj? then Fail(Error(TypeError, NOT_A_DICT))
    else
      match Lookup(response.fields, "homeworks")
      case None => Fail(Error(IndexError, NO_HOMEWORKS))
      case Some(homeworks) =>
        match Len(homeworks)
        case None => Fail(NoLen(homeworks))
        case Some(n) =>
          if n == 0 then Fail(Error(NegativeValueException, EMPTY_LIST))
          else if !homeworks.JList? then Fail(Error(NegativeValueException, NOT_A_LIST))
          else Ok(homeworks.items)
  }

  // ---------------------------------------------------------------------------
  // parse_status
  // ---------------------------------------------------------------------------

  /** The statuses the table knows, as decoded JSON strings. */
  predicate KnownStatus(status: Json) {
    status in {JStr("approved"), JStr("reviewing"), JStr("rejected")}
  }

  /** A homework `parse_status` accepts: a dict with a name and a known status. */
  predicate ValidHomework(homework: Json) {
    homework.JObj? &&
    HasKey(homework.fields, "homework_name") &&
    HasKey(homework.fields, "status") &&
    KnownStatus(Lookup(homework.fields, "status").value)
  }

  /** The `TypeError` raised by `v['...']` when `v` is not a dict (CPython 3.11 wording). */
  function NotSubscriptable(v: Json): (e: Error)
    ensures e.kind == TypeError
  {
    var text :=
      match v
      case JList(_) => "list indices must be integers or slices, not str"
      case JStr(_) => "string indices must be integers, not 'str'"
      case _ => "'" + TypeName(v) + "' object is not subscriptable";
    Error(TypeError, text)
  }

  /** `homework[key]`. */
  function Subscript(homework: Json, key: string): (r: Result<Json, Error>)
    ensures r.Ok? <==> homework.JObj? && HasKey(homework.fields, key)
    ensures r.Ok? ==> Field(key, r.value) in homework.fields
    ensures homework.JObj? && !HasKey(homework.fields, key) ==> r == Fail(KeyErrorFor(key))
  {
    if !homework.JObj? then Fail(NotSubscriptable(homework))
    else
      match Lookup(homework.fields, key)
      case None => Fail(KeyErrorFor(key))
      case Some(v) => Ok(v)
  }

  /**
   * `status not in HOMEWORK_STATUSES` followed by `HOMEWORK_STATUSES[status]`.
   * A list or dict status cannot be hashed, so the membership test raises.
   */
  function Verdict(status: Json): (r: Result<string, Error>)
    ensures r.Ok? <==> KnownStatus(status)
    ensures r.Ok? ==> r.value in {APPROVED_VERDICT, REVIEWING_VERDICT, REJECTED_VERDICT}
    ensures r.Ok? ==> status.JStr? && status.s in HomeworkStatuses && r.value == HomeworkStatuses[status.s]
    ensures r.Fail? && !status.JList? && !status.JObj? ==>
      r.error == Error(NegativeValueException, UNKNOWN_STATUS)
    ensures r.Fail? && (status.JList? || status.JObj?) ==> r.error.kind == TypeError
  {
    match status
    case JList(_) => Fail(Error(TypeError, "unhashable type: 'list'"))
    case JObj(_) => Fail(Error(TypeError, "unhashable type: 'dict'"))
    case JStr(s) =>
      if s in HomeworkStatuses then Ok(HomeworkStatuses[s])
      else Fail(Error(NegativeValueException, UNKNOWN_STATUS))
    case _ => Fail(Error(NegativeValueException, UNKNOWN_STATUS))
  }

  /** The notification for a homework whose name renders as `name`. */
  function StatusMessage(name: string, verdict: string): string {
    MESSAGE_PREFIX + "\"" + name + "\". " + verdict
  }

  /**
   * `parse_status`: reads 'homework_name', then 'status', and composes the
   * notification from the name and the status's verdict.
   */
  function ParseStatus(homework: Json): (r: Result<string, Error>)
    ensures r.Ok? <==> ValidHomework(homework)
    ensures r.Ok? ==>
      var name := Lookup(homework.fields, "homework_name").value;
      var status := Lookup(homework.fields, "status").value;
      r.value == StatusMessage(Str(name), HomeworkStatuses[status.s])
    ensures !homework.JObj? ==> r.Fail? && r.error.kind == TypeError
    ensures homework.JObj? && !HasKey(homework.fields, "homework_name") ==>
      r == Fail(KeyErrorFor("homework_name"))
    ensures homework.JObj? && HasKey(homework.fields, "homework_name") &&
            !HasKey(homework.fields, "status") ==>
      r == Fail(KeyErrorFor("status"))
    ensures homework.JObj? && HasKey(homework.fields, "homework_name") &&
            HasKey(homework.fields, "status") &&
            (var status := Lookup(homework.fields, "status").value;
             !KnownStatus(status) && !status.JList? && !status.JObj?) ==>
      r == Fail(Error(NegativeValueException, UNKNOWN_STATUS))
  {
    match Subscript(homework, "homework_name")
    case Fail(e) => Fail(e)
    case Ok(name) =>
      match Subscript(homework, "status")
      case Fail(e) => Fail(e)
      case Ok(status) =>
        match Verdict(status)
        case Fail(e) => Fail(e)
        case Ok(verdict) => Ok(StatusMessage(Str(name), verdict))
  }

  /** Two homeworks that agree on 'homework_name' and 'status' get the same outcome. */
  lemma ParseStatusReadsOnlyNameAndStatus(h1: Json, h2: Json)
    requires h1.JObj? && h2.JObj?
    requires Lookup(h1.fields, "homework_name") == Lookup(h2.fields, "homework_name")
    requires Lookup(h1.fields, "status") == Lookup(h2.fields, "status")
    ensures ParseStatus(h1) == ParseStatus(h2)
  {
  }

  /** The three verdicts are distinct. */
  lemma VerdictsDistinct()
    ensures |{APPROVED_VERDICT, REVIEWING_VERDICT, REJECTED_VERDICT}| == 3
  {
    assert APPROVED_VERDICT[10] != REVIEWING_VERDICT[10];
    assert APPROVED_VERDICT[23] != REJECTED_VERDICT[23];
    assert REVIEWING_VERDICT[10] != REJECTED_VERDICT[10];
  }

  /** For one name, different statuses give different notifications. */
  lemma ParseStatusSeparatesStatuses(h1: Json, h2: Json)
    requires ValidHomework(h1) && ValidHomework(h2)
    requires Lookup(h1.fields, "homework_name") == Lookup(h2.fields, "homework_name")
    requires Lookup(h1.fields, "status") != Lookup(h2.fields, "status")
    ensures ParseStatus(h1) != ParseStatus(h2)
  {
    var name := Str(Lookup(h1.fields, "homework_name").value);
    var v1 := HomeworkStatuses[Lookup(h1.fields, "status").value.s];
    var v2 := HomeworkStatuses[Lookup(h2.fields, "status").value.s];
    VerdictsDistinct();
    assert v1 != v2;
    var head := MESSAGE_PREFIX + "\"" + name + "\". ";
    assert StatusMessage(name, v1)[|head|..] == v1;
    assert StatusMessage(name, v2)[|head|..] == v2;
  }

  /** A homework whose name is a JSON string gets that string verbatim in its notification. */
  lemma ParseStatusOfNamedHomework(homework: Json, name: string, status: string)
    requires homework.JObj?
    requires Lookup(homework.fields, "homework_name") == Some(JStr(name))
    requires Lookup(homework.fields, "status") == Some(JStr(status))
    ensures status in HomeworkStatuses ==>
      ParseStatus(homework) == Ok(MESSAGE_PREFIX + "\"" + name + "\". " + HomeworkStatuses[status])
    ensures status !in HomeworkStatuses ==>
      ParseStatus(homework) == Fail(Error(NegativeValueException, UNKNOWN_STATUS))
  {
  }

  // ---------------------------------------------------------------------------
  // check_tokens and the start of main
  // ---------------------------------------------------------------------------

  /** An environment variable as `os.getenv` gives it passes `all` when set and non-empty. */
  predicate IsSet(token: Option<string>) {
    token.Some? && token.value != ""
  }

  /** Python's `all(tokens)` over environment values. */
  function All(tokens: seq<Option<string>>): (r: bool)
    ensures r <==> forall k :: 0 <= k < |tokens| ==> IsSet(tokens[k])
  {
    if tokens == [] then true
    else IsSet(tokens[0]) && All(tokens[1..])
  }

  /**
   * `check_tokens`: `all` over the Practicum token, the Telegram token and the
   * Practicum token again. The chat id is not among them.
   */
  function CheckTokens(practicumToken: Option<string>, telegramToken: Option<string>,
                       telegramChatId: Option<string>): (r: bool)
    ensures r <==> IsSet(practicumToken) && IsSet(telegramToken)
  {
    var tokens := [practicumToken, telegramToken, practicumToken];
    assert tokens[0] == practicumToken && tokens[1] == telegramToken;
    All(tokens)
  }

  /**
   * The start of `main`: the loop starts with the cursor `int(time.time())`
   * when the tokens pass, and the process exits with `SystemExit` otherwise.
   */
  function Startup(practicumToken: Option<string>, telegramToken: Option<string>,
                   telegramChatId: Option<string>, now: int): (r: Result<Json, string>)
    ensures r.Ok? <==> IsSet(practicumToken) && IsSet(telegramToken)
    ensures r.Ok? ==> r.value == JInt(now)
    ensures r.Fail? ==> r.error == AUTH_FAILED
  {
    if CheckTokens(practicumToken, telegramToken, telegramChatId) then Ok(JInt(now))
    else Fail(AUTH_FAILED)
  }

  // ---------------------------------------------------------------------------
  // get_api_answer
  // ---------------------------------------------------------------------------

  /** The body of an HTTP reply: what `response.json()` decodes, or why it fails. */
  datatype Body = Decoded(json: Json) | Undecodable(reason: string)

  /** What `requests.get` gives: a transport failure, or a status code and a body. */
  datatype Fetch = TransportFailure | Reply(statusCode: int, body: Body)

  /** `current_timestamp or int(time.time())`: the `from_date` of the request. */
  function FromDate(cursor: Json, now: int): (r: Json)
    ensures Truthy(cursor) ==> r == cursor
    ensures !Truthy(cursor) ==> r == JInt(now)
    ensures now != 0 ==> Truthy(r)
  {
    if Truthy(cursor) then cursor else JInt(now)
  }

  /**
   * `get_api_answer` after the request: a transport failure and any status
   * other than 200 both raise `NegativeValueException`; then the body is
   * decoded.
   */
  function GetApiAnswer(fetch: Fetch): (r: Result<Json, Error>)
    ensures r.Ok? <==> fetch.Reply? && fetch.statusCode == HTTP_OK && fetch.body.Decoded?
    ensures r.Ok? ==> r.value == fetch.body.json
    ensures fetch.TransportFailure? || fetch.statusCode != HTTP_OK ==>
      r == Fail(Error(NegativeValueException, API_FAILURE))
    ensures fetch.Reply? && fetch.statusCode == HTTP_OK && fetch.body.Undecodable? ==>
      r == Fail(Error(JSONDecodeError, fetch.body.reason))
  {
    match fetch
    case TransportFailure => Fail(Error(NegativeValueException, API_FAILURE))
    case Reply(code, body) =>
      if code != HTTP_OK then Fail(Error(NegativeValueException, API_FAILURE))
      else
        match body
        case Undecodable(reason) => Fail(Error(JSONDecodeError, reason))
        case Decoded(json) => Ok(json)
  }
}
