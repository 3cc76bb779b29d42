# homework_bot: a verified model of the poll-and-notify loop

The bot polls the Practicum homework-status API and forwards status changes to
a Telegram chat. This project models the bot's decision logic in Dafny:

- the response validator `check_response`;
- the status table `HOMEWORK_STATUSES` and the message composer `parse_status`;
- the environment check `check_tokens`;
- the request cursor of `get_api_answer`;
- the start of `main` and its `while True` loop, with the `try`/`except` that
  threads the cursor `current_timestamp` from one iteration to the next.

Files:

- `wrappers.dfy` (module `Wrappers`): `Option` and `Result`.
- `json.dfy` (module `Json`): a decoded JSON value, together with the Python
  built-ins the bot applies to it. These are truthiness, `len`, `key in d`,
  `d[key]` and `str`/`repr`.
- `homework.dfy` (module `Homework`): the pure functions of `homework.py`. Each
  Python exception is a `Fail(Error(kind, text))`, where `text` is
  `str(error)`, the text the loop's handler puts into its message.
- `cycle.dfy` (module `Cycle`): one iteration of the loop as a function `Step`.
  It takes the cursor and a `Tick`, which holds the clock, the API's answer and
  whether each `send_message` gets through. It gives the `from_date`
  requested, the messages sent and the next cursor.
- `poller.dfy` (module `Bot`): the loop itself. The class `Poller` holds the
  cursor, the list of requests made and the outbox of sent messages.
  `TryBody`, `Iterate` and `Run` are imperative and proved against
  `TryBlock`, `Step` and the fold `Replay`. The lemmas about `Replay` cover
  whole runs.

Behaviour of the code that the model keeps as written:

- Only element `[0]` of `homeworks` is processed. Later elements are never
  read.
- The message template is the Russian one in the code.
- An empty `homeworks` list raises `NegativeValueException('список пуст')`. The
  handler then reports it as a failure; it is not a quiet end of the cycle.
- A transport failure is caught like any other exception. It is not fatal.
- A `homeworks` value that is not a list is rejected with
  `NegativeValueException`. It is not a `TypeError`, unless it has no length
  at all.
- `check_tokens` ignores the chat id.
- The cursor becomes whatever `current_date` holds, with no check that it
  grows.

## Model

| member | source | states |
|---|---|---|
| `Json.Lookup` | homework.py:96-97 | `d[key]` gives a value exactly when the key is present (`key in d`), and that value is stored under the key |
| `Json.FalsyValues` | homework.py:53 | a value is falsy (so `current_timestamp or now` takes `now`, and `all` fails) exactly when it is `None`, `False`, `0`, or an empty string, list or dict |
| `Json.Len` | homework.py:84 | `len` raises exactly for `None`, booleans and integers; otherwise the length is 0 exactly when the value is falsy |
| `Json.Str` | homework.py:107 | the f-string inserts a string name verbatim; lists and dicts are rendered in brackets and braces |
| `Json.Repr` | homework.py:96-97 | `repr` of a string of plain characters is that string between single quotes; a list's `repr` is in brackets and a dict's in braces |
| `Homework.KeyErrorFor` | homework.py:96-97 | a missing key raises `KeyError`, whose text is the key's `repr`; for a key of plain characters that is the key between single quotes, e.g. `'status'` |
| `Homework.NotSubscriptable` | homework.py:96 | subscripting a non-dict homework with a string raises `TypeError` |
| `Homework.CheckResponse` | homework.py:74-90 | succeeds exactly for a dict whose 'homeworks' is a non-empty list, and returns that list unchanged; otherwise the checks run in order: non-dict gives `TypeError`, a missing key gives `IndexError`, a value without a length gives `TypeError`, an empty string, dict or list gives 'список пуст', and a non-empty non-list gives 'домашки приходят не в виде списка' |
| `Homework.Subscript` | homework.py:96-97 | `homework[key]` succeeds exactly for a dict holding the key; a dict without it raises `KeyError` for that key |
| `Homework.Verdict` | homework.py:99-105 | a status is accepted exactly when it is 'approved', 'reviewing' or 'rejected', and its verdict is `HOMEWORK_STATUSES[status]`, one of the three table texts; any other hashable status raises `NegativeValueException('Cтатус отсутствующий в списке!')`, and a list or dict status raises `TypeError` |
| `Homework.ParseStatus` | homework.py:93-107 | succeeds exactly when both keys are present and the status is known, and then returns the prefix, the quoted name, `". "` and the status's verdict; a non-dict gives `TypeError`, a missing 'homework_name' is reported before a missing 'status', and with both keys present an unknown hashable status raises `NegativeValueException('Cтатус отсутствующий в списке!')` |
| `Homework.ParseStatusReadsOnlyNameAndStatus` | homework.py:96-97 | two homeworks that agree on 'homework_name' and 'status' get the same result |
| `Homework.VerdictsDistinct` | homework.py:29-33 | the three verdict texts differ |
| `Homework.ParseStatusSeparatesStatuses` | homework.py:105-107 | for one name, different valid statuses give different messages |
| `Homework.ParseStatusOfNamedHomework` | homework.py:99-107 | for a string name and a string status: the message when the status is in the table, `NegativeValueException` when it is not |
| `Homework.All` | homework.py:117 | `all(tokens)` holds exactly when every token is set and non-empty |
| `Homework.CheckTokens` | homework.py:110-121 | true exactly when the Practicum and Telegram tokens are both set and non-empty; the chat id plays no part |
| `Homework.Startup` | homework.py:124-133 | the loop starts, with cursor `now`, exactly when the tokens pass; otherwise the process exits with 'Аутентификация не удалась' |
| `Homework.FromDate` | homework.py:53-54 | the request's `from_date` is the cursor when it is truthy, and `now` otherwise; so it is truthy whenever `now` is nonzero |
| `Homework.GetApiAnswer` | homework.py:51-71 | succeeds exactly for a 200 reply with a decodable body, and returns the decoded body; a transport failure or any other status raises `NegativeValueException('API ведет себя незапланированно')`; an undecodable body raises the decoder's error |
| `Cycle.FirstHomework` | homework.py:137-138 | the loop looks at a homework exactly when the fetch and `check_response` both succeed, and that homework is element `[0]` of the list `check_response` returns |
| `Cycle.FailureReport` | homework.py:148-149 | the handler's message is 'Сбой в работе программы: ' followed by `str(error)` |
| `Cycle.TryBlockSpec` | homework.py:136-145 | the `try` block reaches the cursor update exactly when the iteration succeeds, and then assigns `current_date`; before it ends it has sent exactly the notification for element `[0]`, if there is one |
| `Cycle.TryBlockIgnoresDelivery` | homework.py:42-48 | whether the notification is delivered changes nothing else the `try` block does |
| `Cycle.StepSpec` | homework.py:135-153 | one iteration requests `FromDate(cursor, now)`; the cursor becomes `current_date` exactly when fetch, validation, `[0]`, `parse_status` and the `current_date` read all succeed, and stays otherwise; it sends the notification for `[0]` (none for `null`), then one failure report exactly when it fails |
| `Cycle.StepSendsAtMostTwo` | homework.py:138-150 | an iteration sends at most two messages; any message that is not a failure report comes first and is the notification for element `[0]` |
| `Cycle.NotificationIsNotReport` | homework.py:107 | a status notification never starts with the failure prefix |
| `Cycle.StepIgnoresDelivery` | homework.py:42-48 | a failed `send_message` changes neither the request, the next cursor nor the texts sent |
| `Cycle.StepReportsApiFailure` | homework.py:62-70 | a transport failure or a non-200 status makes the iteration send exactly one report, 'API ведет себя незапланированно', and keep the cursor |
| `Cycle.StepReportsUndecodable` | homework.py:71 | a 200 reply whose body does not decode makes the iteration send exactly one report, the prefix followed by the decoder's message, and keep the cursor |
| `Cycle.StepReportsInvalidResponse` | homework.py:74-87 | a response the validator rejects makes the iteration send only the validator's message |
| `Cycle.StepReportsInvalidHomework` | homework.py:93-103 | a first homework that `parse_status` rejects makes the iteration send only that error, with no notification |
| `Cycle.StepReportsMissingDate` | homework.py:145 | a missing 'current_date' fails after the notification has gone out, and the `KeyError` is reported second |
| `Cycle.MissingDateText` | homework.py:145-149 | that report reads 'Сбой в работе программы: 'current_date'' |
| `Cycle.ApprovedScenario` | homework.py:137-145 | `{"homeworks": [{"homework_name": "HW1", "status": "approved"}], "current_date": 1000}` gives one notification and moves the cursor to 1000 |
| `Cycle.EmptyListScenario` | homework.py:84-85 | `{"homeworks": []}` is reported as 'список пуст', and the cursor stays |
| `Cycle.LaterHomeworksIgnoredScenario` | homework.py:138 | a second homework with an unknown status is never read |
| `Cycle.FirstInvalidScenario` | homework.py:138-141 | a first homework with an unknown status fails the whole iteration, even when a later one is valid |
| `Bot.StepReportsOnce` | homework.py:148-150 | an iteration sends exactly one failure report if it fails, and none if it succeeds |
| `Bot.ReplayCounts` | homework.py:135-153 | over a run: one request per iteration, at most two messages per iteration, and as many failure reports as failed iterations |
| `Bot.ReplayKeepsCursor` | homework.py:145-151 | a run in which no iteration succeeds leaves the cursor unchanged |
| `Bot.ReplayCursorIsLastSuccess` | homework.py:145 | after a run, the cursor is the `current_date` of the last iteration that succeeded |
| `Bot.ReplayQueries` | homework.py:53-54 | each request uses the cursor that the iterations before it left |
| `Bot.Poller.constructor` | homework.py:128 | the loop starts with cursor `int(time.time())`, no requests and no messages |
| `Bot.Poller.SendMessage` | homework.py:42-48 | a send is recorded with its delivery outcome; nothing else changes, and a failed delivery goes no further |
| `Bot.Poller.TryBody` | homework.py:136-146 | the imperative `try` block records its request, sends what `TryBlock` sends, and moves the cursor exactly when it does not raise |
| `Bot.Poller.Iterate` | homework.py:136-151 | one pass of the loop body changes the cursor, request log and outbox exactly as `Step` says |
| `Bot.Poller.Run` | homework.py:135-153 | running the loop over a list of ticks changes the state exactly as `Replay` says |
| `Bot.Launch` | homework.py:124-133 | `main` builds a poller with cursor `now` exactly when the tokens pass |

## Left out

- Network I/O (`requests.get`, homework.py:57) is not modelled. Each iteration's
  answer is an input: a transport failure, or a status code with a body. The
  model records each request's `from_date`, but it does not tie the answer to
  that request.
- JSON decoding (`response.json()`, homework.py:71) is not modelled. The body
  arrives already decoded, or as undecodable with the decoder's message.
- The Telegram library (`telegram.Bot`, `bot.send_message`, homework.py:45 and
  127) is not modelled. A send is recorded with a delivery flag that comes
  from the input.
- Homework.Startup: `telegram.Bot(token=TELEGRAM_TOKEN)` is built at
  homework.py:127, after `check_tokens()` (homework.py:126) but before its
  result is tested (homework.py:130). A missing or malformed Telegram token can
  therefore make that constructor raise before the
  `SystemExit('Аутентификация не удалась')` that `Homework.Startup` and
  `Bot.Launch` promise. The model does not capture that earlier exception.
- Environment loading (`load_dotenv`, `os.getenv`, homework.py:11-16) is not
  modelled. The tokens are parameters.
- Logging (homework.py:22-27 and the log calls) is not modelled. It has no
  effect on behaviour.
- `time.sleep` and `RETRY_TIME` are not modelled, including the second sleep
  after a successful iteration (homework.py:146, 151, 153). The clock reading
  `time.time()` is the `now` of each tick.
- The `while True` loop runs forever. `Bot.Poller.Run` runs it once per given
  tick.
- The check `if message is not None` (homework.py:142) is always true, because
  `parse_status` returns a string. The model has no branch for it.
- Only `Exception` subclasses are modelled. `KeyboardInterrupt` and other
  `BaseException`s, which the handler does not catch, are not.
- Json.Json: JSON numbers with a fraction or an exponent (Python floats) are
  not modelled, only integers. A duplicate key in a JSON object, where the
  decoder keeps the last value, is not modelled either; objects are taken to
  have distinct keys.
- Json.Repr: only backslash, the chosen quote, newline, carriage return and tab
  are escaped. Python's escapes for other control and non-printable
  characters are not modelled. The text only matters when a homework name is
  a list or a dict.
- Homework.NotSubscriptable: the `TypeError` texts follow CPython 3.11. Older
  versions word the string case differently.
