# Homework status notifier — Dafny model

`homework.py` is a single-user bot. It polls the Practicum homework-review API
every ten minutes and forwards changes of the latest submission's review status
to a Telegram chat. This project models its decision logic:

- the startup check of the three credentials (`check_tokens`);
- the validation of the decoded API answer (`check_response`);
- the formatting of a submission record through the fixed verdict table (`parse_status`);
- the never-raising `send_message`;
- the body of the `while True` loop in `main`, over `last_status_message` and `timestamp`.

Modules:

- `Wrappers` (`wrappers.dfy`): `Option` (Python's `None` or a value) and `Result` (a value or the exception raised instead).
- `Json` (`json.dfy`): decoded JSON values (`None`, `bool`, `int`, `str`, `list`, `dict` with insertion order). It also gives the two Python operations the core applies to them:
  - `v["key"]` (`Subscript`: found, `KeyError`, or `TypeError` with CPython's text);
  - `str(v)` (`Display`, through `repr` for containers).
- `Homework` (`homework.dfy`): the constants, the closed set of faults a cycle can raise with the `str(e)` of each (`Describe`), and `CheckTokens`, `CheckResponse`, `ParseStatus`. Lemmas about the notification format and about the failure texts (different failures show different texts) are here too.
- `Bot` (`bot.dfy`): one cycle.
  - `Evaluate` reduces the fetch result to the status text or the caught fault (an `Outcome`).
  - `Step` is what the loop body does with that outcome: the next state, the `from_date` queried, the message sent, the sleep.
  - `After`, `Sent`, `Notices`, `Queries` and `Delays` describe runs of many cycles; lemmas about them are proved by induction.
  - The class `Poller` holds the loop's variables `last` and `timestamp`. Its ghost logs record what was sent, what Telegram accepted, each request's `from_date` and each sleep. Its methods are proved against `Step`.
  - `RunBot` is `main` from `check_tokens` on, run over a finite list of cycles.

The outside world enters only as parameters:

- the three environment variables;
- each cycle's fetch result: a decoded body, or the text of the exception `get_api_answer` raised;
- whether each Telegram send succeeded.

Points where the code behaves differently from what one might expect of such a bot; the model follows the code:

- After a status change, `last_status_message` is updated whether or not the send succeeded (`homework.py:126-127`). It is not updated only after a successful send, so a notice lost in delivery is not retried.
- A missing `homeworks` key raises a plain `KeyError` at `homework.py:74`, outside the `try`. So the failure report reads `Сбой в работе программы: 'homeworks'`. The message at `homework.py:82` is never produced, and the model has no fault for it.
- The loop sleeps `RETRY_PERIOD` (600 s) after failed cycles as well as successful ones. There is no separate, shorter delay before retrying after a failure.
- `timestamp` stays 0 for ever. It is never advanced.
- A record whose status is a list or dict (unhashable) only reaches the generic branch when `homework_name` is present. The lookups run in the order status, name, verdict (`homework.py:91-93`).

## Model

| member | source | states |
|---|---|---|
| `Json.Lookup` | homework.py:91-92 | a dict lookup finds a value exactly when some entry has the key, and returns the value of the first such entry; when the keys are unique (`UniqueKeys`, as in a decoded dict) that is the value of every entry with the key |
| `Json.Subscript` | homework.py:74 | `v[key]` yields the value exactly when `v` is a dict holding the key; `KeyError` exactly when `v` is a dict without it; `TypeError` exactly when `v` is not a dict |
| `Json.Display` | homework.py:100 | the f-string placeholder renders a string name as itself |
| `Homework.CheckTokens` | homework.py:31-38 | the program stops if and only if at least one of the three credentials is `None` or empty, with the `sys.exit` text |
| `Homework.CheckResponse` | homework.py:72-85 | succeeds exactly when `homeworks` is a non-empty list, and then returns its element 0. Each failure happens exactly in its case: `KeyError` for a dict without the key, `TypeError` for a non-list value, "Список работ пуст" for an empty list, a subscript `TypeError` for an answer that is not a dict |
| `Homework.CheckResponseFaultTextsDistinct` | homework.py:72-85 | two different failures of `check_response` always give different `str(e)` texts, so the failure report says which check failed |
| `Homework.ParseStatusFaultTextsDistinct` | homework.py:94-99 | two different failures of `parse_status` always give different `str(e)` texts: the "keys missing" message never equals a generic one, and generic ones differ when their inner texts do |
| `Homework.CheckResponseFirst` | homework.py:79-85 | for any answer whose `homeworks` value is a non-empty list, whatever the list's length and the answer's other keys, the first element is returned |
| `Homework.ParseStatus` | homework.py:88-100 | succeeds exactly when `status` is one of the three table keys and `homework_name` is present, returning the fixed format built from the name and the verdict. It fails with the shared "keys missing" fault exactly when status or name is absent or the status is a hashable unknown value. It fails with the generic fault exactly when the record is not a dict, or the status is unhashable and the name present. It raises nothing else |
| `Homework.ParseStatusKnown` | homework.py:88-100 | any record in which `status` looks up a known status `s` and `homework_name` a string `n` gives exactly `Изменился статус проверки работы "n". ` followed by the verdict of `s`, whatever other keys the record has and in whatever order |
| `Homework.Notice` | homework.py:100 | the notification is the fixed head `Изменился статус проверки работы "`, the name, `". ` and the verdict, in that order and nothing else |
| `Homework.ApprovedLab1` | homework.py:25 | the record `{"id": 124, "status": "approved", "homework_name": "lab1"}` gives `Изменился статус проверки работы "lab1". Работа проверена: ревьюеру всё понравилось. Ура!` |
| `Homework.VerdictsDistinct` | homework.py:24-28 | the three verdict texts differ pairwise |
| `Homework.NoticeVerdictInjective` | homework.py:100 | for a fixed name, equal notifications have equal verdicts |
| `Homework.NoticeNameInjective` | homework.py:100 | for a fixed verdict, equal notifications have equal names |
| `Homework.StatusNoticesDistinct` | homework.py:93-100 | for a fixed name, the three known statuses give pairwise distinct notifications |
| `Bot.EvaluateEndToEnd` | homework.py:121-123 | a cycle's `try` block yields a status text exactly when the request succeeded, the answer's `homeworks` is a non-empty list, and its first record has a known `status` and a `homework_name`; the text is then that record's notification. A failed request is reported with its own text, and no other failure is reported as a request failure |
| `Bot.AlertTextShape` | homework.py:134 | a failure report is `Сбой в работе программы: ` followed by the fault's `str(e)`, and nothing else |
| `Bot.AlertIsNotNotice` | homework.py:134 | no failure report equals any status notification |
| `Bot.Step` | homework.py:125-137 | every cycle queries with the current `timestamp`, keeps it, and sleeps `RETRY_PERIOD`. A failed cycle keeps the state and sends exactly one `Сбой в работе программы: <error>`. A successful cycle stores the new message; it sends nothing exactly when that message equals the stored one, and otherwise sends exactly that message |
| `Bot.TimestampNeverChanges` | homework.py:116-121 | over any number of cycles `timestamp` is unchanged and every request uses it |
| `Bot.QueriesFromZero` | homework.py:116-121 | from the start, `timestamp` stays 0 and every request is made with `from_date` 0 |
| `Bot.EveryDelayIsRetryPeriod` | homework.py:131-137 | every cycle, successful or failed, sleeps exactly 600 seconds |
| `Bot.FailuresKeepState` | homework.py:133-137 | failed cycles leave `last_status_message` and `timestamp` unchanged; each sends exactly one report of its own fault, and none sends a status notice |
| `Bot.RepeatedStatusNotifiesOnce` | homework.py:125-129 | polling the same status `k >= 1` times in a row sends it once, or not at all when it was already the stored message, and leaves it stored |
| `Bot.NoticesChangeEachTime` | homework.py:125-127 | the stored message is always the latest status notice (or the initial `None`). Consecutive status notices always differ, even with failed cycles between them. The first notice differs from the starting state |
| `Bot.NoticesComeFromOutcomes` | homework.py:123-127 | every status notice sent is the formatted status of some cycle |
| `Bot.Poller.constructor` | homework.py:116-117 | the loop starts with `timestamp` 0, no stored message and empty logs |
| `Bot.Poller.SendMessage` | homework.py:41-50 | a send is always attempted and recorded; a delivery failure is swallowed and changes nothing else |
| `Bot.Poller.Notify` | homework.py:125-136 | the branch of the loop body for a cycle's outcome updates the state and the sent log exactly as `Step` says, whether or not delivery succeeds |
| `Bot.Poller.Cycle` | homework.py:119-137 | one loop pass keeps the object consistent with the specified run. It records the query with the current `timestamp` and the 600-second sleep, and changes state and sends exactly as `Step` prescribes for the cycle's outcome |
| `Bot.RunBot` | homework.py:113-137 | the program stops with the `sys.exit` text if and only if `check_tokens` fails, and then nothing is fetched or sent. Otherwise the final stored message, the sent texts and the queries are those of the specified run |

## Left out

- Loading the environment (`load_dotenv`, `os.getenv`, `homework.py:12-17`): the three values are parameters of `CheckTokens` and `RunBot`.
- The HTTP request of `get_api_answer` (`homework.py:53-69`), its status-code check, `response.json()` and the exact text of its doubly prefixed exception. These belong to the `requests` library. A fetch is an abstract `FetchOutcome`: a decoded body, or the exception text taken as given.
- `telegram.Bot` and the real `bot.send_message` (`homework.py:47,115`): a foreign library. Only the attempted text and whether delivery succeeded are kept, and a failed delivery never propagates.
- Logging configuration and every log line (`homework.py:35-37,43-50,105-111,129,135`): side effects only.
- `time.sleep` and the endless `while True`: each sleep is recorded as a delay value, and `RunBot` runs a finite list of cycles instead of looping for ever. Interruption of the process from outside is not modelled.
- `sys.exit` is a `Fatal` value and an `exit` result, not termination of a process.
- JSON floating-point numbers: no `Json.Value` holds one.
- A JSON document with duplicate keys: `Json.Value` does not require unique keys, and `Json.Lookup` then returns the first entry with the key, whereas Python's decoder keeps the last one. A decoded dict satisfies `Json.UniqueKeys`, under which both agree.
- Json.Display: for names that are not strings, it follows CPython's `str`/`repr` for `None`, booleans, integers, lists and dicts. It treats every character above U+007F as printable, so inside a container it does not escape the non-printable ones as Python would.
- Json.Subscript: the `TypeError` texts are CPython 3.11's wording; other Python versions word some of them differently.
