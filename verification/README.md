# Homework status bot, modelled in Dafny

The bot polls the Practicum homework-status API, turns the status of the
newest homework into a message, and posts that message to a Telegram chat
when it differs from the last one posted. This project models the parts of
`homework.py` that decide something:

- **check_response**: validates the decoded answer in the source's order and
  returns its `homeworks` list.
- **parse_status** with the `HOMEWORK_VERDICTS` table: turns one homework
  entry into the notification text.
- **check_tokens**: the start-up check of the three settings.
- **send_message**: how a failed send is reported.
- **One iteration of `main`'s loop**: the cursor (`current_timestamp`), the
  two reports (`current_report`, `prev_report`), duplicate suppression and
  the two `except` clauses.

The HTTP answer and the Telegram send are inputs of an iteration. The answer
is a `Fetch`: either the decoded JSON value or the exception
`get_api_answer` raised. The send is a `Delivery`: delivered, or the
exception the client raised.

Files and modules:

- `wrappers.dfy` (`Wrappers`): `Option` and `Result`.
- `json.dfy` (`Json`): the decoded JSON value and the pieces of Python the
  bot relies on. These are `==` (where `True == 1`), `str()`, `dict.get`
  and the substring `in`.
- `homework.dfy` (`Homework`): the exception classes, the message texts,
  `CheckResponse`, `ParseStatus`, `CheckTokens` and `SendMessage`.
- `polling.dfy` (`Polling`): `TickSpec`, the specification of one iteration.
  Also the class `Bot`, whose method `Tick` performs the iteration step by
  step on the fields `currentTimestamp`, `currentReport` and `prevReport`.
  `Tick` is proved to agree with `TickSpec`, and the lemmas about
  `TickSpec` state what an iteration guarantees.

Behaviour of the code that the model keeps:

- `main` indexes `response['current_date']` before `check_response` runs.
  So a non-dict answer, or one without `current_date`, fails with a
  `TypeError`/`KeyError` there, and the cursor is taken from the answer
  even when validation, translation or the send fail later.
- Because `response.get('homeworks')` yields `None` for a missing key, a
  missing `homeworks` is rejected by the "not a list" check. The
  missing-key check at homework.py:83-84 is never reached
  (`CheckResponse`'s last ensures clause). Inside `main`, the not-a-dict and
  missing-`current_date` checks are not reached either
  (`TickValidationRejectsOnlyHomeworks`).
- Every verdict is a non-empty string, so the "status unknown" error at
  homework.py:101-102 is never raised (`ParseStatus`'s last ensures clause).
- The first check of `parse_status` uses Python's `in`, so it depends on the
  type of the entry:
  - on a dict it tests for the key;
  - on a string it is a substring test, and on a list a membership test.
    When the test fails, the entry is rejected with a `KeyError`; when it
    passes, the entry then fails at `.get` with an `AttributeError`, which
    the second except clause catches;
  - on a number, a boolean or `None` it raises `TypeError`.
- A `status` that is a list or a dict is unhashable. Testing it against
  `HOMEWORK_VERDICTS` therefore raises `TypeError`, not
  `NotForSendingError`. Every other unknown or missing status raises
  `NotForSendingError`.
- The first `except` clause (NotForSendingError, TypeError, KeyError) only
  logs. The second catches every other exception. It also overwrites
  `current_report['message']` with `'Сбой в работе программы: ' + str(error)`.
  A Telegram failure is not a NotForSendingError, so it lands in the
  second clause. The next iteration then rebuilds the report and sends it
  again.
- `send_message` re-raises a NotForSendingError with its own text. The
  text starts with a Latin `C`, as in the source.

Further behaviour of the code worth knowing:

- The cursor moves before validation, not only after a valid answer.
- A failure caught by the second except clause changes `current_report`;
  not every failure leaves the state alone.
- Only an absent `homework_name` is rejected, not an empty one.
- Unhashable statuses raise `TypeError`.
- An empty `homeworks` list is itself notified: the first iteration after
  start on such an answer sends 'Нет домашней работы на проверке'
  (`EmptyAnswerIsNotified`).

## Model

| member | source | states |
|---|---|---|
| Homework.CheckResponse | homework.py:72-87 | The answer is accepted exactly when it is a dict with a list under `homeworks` and a `current_date` key, and then that list is returned unchanged. A non-dict fails with TypeError. A missing or non-list `homeworks` fails with NotForSendingError("not a list"). A missing `current_date` fails with its own NotForSendingError. The missing-key error for `homeworks` is never produced. |
| Homework.ParseStatus | homework.py:90-103 | The entry is translated exactly when it is a dict with `homework_name` and a string status that is a key of the verdict table. The text is then prefix, quoted name and verdict. A dict without a name fails with KeyError. A list or dict status fails with TypeError. Any other unknown or missing status fails with NotForSendingError. A string entry fails with AttributeError when `homework_name` is a substring of it and with KeyError otherwise; a list entry likewise by membership; a number, boolean or None fails with TypeError. The "status unknown" error is never produced. |
| Homework.ParseStatusText | homework.py:103 | For a string name the notification is exactly `'Изменился статус проверки работы "' + name + '". ' + verdict`. |
| Homework.VerdictsDistinct | homework.py:24-28 | The three verdict texts of HOMEWORK_VERDICTS are pairwise different. |
| Homework.StatusChangeChangesMessage | homework.py:90-103 | Two translatable entries with the same name and different statuses give different notifications, so a status change is never mistaken for a duplicate. |
| Homework.AllTruthy | homework.py:108 | `all()` over configuration values holds exactly when every value is present and non-empty. |
| Homework.CheckTokens | homework.py:106-108 | True exactly when PRACTICUM_TOKEN, TELEGRAM_TOKEN and TELEGRAM_CHAT_ID are all present and non-empty. |
| Homework.SendMessage | homework.py:31-39 | A send raises exactly when the client raised. The class of the exception is kept. A NotForSendingError gets the bot's own text, and any other exception passes through unchanged. |
| Json.PyEqReflexive | homework.py:133 | Python `==` on decoded values is reflexive, so a report always equals its own copy. |
| Json.ContainsOccurrence | homework.py:92 | The `in` test on a string entry holds exactly when `homework_name` occurs at some position of it. |
| Json.DigitsRoundTrip | homework.py:103 | The decimal text `str()` gives a non-negative integer name reads back to that integer. |
| Polling.CurrentDate | homework.py:124 | `response['current_date']` succeeds exactly on a dict holding that key and returns its value. Otherwise it raises TypeError or KeyError, both caught by the first except clause. |
| Polling.TickSendsOnlyChangedReport | homework.py:133-137 | A message is sent exactly when the iteration built a report that differs from prev_report. The message sent is that report's. A send happens only for a well-formed answer. |
| Polling.TickAdoptsReportOnlyAfterDelivery | homework.py:133-135 | prev_report becomes the new report only when the send returned normally; otherwise it is unchanged. Whenever it changes it equals current_report. |
| Polling.TickErrorsKeepPrev | homework.py:138-147 | Every caught exception leaves prev_report unchanged. The second except clause sets the message to the failure text. An exception of the first clause raised before the report is built leaves current_report unchanged. Without an exception, current_report is the built report. |
| Polling.TickCursor | homework.py:123-125 | The cursor becomes `current_date` whenever the answer is a dict holding it, whatever happens afterwards; otherwise it is unchanged. |
| Polling.TickNoHomework | homework.py:126-128 | An empty homework list keeps the name and sets the message to the "no homework" text. |
| Polling.TickTranslatesFirstOnly | homework.py:129-132 | Two valid answers with the same cursor whose lists start with the same homework lead to the same iteration. Only `new_homeworks[0]` is read. |
| Polling.TickValidationRejectsOnlyHomeworks | homework.py:72-87 | Once `current_date` has been read, check_response can only fail with the "homeworks is not a list" error. |
| Polling.TickRepeatSendsNothing | homework.py:121-149 | A second iteration over the same answer sends something only if the first one sent and its send raised. Whenever the first send raised, whichever except clause caught it, the second iteration sends the same message again. |
| Polling.ApprovedHomeworkIsSentOnce | homework.py:121-149 | For an answer with one approved homework `hw1` dated 1010, the first iteration sends its notification and records it, and a second iteration sends nothing. |
| Polling.EmptyAnswerIsNotified | homework.py:126-135 | From the initial state, an answer with an empty homework list dated 1000 sends 'Нет домашней работы на проверке', moves the cursor to 1000 and records the report. |
| Polling.Bot.constructor | homework.py:118-120 | The loop starts with the clock reading as cursor and two empty reports. |
| Polling.Bot.Tick | homework.py:121-149 | One iteration on the object's fields yields exactly the state and the sent message of TickSpec. |
| Polling.Start | homework.py:111-120 | main stops with 'Отсутствуют токены' exactly when check_tokens fails; otherwise it creates a fresh bot in its initial state. |

## Left out

- HTTP access in `get_api_answer` (homework.py:42-69): the request, the
  status-code check and `.json()` are network I/O. Their outcome is the
  `Fetch` input of an iteration. The wall-clock fallback
  `current_timestamp or int(time.time())` is left out with it.
- The Telegram client and `telegram.Bot` (homework.py:35, 117): a foreign
  library. Its behaviour is the `Delivery` input.
- Environment loading, module constants and headers (homework.py:14-22):
  configuration I/O. `CheckTokens` takes the three values as parameters.
- Logging, `time.sleep(RETRY_TIME)`, `sys.exit` and the `__main__` set-up
  (homework.py:113-116, 148-149, 152-159): side effects and timing. `Start`
  returns the exit message instead of exiting. One iteration is modelled,
  not the endless loop. Every exception is caught, so an iteration always
  returns.
- The `exceptions` module is not part of this model. Its three classes are
  kinds of the one `Error` datatype.
- Floating-point JSON numbers are not part of `Json.Value`.
- Json.Show: `str()` of a list or dict shows a placeholder instead of
  Python's repr. Key order, quoting and escaping are not modelled. Every
  other value is rendered as Python does.
- The texts of Python's own TypeError, KeyError and AttributeError
  messages follow CPython 3.11. Only exceptions of the second except clause
  reach the report's message, and among Python's own ones that is only
  AttributeError.
