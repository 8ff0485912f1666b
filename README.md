# homework_bot: a Dafny model of the polling bot's core

The bot polls a homework-review API and relays status changes to one chat.
Each cycle of its endless loop asks the API for homeworks updated since a
timestamp. It then checks the HTTP answer (`get_api_answer`), checks the
decoded body and extracts the homework list (`check_response`), moves the
timestamp to the answer's `current_date`, and formats and sends the first
record (`parse_status`). Any exception raised in a cycle is replaced by the
fixed notice "Сбой в работе программы". That notice is sent only when it is
not already the last message, so a streak of failures produces one notice.

The model has four modules:

- `PyJson` (`pyjson.dfy`): the JSON values Python decodes (None, bool, int,
  str, list, dict) and the Python behaviour the bot relies on: truthiness,
  `type(x).__name__`, `key in d` and `d.get(key)`, substring search, and
  `str()`/`repr()`, which the f-string of `parse_status` uses. A dict is
  kept as its entries in insertion order.
- `Exceptions` (`exceptions.dfy`): one error datatype. It holds the bot's
  three exception classes (`Not200ApiAnswer`, `ResponseNotType`,
  `ResponseIsEmpty`, from exceptions.py:1-16), the built-ins `KeyError`,
  `TypeError` and `AttributeError`, and the two failures of the HTTP client.
  Each carries the text the source passes to it. `Result<T>` stands for
  "returns a T or raises".
- `Homework` (`homework.dfy`): `HOMEWORK_VERDICTS`, the two checks of
  `get_api_answer` (applied to a given status code and decoded body),
  `check_response` and `parse_status`. They are total functions. Every guard
  of the source is a branch, in the source's order, with the source's texts.
- `PollLoop` (`poll_loop.dfy`): the body of `main`'s loop. `Observe` runs the
  `try` block's calls on what the request produced and classifies how the
  block ends. `Step` is one cycle over the two loop variables `message` and
  `current_timestamp`. `Run` is a sequence of cycles. Class `HomeworkBot`
  holds the two loop variables as fields, plus ghost logs of the messages
  sent and of the `from_date` values asked for. Its `Cycle` method follows
  the source's `try`/`except` statement by statement.

## Behaviour kept as written

- The key test of `check_response` (homework.py:74) reads
  `('homeworks' or 'current_date') not in response`. The parenthesis
  evaluates to `'homeworks'`. So `current_date` is never checked. A missing
  `homeworks` raises the `KeyError` whose text names `current_date`. The
  second test (homework.py:77-79) can never fire. The model evaluates the
  `or` (`StrOr`) and keeps both tests. `HomeworksKeyErrorUnreachable` and
  `CurrentDateNotRequired` prove these consequences.
- The one-element unwrap happens after the emptiness test, and only once.
  So `[{}]` is not reported as empty, and `[[d]]` fails the dict test even
  when `[d]` passes (`CheckResponseUnwrapLimits`). `check_response([x])`
  equals `check_response(x)` when `x` is truthy and is not itself a
  one-element list.
- An unknown status raises `KeyError('Receieved incorrect status of
  homework')`, typo included. A status that is a list or a dict raises
  `TypeError`, because the value is unhashable.
- `parse_status` is modelled on every input, not only on dicts. For a str,
  Python's `in` is a substring test. For a list it is element membership.
  For None, a bool or an int it raises `TypeError`. A str or list that
  passes both key tests then fails at `.get` with `AttributeError`.
- When an answer has no `current_date`, the timestamp becomes None. The next
  request then falls back to the clock (`current_timestamp or
  int(time.time())`).
- When `parse_status` raises, the timestamp has already been replaced
  (homework.py:132 runs before line 134).
- `parse_status` raises the built-in `KeyError` both for a missing field and
  for an unknown status (homework.py:95, 98, 103); the bot defines no
  exception classes of its own for these.

## Model

| member | source | states |
|---|---|---|
| `PyJson.FalsyValues` | homework.py:64 | `not x` holds exactly for None, False, 0, "", [] and {} |
| `PyJson.Lookup` | homework.py:74-79 | `key in d` holds exactly when some entry has the key, and the value found is that of the first such entry |
| `PyJson.Get` | homework.py:99-100 | `d.get(key)` is None when the key is absent; otherwise it is the value stored under that key (which may itself be None) |
| `PyJson.IsSubstringAt` | homework.py:93 | Python's `in` on two strings holds exactly when the needle occurs at some position of the text |
| `PyJson.Repr` | homework.py:105 | `repr` of an int reads back as that int; of a str it is the same quote at both ends around a text that unescapes back to the str; of a list it is bracketed and of a dict braced |
| `PyJson.UnescapeEscape` | homework.py:105 | the escaped text `repr` puts between the quotes reads back as the original string |
| `PyJson.EscapePlain` | homework.py:105 | a string with no backslash, quote or control escape is written unchanged between the quotes |
| `PyJson.ReprPlainString` | homework.py:105 | `repr` of such a plain string is the string in single quotes |
| `PyJson.ReprSingletonList` | homework.py:105 | `repr([x])` is `[` + `repr(x)` + `]` |
| `PyJson.ReprSingletonDict` | homework.py:105 | `repr({k: v})` is `{` + `repr(k)` + `: ` + `repr(v)` + `}` |
| `PyJson.Str` | homework.py:105 | the f-string puts a str in as it is and any other value as its `repr`, so an int name reads back as that int |
| `PyJson.IntToString` | homework.py:53-54 | `str()` of an int starts with `-` exactly when it is negative and is otherwise all decimal digits |
| `PyJson.IntToStringRoundTrip` | homework.py:53-54 | the decimal text `str()` gives an int reads back as that int |
| `Homework.FromDate` | homework.py:43 | a truthy timestamp is sent as it is; a falsy one (None, 0, ...) is replaced by the clock reading, so `from_date` is truthy unless the clock reads 0 |
| `Homework.GetApiAnswer` | homework.py:50-58 | succeeds exactly for status 200 with a dict body and returns that body; a non-200 status raises `Not200ApiAnswer` before the body is looked at; a non-dict body raises `ResponseNotType` |
| `Homework.Not200CarriesCode` | homework.py:50-54 | the `Not200ApiAnswer` text starts with the fixed words and ends with the status code, which reads back |
| `Homework.UnwrapSingle` | homework.py:69-70 | a one-element list becomes its element (a strictly smaller value); anything else is left as it is |
| `Homework.StrOr` | homework.py:74 | Python's `a or b` on strings: `a` when it is non-empty, otherwise `b`; so `'homeworks' or 'current_date'` is `'homeworks'` |
| `Homework.CheckResponse` | homework.py:61-84 | falsy input raises `ResponseIsEmpty` before any other check; after the single unwrap, a non-dict raises `ResponseNotType`; a dict without `homeworks` raises the `KeyError` naming `current_date`; a non-list `homeworks` raises `ResponseNotType`; otherwise the result is exactly the `homeworks` list, possibly empty |
| `Homework.HomeworksKeyErrorUnreachable` | homework.py:74-79 | no input ever yields the `KeyError` of the second key test |
| `Homework.CurrentDateNotRequired` | homework.py:74-79 | every dict with a `homeworks` list passes and yields that list, whether or not it has `current_date`; every non-empty dict without `homeworks`, with or without `current_date`, raises the `KeyError` naming `current_date` |
| `Homework.CheckResponseUnwrapsOnce` | homework.py:69-70 | for a truthy value that is not a one-element list, wrapping it in a one-element list gives the same result |
| `Homework.CheckResponseUnwrapLimits` | homework.py:64-73 | `{}` is empty; `[{}]` is not empty and fails at the key test; `[d]` behaves as `d`; `[[d]]` is not a dict |
| `Homework.Contains` | homework.py:93-98 | Python's `in`: key membership on a dict, a substring at some position on a str, element membership on a list, and `TypeError` ("not iterable") on None, a bool or an int |
| `Homework.Verdict` | homework.py:101-104 | succeeds exactly for a str status in `HOMEWORK_VERDICTS` and returns that status's verdict; a list or dict status raises `TypeError` (unhashable); any other unknown status raises `KeyError('Receieved incorrect status of homework')` |
| `Homework.VerdictIdentifiesStatus` | homework.py:25-29 | no two statuses share a verdict, so the verdict in a notification determines the status |
| `Homework.ParseStatus` | homework.py:87-105 | succeeds exactly for a dict (after the single unwrap) with `homework_name`, `status` and a known status; then returns `Изменился статус проверки работы "<name>". <verdict>`; on a dict the tests run in order: missing name, then missing status, then bad status; None, bool and int raise `TypeError` |
| `Homework.ParseStatusOnSequences` | homework.py:93-100 | a str or list fails with the `KeyError` of the first key it lacks, or with `AttributeError` at `.get` when it holds both |
| `Homework.ParseStatusUnwrapsOnce` | homework.py:91-92 | wrapping a record that is not a one-element list in a one-element list gives the same result |
| `Homework.ParseStatusApproved` | homework.py:25-29 | an approved "Project X" yields the exact approved sentence, alone or wrapped in a list |
| `Homework.ParseStatusPrefix` | homework.py:105 | every notification starts with `Изменился статус проверки работы "` |
| `PollLoop.Observe` | homework.py:130-136 | a cycle's `try` block fails before the timestamp update exactly when the fetch or the check fails; it finds no homework exactly for an empty list; it formats exactly when the first record parses, and then the text is that record's notification; otherwise the new timestamp is the answer's `current_date` |
| `PollLoop.ObserveNotification` | homework.py:134-140 | a formatted notification is never the failure notice |
| `PollLoop.CurrentDate` | homework.py:132 | `response.get('current_date')`: None when the answer has no `current_date`, otherwise the value stored under it |
| `PollLoop.Failed` | homework.py:137-142 | the `except` block always leaves the notice as the message and the timestamp unchanged; it sends the notice, and only it, exactly when the message was something else |
| `PollLoop.Step` | homework.py:129-143 | a cycle sends at most one message, and the message variable becomes the one sent (or stays); a formatted notification is sent; an empty list sends nothing; a raising cycle sends the failure notice exactly when the message is not already the notice; the timestamp moves to `current_date` unless the fetch or the check failed |
| `PollLoop.Run` | homework.py:128-145 | successive passes of the loop: at most one message per pass; no passes change nothing; passes that only find empty lists send nothing and keep the message |
| `PollLoop.StepExtendsLog` | homework.py:133-142 | one cycle keeps the message equal to the last one sent, and keeps the sent log free of two failure notices in a row |
| `PollLoop.RunDeduplicatesFailures` | homework.py:128-143 | over any sequence of fetches, the message is the last one sent, and no failure notice follows another or follows a state whose message is already the notice |
| `PollLoop.FailureStreak` | homework.py:137-142 | a streak of failing cycles sends the failure notice once if it is not already the message, and otherwise not at all |
| `PollLoop.RaisedWhenSomethingFails` | homework.py:129-137 | the `except` block runs exactly when the fetch or the check fails, or the first of a non-empty list does not parse |
| `PollLoop.EmptyAnswerSendsNothing` | homework.py:131-133 | an empty homework list sends nothing and keeps the message, but moves the timestamp to `current_date` |
| `PollLoop.RepeatedStatusResent` | homework.py:133-136 | two cycles that format the same notification both send it, and the message and timestamp end as that cycle sets them: successes are not deduplicated |
| `PollLoop.FailureAfterNotificationReported` | homework.py:134-142 | a failure right after a notification (which is never the notice) always sends the failure notice and makes it the message |
| `PollLoop.MissingCurrentDateFallsBackToClock` | homework.py:43-44 | after an answer without `current_date` the timestamp is None, so the next `from_date` is the clock reading |
| `PollLoop.EmptyThenTwoFailures` | homework.py:125-145 | from the start state: an empty answer dated 100 sends nothing and sets the timestamp to 100; two failed requests after it send exactly one failure notice |
| `PollLoop.HomeworkBot.constructor` | homework.py:125-126 | the message starts as "text" and the timestamp as the start-up clock reading; nothing has been sent |
| `PollLoop.HomeworkBot.SendMessage` | homework.py:108-114 | a delivery attempt is logged; delivery errors are swallowed, so nothing else changes |
| `PollLoop.HomeworkBot.ReportFailure` | homework.py:137-142 | the `except` block: the notice is sent and becomes the message only if the message was something else |
| `PollLoop.HomeworkBot.Cycle` | homework.py:128-143 | one pass asks for `current_timestamp or now`, leaves the two variables and the sent log as `Step` says, and keeps the invariant that the message is the last one sent and no failure notice follows another |

## Left out

- The HTTP request (`requests.get` with the endpoint, headers and
  `from_date` parameter) is external I/O. Its result is a parameter of type
  `Fetch`: a status code and a decoded body, an undecodable body, or no
  answer. Each `Cycle` records the `from_date` it asks for in the ghost log
  `queries`.
- `time.time()` is a clock reading. It is the `now` parameter of the
  constructor and of `Cycle`.
- The Telegram `Bot` client and `send_message`'s delivery are a foreign
  client whose errors are swallowed. Sending is modelled as appending to the
  ghost log `sent`.
- `time.sleep(RETRY_TIME)` and the endlessness of `while True` are timing.
  The model has one cycle as the method `Cycle`, and finite sequences of
  cycles as the pure `Run`. The invariant `Valid()` of `HomeworkBot` carries
  the deduplication property across any sequence of `Cycle` calls.
- `logging`, `print`, `load_dotenv`/`os.getenv` and `check_tokens` are
  configuration and output. Their results do not affect the loop, and the
  result of `check_tokens` is discarded by the source.
- test.py is a scratch script with no logic of the bot.
- JSON floats are not part of `PyJson.Json`: the bot never relies on them.
- Dicts are lists of entries. Duplicate keys, which a Python dict cannot
  have, are not excluded; a lookup takes the first entry.
- `PyJson.Repr`: `repr` of a str inside a list or dict escapes backslash,
  the quote, `\n`, `\r` and `\t`. Python's `\x`/`\u` escapes of other
  non-printable characters are not modelled. They only matter for a
  `homework_name` that is a list or dict.
- `PyJson.Repr`: for a list or dict of any length the contract gives only
  the brackets or braces; the full text is characterised for one-element
  lists and one-entry dicts (`ReprSingletonList`, `ReprSingletonDict`).
- The texts of Python's built-in `TypeError` and `AttributeError` follow
  CPython 3's wording. Other versions word them differently.
