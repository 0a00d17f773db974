# finance_info — a Dafny model of the staleness-gated GS20 report

`finance_info.py` emails a daily snapshot: the opening levels of three
instruments (S&P 500, Nasdaq Composite, US 10 Year Treasury Yield), the GBP→USD
exchange rate, and the monthly 20-year Treasury yield series GS20 from FRED.
GS20 only changes once a month, so the program keeps the last value in a
one-record JSON file `{value, last_updated}` and fetches it again only when the
recorded month is not the last completed calendar month.

This project models the decision logic of that file:

- `calendar.dfy` (module `Calendar`): dates and months, `get_current_month`,
  `get_last_completed_month` (computed as in the source: the day before the
  first of the current month), and the `%Y-%m` label with a proof that the
  label determines the month, so comparing labels compares months.
- `store.dfy` (module `Gs20Store`): the record file as a class `Store` whose
  field `file: Option<map<string, PyVal>>` is `None` while no file exists; the
  two readers (`None` for a missing file, `''` for a missing key) and
  `save_data`, which replaces the whole object.
- `gate.dfy` (module `StalenessGate`): `fetch_gs20_if_needed` as a method over
  the store, proved equal to the function `Gate`, and the skip, refresh,
  falsy-value, empty-store and idempotence properties of `Gate`. The method
  returns how many remote fetches it made.
- `report.dfy` (module `Report`): the instrument table, the body that `main`
  builds line by line (a loop proved against `ReportLines`), and the recipient
  loop, where every address gets one attempt in list order.
- `invocation.dfy` (module `Invocation`): `main` as the method `RunReport`,
  proved equal to the function `RunSpec`, with lemmas about which failures stop
  a run before the gate, what a successful run sends, and one worked run.
- `values.dfy` (module `Values`): `Option`, `Result`, the exceptions a run can
  end with, and the JSON values the record file can hold.

The clock is one parameter `now`, so the two calls to
`get_last_completed_month` in the gate and the one in `main` all see the same
day. Remote answers are parameters too. `Some(v)` is the value a fetch returns
and `None` means the fetch raises. Number rendering (`:.2f`, `:.4f`) is an
abstract function parameter `fmt(x, digits)`.

Where the code and the design description of the system differ, the model
follows the code:

- A fetched GS20 value of zero is returned but not saved. The code's guard is
  `if value and date`.
- A record with a missing `last_updated` key reads as `''`, which just makes the
  gate fetch. A record with a missing `value` key but the last completed month reads
  as `''`. The gate returns it, and `main` then fails formatting it
  (`FormatError`). The code does not treat such a record as absent.
- Send failures are caught and printed inside `send_email`, and nothing is
  collected. The model's `Attempt` log is an observation of what was tried and
  whether the transport accepted it.
- There are three instruments, not two.

## Model

| member | source | states |
|---|---|---|
| `Calendar.PreviousDay` | finance_info.py:71 | `date - timedelta(days=1)` fails exactly on 0001-01-01; otherwise it yields a valid date whose next day is the input |
| `Calendar.PreviousDayUndoesNextDay` | finance_info.py:71 | stepping a day forward then back returns the same date (the other half of the inverse pair) |
| `Calendar.CurrentMonth` | finance_info.py:57-61 | the current month is a valid month, the year and month of today |
| `Calendar.LastCompletedMonth` | finance_info.py:63-76 | fails only in January of year 1; otherwise `(y, m-1)` when `m > 1`, `(y-1, 12)` in January, a valid month, never the current month |
| `Calendar.LastCompletedMonthIgnoresDay` | finance_info.py:63-76 | two days of the same month give the same last completed month and the same current month |
| `Calendar.Format` | finance_info.py:61 | a `%Y-%m` label is seven characters: four digits, a dash, two digits |
| `Calendar.ParseFormat` | finance_info.py:74 | reading a label back gives its month: the rendering loses nothing |
| `Calendar.FormatInjective` | finance_info.py:96 | two months have equal labels if and only if they are the same month, so the gate's string comparison is a month comparison |
| `Calendar.LastCompletedMonthLabel` | finance_info.py:63-76 | the string result fails exactly when the month computation does and is otherwise the 7-character label of the last completed month |
| `Calendar.CurrentMonthLabel` | finance_info.py:57-61 | the current month's label is seven characters long and reads back as today's year and month |
| `Calendar.LastCompletedIsNotCurrentLabel` | finance_info.py:57-76 | the last completed month's label never equals the current month's label |
| `Calendar.JulyLabel` | finance_info.py:63-76 | on any day of July 2024 the labels are `2024-06` (last completed) and `2024-07` (current) |
| `Gs20Store.SavedRecord` | finance_info.py:47-54 | the saved object has exactly the keys `value` and `last_updated`, holding the value and the date |
| `Gs20Store.ReadField` | finance_info.py:29-44 | reading a key gives `None` when there is no file, the stored entry when the key is present, and `''` when it is missing |
| `Gs20Store.Store.LastSavedValue` | finance_info.py:29-35 | `None` exactly when there is no file; otherwise the `value` entry, or `''` when it is missing |
| `Gs20Store.Store.LastUpdatedMonth` | finance_info.py:38-44 | `None` exactly when there is no file; otherwise the `last_updated` entry, or `''` when it is missing |
| `Gs20Store.Store.SaveData` | finance_info.py:47-54 | the file is replaced wholesale by the two-key object; the readers then return exactly the saved value and date |
| `Gs20Store.EmptyStoreReadsNone` | finance_info.py:29-44 | with no file both readers return `None`, which never equals a month label |
| `StalenessGate.FetchGs20IfNeeded` | finance_info.py:87-106 | the gate run step by step over the store returns the value, leaves the file and counts the fetches exactly as `Gate` prescribes |
| `StalenessGate.GateSkipsExactlyOnPreviousMonth` | finance_info.py:89-98 | for a stored label of month `q`, no fetch happens if and only if `q` is the last completed month |
| `StalenessGate.GateTransition` | finance_info.py:89-102 | a file recorded under any other month is fetched once, and a nonzero value is returned and rewrites the file under the last completed month |
| `StalenessGate.GateSkip` | finance_info.py:94-106 | when the stored month is the last completed month: no fetch, no save, file unchanged, stored value returned as is |
| `StalenessGate.GateRefresh` | finance_info.py:96-106 | when the stored month differs or there is no file: exactly one fetch; the fetched value is returned; a nonzero value replaces the file with `{value, last completed month}`; zero leaves the file unchanged; a raising fetch propagates and leaves the file unchanged |
| `StalenessGate.GateEmptyStoreFetches` | finance_info.py:92-98 | with no file the gate always fetches once and returns the fetched value |
| `StalenessGate.GateIdempotent` | finance_info.py:96-106 | after a successful call that did not leave a zero value unsaved, a second call on any day of the same month makes no fetch, changes nothing and returns the same value; at most one fetch over both calls |
| `StalenessGate.GateNeverRecordsCurrentMonth` | finance_info.py:96-102 | the gate either leaves the file alone or writes the fetched value under the last completed month, which differs from the current month |
| `Report.FinancialData` | finance_info.py:109-129 | the snapshot succeeds exactly when every instrument has an opening price, and then lists the prices under the instrument names in ticker order |
| `Report.FormatGs20` | finance_info.py:195 | rendering the gate's value succeeds exactly when it is a number, with two decimals |
| `Report.QuoteLines` | finance_info.py:191-192 | one "Open" line per instrument, in order, at two decimals |
| `Report.ReportLines` | finance_info.py:190-195 | the lines come in this order: timestamp header, instrument lines, FX line at four decimals, GS20 line under the given month |
| `Report.BodyShape` | finance_info.py:190-195 | the body fails exactly when the GS20 value is not a number; otherwise it starts with the header and ends with the GS20 line |
| `Report.ComposeBody` | finance_info.py:190-195 | the `+=` loop builds exactly the joined lines of `ReportLines`, or fails as `Body` does |
| `Report.SendAll` | finance_info.py:201-203 | every recipient gets exactly one attempt, in list order, with the same subject and body; a failed attempt does not stop later ones |
| `Invocation.RunReport` | finance_info.py:175-203 | one run of `main` over the store produces the outcome, file and fetch count that `RunSpec` prescribes |
| `Invocation.RunStopsBeforeGate` | finance_info.py:181-187 | a missing price or exchange rate fails the run before the gate: no fetch, file unchanged, nothing sent |
| `Invocation.RunDelivers` | finance_info.py:187-203 | a run succeeds if and only if all prices and the rate are present and the gate yields a number; then all recipients are attempted in order with one body, which starts with the header and ends with the GS20 line labelled with the last completed month, never the current one |
| `Invocation.July2024Run` | finance_info.py:175-203 | worked run on 15 July 2024 with no file: the file ends with 4.05 under `2024-06`, one fetch, three attempts with the second failing, and the body is the six lines of `JulyBody` |

## Left out

- Network fetches are not modelled. This covers the Yahoo Finance one-day
  histories (finance_info.py:120-127), the exchange-rate HTTP call
  (finance_info.py:133-139) and the FRED series (finance_info.py:78-85). Each
  becomes a parameter holding its answer, or `None` when it raises.
- SMTP, MIME and TLS login are not modelled, nor the sender credentials. A send
  is reduced to "attempted, accepted or not".
- The `time.sleep(5)` pacing between sends is left out. It is timing, not
  logic.
- The pytz time-zone conversion and the timestamp's `strftime` are left out.
  The timestamp is an opaque string.
- Environment, dotenv and the JSON-decoding of `EMAIL_LIST` at import time are
  left out. So is `print` logging.
- JSON (de)serialisation is left out:
  - a malformed file makes `json.load` raise;
  - a failed write makes `save_data` raise;
  - JSON booleans, lists and objects as field values are not modelled.
  The file is an optional object whose values are null, numbers or strings.
- Floating point is left out. Numbers are reals, and `:.2f` / `:.4f` are the
  abstract `fmt`. A NaN value (truthy in Python) is not modelled: truthiness of
  a number is "not zero".
- The month-boundary race between separate `datetime.today()` calls is excluded
  by the single clock parameter.
- `Calendar.Format`: pads years below 1000 to four digits, which Python's `%Y`
  does not do on every platform. The labels stay injective either way.
- `Invocation.RunReport`: computes the GS20 line's month label before calling
  the gate rather than after it (finance_info.py:195). With one clock the label
  is the same. Its only failure, January of year 1, makes the gate fail at its
  first step before it reads or writes anything.
