# cmtv-test-nr in Dafny

`cmtv-test-nr.py` is a regression tester. It reads a store of named use cases from
`usecases.json` and sends each use case's record to a reference server and to a server
under test. It writes what it learns back into the store and diffs the two JSON answers
with `compare_json`. Each use case ends with 0 (no difference) or 1 (a difference or an
error). The main block adds these up in `total_errors`.

This project models the part of the script that decides things:

- `compare_json`, over a JSON datatype whose equality follows Python's `==`.
- The state machine of `process` over the in-memory store. The model states which
  record changes, what the store file receives and which server is called with which body.
- The `total_errors` loop and the exit code of the main block.

Modules, one file each:

- `Wrappers` (`wrappers.dfy`): `Option`, plus a `Result` that works with `:-`. A Python
  exception travels as a `Result` failure.
- `PyJson` (`pyjson.dfy`): loaded JSON values and the Python operations the script uses
  on them:
  - `==` (`Equal`: `True == 1 == 1.0`, lists element-wise, dicts by keys and values);
  - truthiness (`if not data`);
  - `key in data`, `data[key]` and `data[key] = value`;
  - the exceptions these raise, with `str(e)`.
- `Compare` (`compare.dfy`): `compare_json` and its properties.
- `Processing` (`processing.dfy`): `process`, in two forms.
  - Specification functions, one per phase: `ReferenceOutcome` (lines 67-88),
    `VersionOutcome` (91-117), `Handled` (118-126), and `VersionStep` and `Processed`
    for the whole.
  - The class `UseCaseStore`. It holds the store as a mutable field. Its methods
    `ReferencePhase`, `VersionPhase` and `Process` update that field step by step, as
    the script updates `usecases` in place. Each method is proved to end in the state
    its specification function gives.
- `ProcessingProperties` (`processing_properties.dfy`): what one call of `process` does,
  rule by rule.
- `Runner` (`runner.dfy`): the loop over the use cases, `total_errors` and the exit code.

The two answers of `call_api` are inputs. `Reply(status, response)` is the
`{status_code, response}` shape, with `response` = `JNull` for an empty body.
`ApiError(status, error)` is the `{status_code, error}` shape. Every call is appended to
a ghost log of `Call(server, body)` values. Every rewrite of `usecases.json` is appended
to a ghost log of store snapshots (`flushes`).

Notable behaviours of the code, which the model follows:

- **A reference reply with a non-200 status is stored.** Line 82 tests only for a
  `response` key. So a 500 reply with a body is written to `result` / `http_code` and
  flushed (`ReferenceServerErrorScenario`).
- **The store is not rewritten after every use case.** When either status is not 200,
  `process` returns at line 98 without writing (`NonOkStatusShortCircuits`), unless the
  reference phase has just stored a fresh reply.
- **Python's `==` coerces between number kinds.** `True`, `1` and `1.0` compare equal,
  so `compare_json` does not report them as different (`BoolMatchesNumber`).
- **The exit code is 0 after the loop** whatever `total_errors` is (line 157). In the
  model it is 1 only when the setup raises; the other ways the script can reach line 161
  are listed under "Left out".

## Model

| member | source | states |
|---|---|---|
| PyJson.Equal | cmtv-test-nr.py:62 | Python `==` on loaded values (also `!=` at line 94): values of different kinds are never equal, except bool, int and float, which compare by value |
| PyJson.Truthy | cmtv-test-nr.py:68 | `not data` is true exactly for None, a number equal to 0, and an empty str, list or dict |
| PyJson.EqualReflexive | cmtv-test-nr.py:62 | every loaded value is `==` to itself, so `!=` never reports a value against itself |
| PyJson.EqualSymmetric | cmtv-test-nr.py:62 | `a == b` implies `b == a`, for every pair of JSON values |
| PyJson.EqualTransitive | cmtv-test-nr.py:62 | `a == b` and `b == c` imply `a == c` |
| PyJson.Contains | cmtv-test-nr.py:72 | `key in data` raises exactly when `data` is not a dict, str or list; on a dict it is key membership |
| PyJson.GetItem | cmtv-test-nr.py:75-76 | `data[key]` succeeds exactly on a dict holding `key`, and yields that key's value |
| PyJson.SetItem | cmtv-test-nr.py:84-85 | `data[key] = v` succeeds exactly on a dict, and the dict then maps `key` to `v` with every other key unchanged |
| Compare.CompareObjects | cmtv-test-nr.py:61-63 | None exactly when every key of either dict has `==` values under `.get`; otherwise the result holds exactly the differing keys, each mapped to `{ref: json1.get(k), version: json2.get(k)}` |
| Compare.CompareJson | cmtv-test-nr.py:61-62 | succeeds exactly when both arguments are dicts, and then agrees with CompareObjects; a non-dict first argument raises its `keys` AttributeError before the second is looked at |
| Compare.IdenticalYieldsNone | cmtv-test-nr.py:62-63 | two dicts that are `==` yield None |
| Compare.SelfYieldsNone | cmtv-test-nr.py:62-63 | a dict compared with itself yields None |
| Compare.NullVersusAbsent | cmtv-test-nr.py:62-63 | `{"a": null}` against `{}` yields None although the two dicts are not `==` |
| Compare.AbsentMatchesNull | cmtv-test-nr.py:62 | a key absent on one side and null on the other is never reported |
| Compare.ChangedValueExample | cmtv-test-nr.py:62-63 | `{a:1,b:2}` against `{a:1,b:3}` reports only `b`, as `{ref: 2, version: 3}` |
| Compare.AddedKeyExample | cmtv-test-nr.py:62-63 | a key only in the second dict is reported with a null `ref` |
| Compare.BoolMatchesNumber | cmtv-test-nr.py:62 | `True` against `1.0` is not a difference |
| Compare.SwapArguments | cmtv-test-nr.py:62-63 | swapping the arguments reports the same keys with `ref` and `version` swapped |
| Processing.IsOkIsEqualTo200 | cmtv-test-nr.py:94 | the status test is exactly Python's `status_code == 200` |
| Processing.IsCached | cmtv-test-nr.py:72 | `"result" in data and "http_code" in data` raises exactly when `data` is not a dict, str or list; on a dict it is true exactly when both keys are present |
| Processing.ResponseOrEmpty | cmtv-test-nr.py:107 | `.get("response", {})` on the dict `call_api` returns: its `response` when it has one, else an empty dict |
| Processing.VersionRecord | cmtv-test-nr.py:101 | the value stored in `result`: the version dict's `response` when it has one, else `{"error": <its error>}` |
| Processing.ReferenceOutcome | cmtv-test-nr.py:67-88 | the reference phase changes only this use case's record and keeps every key; a changed store has been written, and after any write the last snapshot written is the store; the logs only grow; at most one call is made; a record that is not a dict when the phase starts is never changed and nothing is written |
| Processing.VersionOutcome | cmtv-test-nr.py:91-117 | the version phase calls the version server once, with the record as it is; it returns only 0 or 1; it changes only this use case's record; a changed store has been written, and after any write the last snapshot written is the store |
| Processing.Handled | cmtv-test-nr.py:118-126 | the handler returns 1 and appends the resulting store to the file, or its own assignment raises and nothing changes; only this use case's record may change, and no server is called |
| Processing.VersionStep | cmtv-test-nr.py:91-126 | from the version call to the end, `process` returns 0 or 1 or raises, makes exactly the version call, changes only this use case's record, and leaves the file holding the store whenever it changed or wrote anything |
| Processing.Processed | cmtv-test-nr.py:65-126 | `process` returns only 0 or 1; other records are never changed and no key is added or removed; a changed store has been written, and after any write the last snapshot written is the store; an exception that escapes leaves the store and the file as they were; at most two calls are made |
| Processing.UseCaseStore.constructor | cmtv-test-nr.py:130-131 | the store starts as loaded, with no file writes and no calls yet |
| Processing.UseCaseStore.Flush | cmtv-test-nr.py:86-87 | a rewrite of the file appends the current store to the snapshots and changes nothing else |
| Processing.UseCaseStore.CallApi | cmtv-test-nr.py:41-59 | a call logs the server and the body, and yields the given outcome |
| Processing.UseCaseStore.ReferencePhase | cmtv-test-nr.py:67-88 | the in-place reference phase ends in the state ReferenceOutcome gives, with the same reference outcome or exception |
| Processing.UseCaseStore.VersionPhase | cmtv-test-nr.py:91-117 | the in-place version phase ends in the state VersionOutcome gives, with the same code or exception |
| Processing.UseCaseStore.Process | cmtv-test-nr.py:65-126 | the in-place `process` ends in the state and with the outcome Processed gives |
| ProcessingProperties.ReferenceCached | cmtv-test-nr.py:72-77 | with both `result` and `http_code` in the record, the reference outcome is `{status_code: http_code, response: result}`; no call is made and nothing is written |
| ProcessingProperties.ReferenceFresh | cmtv-test-nr.py:78-88 | without a cached pair, a reply with a `response` key is stored as `result` / `http_code` and the store is written at once, whatever the status; the reference server gets the record as it was |
| ProcessingProperties.ReferenceErrorShaped | cmtv-test-nr.py:78-88 | without a cached pair, an error-shaped outcome is passed on, and the record and the file are untouched |
| ProcessingProperties.CachedPairSkipsReference | cmtv-test-nr.py:72-77 | with a cached pair, the reference server's answer makes no difference, and only the version server is called, with the unchanged record |
| ProcessingProperties.FreshReplyPersisted | cmtv-test-nr.py:78-88 | without a cached pair, a reply with a `response` key is the first snapshot written, even for a non-200 status; `http_code` still holds that status when `process` ends |
| ProcessingProperties.ErrorShapedReferenceNotStored | cmtv-test-nr.py:78-98 | an error-shaped reference outcome leaves the record as it was; both servers get that record; a non-200 status then writes nothing and returns 1 |
| ProcessingProperties.NonOkStatusShortCircuits | cmtv-test-nr.py:91-98 | when either status is not 200, the version phase makes its call and returns 1, with no comparison and no write |
| ProcessingProperties.VersionPhaseBothOk | cmtv-test-nr.py:101-117 | with both statuses 200, `result` becomes the version response and the store is written; the code is 0 or 1 from the comparison, or the comparison's exception is raised |
| ProcessingProperties.HandledOnObject | cmtv-test-nr.py:118-126 | on a dict record the handler sets `result` to `{"error": str(e)}`, writes the store and returns 1 |
| ProcessingProperties.BothOkCompares | cmtv-test-nr.py:101-117 | with both statuses 200, `result` is overwritten and nothing else in the record changes; the store is written once; the outcome is 0 exactly when compare_json yields None |
| ProcessingProperties.BothOkComparisonRaises | cmtv-test-nr.py:101-126 | with both statuses 200 and a non-dict response, the file receives the record with the version response and then with the error; `result` ends as `{"error": str(e)}`; the outcome is 1 |
| ProcessingProperties.VersionStepKeepsOtherFields | cmtv-test-nr.py:91-126 | the version phase and the handler write only `result`, so `http_code` and `payload` are kept |
| ProcessingProperties.EmptyBodyRecordedAsError | cmtv-test-nr.py:101-126 | a fresh 200 reply with an empty body ends with `result` = `{"error": "'NoneType' object has no attribute 'keys'"}`, `http_code` 200, three writes, and 1 |
| ProcessingProperties.MissingUseCase | cmtv-test-nr.py:67-69 | a missing use case calls no server, rewrites the unchanged store and returns 1 |
| ProcessingProperties.EmptyEntry | cmtv-test-nr.py:67-69 | an empty record gets `result` = `{"error": "<uc> non trouvé"}`, is written, and `process` returns 1 |
| ProcessingProperties.NonObjectEntry | cmtv-test-nr.py:65-126 | a record that is not a dict is never changed or written; a falsy one makes the handler itself raise, leaving everything as it was |
| ProcessingProperties.LastVersionBecomesBaseline | cmtv-test-nr.py:72-117 | after a run with a cached pair and a 200 dict reply, `result` holds that reply and `http_code` is unchanged; a second run against the same reply returns 0 and leaves the store as it is |
| ProcessingProperties.FirstRunScenario | cmtv-test-nr.py:78-117 | first run on `{"uc1": {"payload": {"x": 1}}}` with both servers answering 200 `{"y": 1}`: `result` / `http_code` are stored and the outcome is 0 |
| ProcessingProperties.ReferenceServerErrorScenario | cmtv-test-nr.py:82-98 | the same store with the reference answering 500: `result` and `http_code` 500 are stored and the outcome is 1 |
| Runner.Cost | cmtv-test-nr.py:145-149 | what one use case adds to `total_errors` is 0 exactly when `process` returned 0 |
| Runner.Total | cmtv-test-nr.py:139-149 | `total_errors` after a sequence of use cases lies between 0 and their number |
| Runner.RunLoop | cmtv-test-nr.py:141-150 | the loop produces one outcome per use case, each 0, 1 or an escaped exception; it keeps the store's keys; the logs only grow; if the store changed, it has been written, and the last write holds the store as the loop leaves it; it makes at most two calls per use case |
| Runner.TotalCountsFailures | cmtv-test-nr.py:139-149 | `total_errors` equals the number of use cases that differed or failed, so it is at most the number of use cases |
| Runner.TotalZeroIffAllClean | cmtv-test-nr.py:152-155 | `total_errors` is 0 exactly when every use case returned 0, which picks the summary line |
| Runner.ProcessAll | cmtv-test-nr.py:139-150 | the in-place loop ends in the state RunLoop gives, and `total_errors` is the sum of the outcomes, equal to the number of failed use cases and at most the number of use cases; the file then holds the store whenever the loop changed or wrote it |
| Runner.Run | cmtv-test-nr.py:128-161 | a setup failure gives exit code 1 with nothing processed; otherwise the store ends as RunLoop gives, `total_errors` counts the failed use cases and is at most their number, the file holds the store whenever it changed, and the exit code is 0 |

## Left out

- The HTTP session, TLS settings, timeouts and the OAuth token request (lines 18-39). `Run` takes one flag, `setupFailed`, for any failure while reading the store file, reading the configuration or getting the token. A missing `url_ref`, `url_version` or `token` key in the configuration is not modelled.
- How `call_api` builds its `{status_code, error}` shape (lines 54-59). It depends on `requests` exceptions and on `Response.__bool__`. Both shapes are inputs, with an arbitrary status value.
- Reading and writing files: the YAML configuration, `json.load`, and every `json.dump` (lines 14-16, 86-87, 102-103, 122-123, 130-131). A write is a snapshot of the store. A write that fails or is partial is not modelled.
- The request body is the record as it stands (`Call.body`). How `requests` serialises it is not modelled.
- Logging and console output, including the summary text. `TotalZeroIffAllClean` states which of the two summary lines is printed.
- Floating point: a JSON float is modelled as its exact real value. NaN and infinities, which `json.load` accepts, are not modelled.
- `str` on a `ValueError`, an `AttributeError` or a `TypeError` is modelled by the messages of current CPython. The exact text differs between Python versions.
- The fallback text "Erreur inconnue" at line 101 is never produced, because every error-shaped outcome has an `error` key.
- The order of `for usecase in usecases` is the order of the loaded dict. `Run` receives it as `order`, a list of the store's keys without repeats.
- PyJson.Contains: its contract states when `in` raises and what it yields on a dict. The substring test on a str and the element test on a list are stated only by its definition.
- PyJson.GetItem: its contract states when `data[key]` succeeds and what it yields. Which exception a failure is (KeyError, or the TypeError for a str, a list or another kind) is stated only by its definition.
- The store is a dict from use-case names to JSON values. A `usecases.json` whose top level is a list, a string or another scalar is not modelled. With a number, a boolean or null the iteration at line 141 raises and the script exits with 1 at line 161. A list is iterated item by item and a string character by character; for each, `usecases.get` raises in `process` (line 67) and again in its handler (line 120), so each adds 1 to `total_errors` and the script exits with 0 (an empty string or list gives no use case at all).
- Exceptions raised in the main loop outside the inner `try`, by the prints at lines 142, 148 and 150 and by the summary prints at lines 153 and 155, are not modelled; they too would end at line 161 with exit code 1.
- Strings are sequences of Dafny characters. A lone surrogate such as `"\ud800"`, which `json.load` accepts, has no representation.
