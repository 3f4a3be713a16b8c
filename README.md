# Eco-Revive issue ledger in Dafny

This project models the server side of the Eco-Revive civic issue tracker: the
Flask application in `app.py` that keeps a list of issues (each with a title, a
description, a funding target, the amount collected so far, a status and the
name of the worker who took it) and serves four POST endpoints on it:

- `POST /api/issues` creates an issue. Its id is the last issue's id plus one
  (1 on an empty list). It starts `open`, with nothing collected and no worker.
- `POST /api/issues/<id>/take` moves an `open` issue to `in_progress` and
  records the stripped worker name. It answers "Issue not available" (400) when
  no issue has the id or the issue is not open. Only after that does it check
  the name, answering "Name required" (400) when the stripped name is empty.
- `POST /api/issues/<id>/complete` marks any existing issue `completed`. It
  answers "Issue not found" (404) otherwise.
- `POST /api/issues/<id>/contribute` adds a positive amount to the issue's
  collected amount. It answers 404 for an unknown id, checked first, and
  "Invalid amount" (400) for an amount that is not positive.

Files:

- `pystr.dfy`, module `PyStr`: Python's `str.strip()` over the code points
  for which `str.isspace()` holds.
- `app.dfy`, module `App`: the records and the handlers. Each handler is
  written twice. First as a pure step function on the list (`CreateStep`,
  `TakeStep`, `CompleteStep`, `ContributeStep`). Then as a method of the class
  `IssueStore`, which holds the list in a field, finds the issue with a
  linear search (`Find`) and updates the record in place. Each method is proved
  to produce exactly what its step function gives.

The properties are lemmas about the step functions:

- what each outcome means, in terms of the issue carrying the requested id;
- that every handler keeps the ledger invariant `ValidLedger`. The invariant
  says ids are positive and strictly increasing, collected amounts are non-negative,
  texts and names are stripped, an open issue has no worker and an
  in-progress issue has one;
- that every handler only moves records forward (`Evolves`). Nothing is
  removed or reordered, no identity field changes, collected amounts never
  drop, the status never goes back, and a worker is never replaced once the
  issue has left `open`;
- idempotence of complete, take-at-most-once, additivity of contributions;
- the same facts over any sequence of requests (`Run`).

A request field that may be missing from the JSON body is an `Option`. Its
absence yields the default that `request.json.get` supplies: `""` for texts,
`0` for amounts.

The `target_amount` of a new issue is stored as given, with no bounds check,
as the code does. Negative and zero targets are accepted.

## Model

| member | source | states |
|---|---|---|
| `PyStr.Strip` | app.py:45-46 | `strip()` returns a string with no whitespace at either end, no longer than its input, and empty exactly when the input is all whitespace |
| `PyStr.StripSlice` | app.py:72 | the stripped string is a contiguous slice of the input, and everything cut off on either side is whitespace |
| `PyStr.StripIdempotent` | app.py:45 | stripping an already stripped title, description or name changes nothing |
| `PyStr.StrippedIsFixed` | app.py:72-73 | the strings `strip()` leaves unchanged are exactly those with no whitespace at either end |
| `App.HttpStatus` | app.py:62-105 | success is 200, an unknown issue on complete or contribute is 404, every other refusal is 400 |
| `App.FindFirst` | app.py:67 | the lookup returns the index of the first issue with the id, or nothing exactly when no issue has that id |
| `App.FindFirstUnique` | app.py:85 | with strictly increasing ids, the lookup finds the one issue that carries the id |
| `App.FindFirstSameIds` | app.py:98 | the lookup depends only on the ids, so it gives the same answer after any handler that keeps the ids |
| `App.NextId` | app.py:50 | when ids are strictly increasing, the id given to a new issue exceeds every stored id |
| `App.CreateEffect` | app.py:45-59 | create appends exactly one issue and leaves the earlier ones untouched. The new issue has the stripped title and description, the target as given, nothing collected, status open and no worker. Its id is 1 on an empty list and otherwise new to the list |
| `App.CreatePreservesValid` | app.py:49-59 | create keeps ids strictly increasing and every record well formed |
| `App.TakeEffect` | app.py:64-80 | take answers not available exactly when no issue with the id is open, and name required exactly when the issue is open but the stripped name is empty. On success only that issue changes, to in progress with the stripped name as worker. Every refusal keeps the list |
| `App.TakePreservesValid` | app.py:76-77 | take keeps the ledger invariant; the worker recorded is non-empty and stripped |
| `App.CompleteEffect` | app.py:82-92 | complete answers not found exactly when no issue has the id, and then keeps the list. Otherwise that issue, whatever its status, becomes completed and nothing else changes |
| `App.CompletePreservesValid` | app.py:90 | complete keeps the ledger invariant |
| `App.ContributeEffect` | app.py:95-110 | contribute answers not found exactly when no issue has the id, whatever the amount. It answers invalid amount exactly when the issue exists and the amount is not positive. On success only that issue's collected amount grows, by exactly the amount, and its status is kept. Every refusal keeps the list |
| `App.ContributePreservesValid` | app.py:107 | contribute keeps the ledger invariant; collected amounts stay non-negative |
| `App.CompleteIdempotent` | app.py:85-90 | completing the same id twice gives the same answer and the same list as completing it once |
| `App.TakeOnce` | app.py:69-77 | after a successful take, any further take of that id is refused as not available and changes nothing |
| `App.CompletedNotTakeable` | app.py:69-90 | after a successful complete, the issue can no longer be taken |
| `App.ContributionsAdd` | app.py:104-107 | on any list, two positive contributions to the same id leave the same answer and list as one contribution of their sum |
| `App.ApplyEvolves` | app.py:41-110 | every handler, on any list, removes and reorders nothing. Ids, texts and targets are kept, collected amounts do not drop, statuses do not move back, and a worker is never replaced once an issue has left open |
| `App.ApplyPreservesValid` | app.py:41-110 | every handler keeps the ledger invariant |
| `App.RunPreservesValid` | app.py:41-110 | the ledger invariant holds after any sequence of requests |
| `App.RunEvolves` | app.py:41-110 | over any sequence of requests, records only move forward as in `ApplyEvolves` |
| `App.RunFromEmpty` | app.py:50-59 | starting from the empty list, the issue at position i has id i + 1, and there is exactly one issue per create request served |
| `App.IssueStore.constructor` | app.py:11-16 | a store whose file does not exist yet starts with the empty list, which satisfies the invariant |
| `App.IssueStore.Find` | app.py:67 | the linear search returns the first index whose id matches, or nothing exactly when no issue has the id |
| `App.IssueStore.Create` | app.py:41-62 | the list becomes the create step of the old list, one longer with the old list as prefix; the invariant is kept |
| `App.IssueStore.Take` | app.py:64-80 | answer and new list are those of the take step; a refusal changes nothing; records only move forward; the invariant is kept; on a valid store, not available exactly when no open issue has the id, name required exactly when one does and the stripped name is empty, and on success only the issue with the id becomes in progress with the stripped name as worker |
| `App.IssueStore.Complete` | app.py:82-92 | answer and new list are those of the complete step; a refusal changes nothing; records only move forward; the invariant is kept; on a valid store, not found exactly when no issue has the id, and on success only the issue with the id becomes completed |
| `App.IssueStore.Contribute` | app.py:95-110 | answer and new list are those of the contribute step; a refusal changes nothing; records only move forward; the invariant is kept; on a valid store, not found exactly when no issue has the id, invalid amount exactly when it exists and the amount is not positive, and on success only that issue's collected amount grows by the amount |

## Left out

- `static/script.js`: browser code for the creation form, the take, complete, contribute and success modals, the Escape-key handler and `fetch` calls. Its input checks repeat the server checks modelled here.
- JSON file persistence (`read_json`, `write_json`, `os.makedirs`, app.py:9-25). The list is a field that starts empty. The fall-back to `[]` for an unreadable file is not modelled.
- Flask routing, `render_template` pages and `jsonify`. Answers are the `Outcome` datatype, and `HttpStatus` maps it to the status code.
- Python's `int(...)` coercion of `target_amount` and `amount`, and the exceptions it raises on non-numeric input. Amounts are taken as integers. Truncation of a float amount toward zero is not modelled.
- A JSON `null` or non-string `title`, `description` or `worker`, on which `.strip()` raises. Request fields are strings or absent.
- A request with no JSON body, or with a body that is not a JSON object (`null`, an array), on which `request.json.get` fails. The handlers touch the body only where they read a field, so the model answers as the source on every other path: complete never reads it; take reads it only after the availability check; contribute reads it only after the existence check. The source fails, where the model does not, on create, on take of an open issue and on contribute to an existing issue.
- Negative issue ids in the URL: the route's `<int:issue_id>` converter does not match them, so Flask answers 404 before any handler runs. Request ids are `nat` in the model.
- Concurrent requests racing on the file's read-modify-write cycle. The model is sequential.
- The ledger invariant is proved preserved from any list that satisfies it. A hand-edited file whose ids are not increasing is out of scope. On such a file a new id can repeat an existing one, and lookups then see only the first match.
