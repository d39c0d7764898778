# Minter validator guard — a Dafny model

The guard watches one Minter validator. It is given:

- a list of API endpoints;
- the validator's public key;
- a pre-signed "set candidate off" transaction;
- a missed-blocks threshold;
- a poll interval.

At construction it checks that the transaction decodes to a set-candidate-off transaction. It then reads the sender's nonce from the first endpoint that answers, and the transaction's nonce must equal it. Tracking then loops forever. Each iteration asks the endpoints, in order, for the validator's missed-blocks count. A "validator not found" (404) error is benign. Any other error in the reply is logged. A count at or above the threshold makes the guard send the prepared transaction, again trying the endpoints in order. Every iteration catches its own errors and ends in one sleep.

Modules:

- `Wrappers`: `Option` and `Result`.
- `MinterApi`: what the collaborators hand the guard.
  - `Call<T>` is what one endpoint's client does when asked something: it raised an exception, or it returned a value.
  - The replies of the missed-blocks query and of the send, and the decoded transaction.
- `Events`: what the guard does that can be observed.
  - An `Event` is a remote call (`Request`), an info, error or warning log record, or a sleep.
  - A log is a sequence of `Entry` values, each standing for a few events (`Records`). Trying one endpoint is one `Tried` entry: the info record announcing the attempt (when announced), the call, and the error record of its exception (when it raised).
  - `Of(k, log)` is the view of one kind of record in a log, and `OfSelects` proves it equal to filtering the full record stream.
- `Failover`: the first-success loop the guard runs three times.
  - `Try` is the loop itself, with its invariants.
  - `FailoverLog` and `Outcome` specify it.
  - `LoopView`/`LoopRecords` give what the loop records, kind by kind.
- `MinterGuard`: the `Guard` class with its configuration as fields.
  - `CheckSetOffTx` and `Create` model construction.
  - `Step`, `Act` and `SendSetOff` model one iteration of `track`, and `Track` models a run of iterations.
  - Each method is proved to produce what the functions `Iteration`, `Verdict`, `SetOff` and `Run` specify.
- `GuardProperties`: what an iteration and a run of iterations record, kind by kind, and the behaviour the guard promises: the threshold test, the 404 case, exhaustion, the warning, one sleep per iteration, and no memory between iterations.

When every endpoint raises on the status query, an iteration logs one error per endpoint *and* one more for the exhaustion. The bare `raise` with no active exception becomes a `RuntimeError`, which the loop's handler logs.

## Model

| member | source | states |
|---|---|---|
| Events.KeepSelects | minterguard/guard.py:90-100 | the records of a kind that one entry stands for are exactly those its expansion (announcement, call, exception record) holds |
| Events.OfSelects | minterguard/guard.py:86-147 | the per-kind view of a log equals filtering the full, ordered record stream by that kind |
| Failover.FirstReturned | minterguard/guard.py:90-95 | the index where the loop stops is at most the list length, and when inside the list the call there returned |
| Failover.FirstReturnedIs | minterguard/guard.py:93-100 | every endpoint before the one where the loop stops raised |
| Failover.OutcomeIs | minterguard/guard.py:89-102 | the loop leaves nothing exactly when every call raised; otherwise it leaves the value of a call that returned after all earlier ones raised |
| Failover.AttemptCountIs | minterguard/guard.py:90-95 | among the endpoints called, only the last can have returned: the first return ends the search |
| Failover.AttemptsLogIs | minterguard/guard.py:90-100 | entry j of the attempts log is the attempt on endpoint j, with its URL, request and exception |
| Failover.Try | minterguard/guard.py:89-102 | the loop's result is the first returned value (None when all raise), and its log is the attempts on endpoints 0..k where k is the first that returned |
| Failover.NumberedAt | minterguard/guard.py:90-94 | the calls of n attempts are endpoints 0, 1, ..., n-1 in order, each with the same request |
| Failover.RaisedRecordsAt | minterguard/guard.py:96-100 | before the first return, every call raised and left exactly one error record carrying its exception |
| Failover.CallsInOrder | minterguard/guard.py:90-95 | the loop calls the endpoints in list order, each once |
| Failover.ErrorsInOrder | minterguard/guard.py:96-100 | the loop logs one error per raising call, in endpoint order |
| Failover.InfosInOrder | minterguard/guard.py:90-92 | attempts after the first are announced with their index and URL, only in a loop that announces |
| Failover.PayloadsUnchanged | minterguard/guard.py:122-125 | every send carries the request's transaction unchanged, once per endpoint tried |
| Failover.NoSleeps | minterguard/guard.py:90-100 | the loop does not sleep |
| Failover.NoWarnings | minterguard/guard.py:90-100 | the loop logs no warning |
| Failover.RaisedBeforeReturn | minterguard/guard.py:93-95 | the call that returns leaves no error record |
| Failover.LoopRecords | minterguard/guard.py:90-100 | what a whole loop records of each kind: the numbered calls, the sends when the request is a transaction, the announcements when asked for, the errors of the raising calls, no warning and no sleep |
| MinterGuard.Guard.constructor | minterguard/guard.py:39-56 | the guard keeps the endpoints, key, transaction, threshold and interval it is given; the threshold defaults to 4 and the interval to 1000 ms |
| MinterGuard.Guard.CheckSetOffTx | minterguard/guard.py:58-79 | an undecodable transaction or one of another kind is refused before any endpoint is asked; otherwise the nonce is read with failover and a mismatch, including no endpoint answering, is refused |
| MinterGuard.Guard.Create | minterguard/guard.py:39-79 | a guard is built iff the transaction is a set-candidate-off transaction whose nonce is the first nonce an endpoint returns, and then it holds the given configuration (threshold 4 and interval 1000 ms unless given); otherwise the error names the first check that failed (undecodable, wrong kind, or the nonce mismatch with the nonce found, none when no endpoint answered); the log is the nonce loop's (its failed calls' error records) when the kind check passes, and empty otherwise |
| MinterGuard.Guard.Step | minterguard/guard.py:86-147 | one iteration produces exactly the log `Iteration` specifies |
| MinterGuard.Guard.Act | minterguard/guard.py:104-147 | a returned reply is handled as `Verdict` specifies: 404 only sleeps, another error or an unreadable count is logged, a due count dispatches, and the sleep follows |
| MinterGuard.Guard.SendSetOff | minterguard/guard.py:118-138 | the dispatch produces exactly the log `SetOff` specifies |
| MinterGuard.Guard.Track | minterguard/guard.py:86-147 | a run of iterations produces `Run`, the iterations' logs one after the other |
| GuardProperties.SetOffRecords | minterguard/guard.py:118-138 | what a dispatch records of each kind: its send loop's records, then the error of its exhaustion or remote error, then the warning when it is taken |
| GuardProperties.IterationRecords | minterguard/guard.py:86-147 | what an iteration records of each kind: the query loop's records, the dispatch's when due, the query's own failure, and the sleep |
| GuardProperties.IterationSleepsOnce | minterguard/guard.py:104-147 | every iteration sleeps exactly once, for the configured interval, on the 404 path too |
| GuardProperties.IterationEndsAsleep | minterguard/guard.py:139-147 | no error escapes an iteration: its last entry is the sleep |
| GuardProperties.CallsOfIteration | minterguard/guard.py:88-133 | the calls of an iteration are the query to endpoints 0.. up to the first that returns, then, only when due, the send to endpoints 0.. up to the first that returns |
| GuardProperties.SendsOfIteration | minterguard/guard.py:118-125 | the prepared transaction is sent unchanged, only when due, to endpoints in order up to the first that returns |
| GuardProperties.DispatchIffDue | minterguard/guard.py:114-118 | something is sent iff the count read is at least the threshold (equality included) |
| GuardProperties.InfosOfIteration | minterguard/guard.py:90-124 | only the query loop announces its attempts, one per endpoint after the first up to the one that returned; the dispatch announces nothing |
| GuardProperties.WarningIffAccepted | minterguard/guard.py:131-138 | the set-off warning, with the count, is logged iff a due dispatch was answered without an error |
| GuardProperties.ErrorsOfIteration | minterguard/guard.py:96-143 | the error records of an iteration: the query's raising endpoints, then when due the send's raising endpoints and the dispatch's own failure, then the query's own failure |
| GuardProperties.RejectedDispatchLogged | minterguard/guard.py:121-143 | a due dispatch that is not taken logs every failed send and then the exhaustion or the remote error, and no warning |
| GuardProperties.NotFoundIsQuiet | minterguard/guard.py:105-111 | a 404 reply ends the iteration with the query loop and one sleep: no error of its own, nothing sent, no warning |
| GuardProperties.OtherErrorLoggedOnce | minterguard/guard.py:104-143 | any other error reply is logged once after the query's failed endpoints, and nothing is sent |
| GuardProperties.StatusExhausted | minterguard/guard.py:90-143 | when every endpoint raises on the query, the iteration logs one error per endpoint then the exhaustion, and sends nothing |
| GuardProperties.RunSnoc | minterguard/guard.py:86-147 | a run on one round more is the run so far followed by that round's iteration |
| GuardProperties.RunAppend | minterguard/guard.py:86-147 | iterations keep no state: the run of two stretches of rounds is one run after the other |
| GuardProperties.RunSleeps | minterguard/guard.py:145-147 | a run sleeps once per iteration, always for the configured interval |
| GuardProperties.RetriedWhileDue | minterguard/guard.py:86-147 | iteration t of a run depends on round t alone, so a failed dispatch is attempted again whenever a later round is due, and only then |

## Left out

- The Minter API clients (`get_nonce`, `get_missed_blocks`, `send_transaction`) are not modelled as network calls. Each endpoint's behaviour is an input: what its call raised or returned. Timeouts, blocking and transport details are not modelled.
- `MinterTx.from_raw` and the transaction classes are an input function `decode`. It yields nothing when decoding raises, and otherwise the kind, sender and nonce.
- Exceptions are opaque values. The text of a log record (`ClassName: message`) is not built, only the cause it reports.
- Debug-level log records (lines 109, 115 and 146) are not modelled. Neither are the logger, formatter, handler and log-level setup (lines 25-31 and 162-168).
- `time.sleep` is a `Sleep` record carrying the interval, not a real wait.
- The `__main__` block (lines 150-214) is not modelled: argument and config-file parsing, and the exit on a startup error.
- `int(missed_blocks)` and `int(sleep_time_ms)` are not modelled. The model takes integers directly, and the interval as a natural number; a negative interval would make `time.sleep` raise outside the handler.
- A reply is modelled as an optional error body plus an optional missed-blocks count. A missing count or one `int()` cannot convert is a missing count, and a missing error code is a missing code; both are read as the `KeyError`, `ValueError` or `TypeError` the handler logs (a `null` count or `result`, or a truthy error that is not a dictionary, raises `TypeError`). An error value that is present but falsy (such as an empty dict) is modelled as absent. Replies that are not dictionaries at all are not modelled.
- MinterGuard.Guard.Track: the endless `while True` loop is modelled over a finite sequence of rounds, one per iteration; a run of any length is covered, not an infinite one.
- `Raised` stands for an exception that is an `Exception` subclass, which the `except Exception` clauses at lines 96, 126 and 139 catch. `KeyboardInterrupt`, `SystemExit` and other `BaseException`s escape `track` (and construction) and are not modelled.
- minterguard/txgenerator.py, txgenerator.py and setup.py are not part of this model: they are interactive key and transaction generation scripts and packaging metadata.
