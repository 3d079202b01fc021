# Distributed abacus counter: a Dafny model

This project models the counter at the heart of the FastAPI "distributed
abacus" service (`app.py`). The service keeps one running sum under the Redis key
`abacus:sum`. Many nodes can read it (`get_sum`), add to it (`add_to_sum`) or
reset it (`reset_sum`), and start-up creates it as 0 when it is absent
(`lifespan`). `add_to_sum` is an optimistic compare-and-swap loop. It runs
WATCH, GET, MULTI, SET and EXEC, and retries whenever EXEC reports a WatchError.

Modules:

- `Redis` (`store.dfy`): the key as an immutable record of a value
  (`Option<int>`, `None` while absent) and a version. Every SET advances the
  version. WATCH hands out the version as a token, and EXEC applies its queued
  SET only while the version still equals the token. `SetAll` applies a batch
  of writes made by other clients.
- `Service` (`service.dfy`): `get_sum`, `reset_sum` and the start-up
  initialisation. A call that fails maps to status 500, modelled by a `fails`
  flag standing for the Redis call raising.
- `Add` (`add.dfy`): `add_to_sum`. Concurrency is an explicit schedule of
  `Round`s. For each attempt in turn, a round gives the values other clients
  SET between that attempt's WATCH and its EXEC, and says whether one of the
  attempt's store calls raises an error other than WatchError. Rounds past the
  end of the schedule are quiet, so the loop ends because the schedule is
  finite, not because of `max_retries`. `Outcome` is the loop as a recursive
  function. `AddToSum` is the loop as a method: the inner `while True` is a
  loop, and the outer `while`, whose body never completes an iteration, is the
  `if` it behaves as. `Bounded`/`Intended` is the loop as its authors evidently
  meant it (see Findings).
- `Interleaving` (`interleaving.dfy`): any number of concurrent `add_to_sum`
  calls, each a client stepping through WATCH, GET and EXEC, under an arbitrary
  interleaving given as a sequence of actions. It proves that no update is lost
  and that the successful adds are linearized. Its steps re-encode `Add.Try`
  at a finer grain, and `StepsMatchTry` proves that one client's WATCH, GET
  and EXEC end exactly as `Add.Try` does on the other clients' writes.

The code shows that a bounded retry was intended: `max_retries = 100`
(app.py:74), the log line "retry {retry_count}/{max_retries}" (app.py:106)
and the 503 "Max retries exceeded" (app.py:114). The bound never takes effect
(see Findings). Every store error in `get_sum`, `add_to_sum` and `reset_sum`
becomes status 500. The model follows the code.

## Model

| member | source | states |
|---|---|---|
| Redis.WatchedCommit | app.py:84-98 | An EXEC against a WATCH token applies the SET exactly when no other write reached the key in between; otherwise the store keeps the other clients' writes |
| Service.GetSum | app.py:60-67 | The reply is the stored integer, or 0 when the key is absent; a store failure gives 500; the store is never modified |
| Service.ResetSum | app.py:116-124 | On success the key holds 0, the version advances and the reply is `true`; a failure gives 500 and leaves the store as it was |
| Service.ResetThenGet | app.py:116-121 | A read right after a successful reset returns 0 |
| Service.ReadAfterWrite | app.py:60-64 | A read right after a SET of n returns n |
| Service.Bootstrap | app.py:151-154 | Start-up writes 0 only when the key is absent and leaves a present value unchanged |
| Service.BootstrapIdempotent | app.py:151-154 | Running the start-up initialisation twice has the effect of running it once |
| Service.BootstrapKeepsSum | app.py:151-154 | Start-up never changes the sum a reader sees |
| Add.Try | app.py:84-101 | One attempt commits exactly when nobody wrote between WATCH and EXEC, and then stores and returns the value read plus `number`; on a WatchError its SET is not applied and the key keeps the interfering value |
| Add.Outcome | app.py:74-114 | The call ends after exactly the leading run of conflicted attempts; 503 never occurs; on success the new sum is the fresh value read in the last attempt plus `number` and the store holds it; on a store error the reply is 500 and the store holds only other clients' writes |
| Add.AddToSum | app.py:69-114 | The loop, with its inner `while True` and its outer guard evaluated once, computes exactly the outcome above and never replies 503 |
| Add.ConflictRetries | app.py:103-108 | A conflicted attempt adds exactly one to retry_count, leaves only the other clients' writes, and the next attempt re-watches and re-reads that fresh store |
| Add.FailureAborts | app.py:110-112 | A store error other than WatchError ends the call at once with 500, no retry, and no write by this call |
| Add.NeverExhausted | app.py:77-114 | Every call ends with a new sum or with 500; the 503 raise is unreachable |
| Add.HostileWriters | app.py:81-108 | Any number of consecutive conflicts is retried without bound; retry_count ends equal to that number and the call succeeds on top of the last interfering value |
| Add.RetriesPassBudget | app.py:74-108 | A concrete schedule of 101 conflicts gives a successful call with retry_count 101, above max_retries |
| Add.Bounded | app.py:74-114 | With the retry guard re-checked, the call gives up with 503 exactly when the first `budget` attempts all conflict, after exactly `budget` retries; otherwise it agrees with the loop as written |
| Add.Intended | app.py:74-114 | The intended add never counts more than 100 retries, answers 503 exactly when the first 100 attempts all conflict, and otherwise agrees with the loop as written |
| Add.ExhaustedAfterBudget | app.py:114 | Under the intended loop a writer that beats every attempt yields 503 after exactly 100 retries |
| Add.IntendedAgrees | app.py:74-114 | Unless the first 100 attempts all conflict, the intended loop and the loop as written give the same outcome |
| Interleaving.NoLostUpdates | app.py:69-101 | Under every interleaving, the store holds the initial sum plus the numbers of exactly the calls that returned, each once; the returned values are the running sums of one serial order |
| Interleaving.AllAddsApplied | app.py:69-101 | Once every call has returned, the store holds the initial sum plus the sum of all numbers |
| Interleaving.ThreeCallers | app.py:69-101 | Adds of 10, 20 and 30 to a fresh key leave 60, whatever the interleaving |
| Interleaving.StepsMatchTry | app.py:84-108 | One client's WATCH, GET and EXEC, with other clients' SETs landing in between, leave the store and the client exactly as one attempt of `Add.Try` on those writes |
| Interleaving.OthersOnlySet | app.py:95-98 | Another client's step leaves this client's phase and retry_count alone and either leaves the store alone or SETs the key to its staged sum |
| Interleaving.ConflictConvergence | app.py:84-108 | Of two calls staged on the same snapshot, the first EXEC applies; the second meets a WatchError, counts one retry, and then reads the first call's result |

## Left out

- Redis connection set-up and tear-down (`connect`, `disconnect`, environment variables, ping): network I/O and configuration.
- `get_stats`: a pass-through of Redis INFO that returns an empty mapping on error.
- The FastAPI application, pydantic models, endpoint handlers, health check, logging middleware, `get_timestamp` and `get_node_id`: HTTP plumbing, wall-clock time and environment look-ups.
- `asyncio.sleep(self.retry_delay)` between attempts is a no-op step; real time and the asyncio scheduler are not modelled. The unused `lock_timeout` field is not modelled either.
- Value encoding: the key holds an `Option<int>` rather than a string. An empty string, which `int(value) if value else 0` reads as 0, and non-numeric contents, on which `int()` raises, are not modelled as stored values. The resulting exception in `get_sum` or `add_to_sum` falls under the generic failure flag.
- A store error is modelled as a call the server did not apply. An error raised after the server already applied a SET is not modelled.
- Start-up failure: an exception raised inside `lifespan` stops the service and is not modelled. Start-up is a pure function of the store, and a write landing between its GET and its SET is not modelled.
- In `Add`, other clients' writes in a round land after the attempt's GET. A write landing between WATCH and GET changes only the value read by an attempt that then conflicts and discards it, so the outcomes are the same.
- Add.AddToSum: the outer `while retry_count < max_retries` (app.py:77) is written as an `if`. Its body is the inner `while True`, which is left only by `return` or an exception, so the outer guard is evaluated exactly once, with retry_count 0. A literal outer `while` would need a termination proof for a loop whose body never finishes, which Dafny can only discharge vacuously. The method therefore builds in the single evaluation of the guard rather than deriving it.
- Cancellation of a call in the middle of its loop (client disconnect): asyncio cancellation is not modelled.
- `Interleaving` covers concurrent adds only. A reset or start-up write racing with adds is the documented last-writer-wins race, and no lost-update property holds for it. In `Add`, other clients' writes are arbitrary values, which covers resets by other nodes.

## Findings

| source | as written | input that shows it | evidently intended | confidence | as-written member | corrected member |
|---|---|---|---|---|---|---|
| app.py:77-114 | After a WatchError, `continue` restarts the inner `while True`, which is left only by `return` or an exception. The outer guard `retry_count < max_retries` is evaluated once, with retry_count 0. So retry_count can grow without bound, and the 503 "Max retries exceeded" raise is unreachable. | 101 consecutive attempts each beaten by another client's write: the call keeps retrying and succeeds with retry_count 101 (`Add.RetriesPassBudget`) | Give up with 503 once 100 conflicts have been counted | high; not executed | Add.Outcome | Add.Bounded |
