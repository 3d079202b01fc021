/** RedisManager.add_to_sum (app.py): the optimistic compare-and-swap loop.
    Each attempt WATCHes the key, reads it, computes current + number, queues
    the SET inside MULTI and EXECs; a WatchError (another client wrote the
    key since the WATCH) counts a retry and starts another attempt, and any
    other store error ends the call with status 500.

    Concurrency is an input: a schedule of rounds says, for each attempt in
    turn, which writes other clients make to the key between its WATCH and
    its EXEC, and whether one of its store calls fails. Past the end of the
    schedule every round is quiet, so every call ends. */
module Add {
  import opened Redis
  import opened Service

  /** Status of the "Max retries exceeded - high contention" exception. */
  const ServiceUnavailable := 503
  /** The retry budget, max_retries. */
  const MaxRetries := 100

  /** What happens around one attempt: the values other clients SET on the
      key between this attempt's WATCH and its EXEC, in order, and whether
      one of this attempt's store calls raises an error other than
      WatchError. */
  datatype Round = Round(writes: seq<int>, fails: bool)

  /** No interference and no failure: the attempt commits. */
  const Quiet := Round([], false)

  /** A round whose EXEC meets a WatchError. */
  predicate Clashing(r: Round)
  {
    !r.fails && r.writes != []
  }

  /** The round of the attempt numbered `k` (counting from 0). */
  function RoundAt(sched: seq<Round>, k: nat): Round
  {
    if k < |sched| then sched[k] else Quiet
  }

  /** The writes other clients make during the first `k` rounds, in order. */
  function Foreign(sched: seq<Round>, k: nat): seq<int>
    requires k <= |sched|
    decreases k
  {
    if k == 0 then [] else sched[0].writes + Foreign(sched[1..], k - 1)
  }

  /** How one attempt ends. */
  datatype Attempt =
    | Committed(newSum: int, store: Store)
    | Conflicted(store: Store)
    | Crashed(store: Store)

  /** One pass of the inner loop body (app.py:84-98): WATCH, GET (absent
      reads as 0), new_sum := current + number, MULTI, SET, EXEC. */
  function Try(s: Store, number: int, r: Round): (a: Attempt)
    ensures a.Committed? <==> r == Quiet
    ensures a.Conflicted? <==> Clashing(r)
    ensures a.Committed? ==> a.newSum == SumOf(s.value) + number
    ensures a.Committed? ==> a.store.value == Some(a.newSum) && a.store.version == s.version + 1
    ensures !a.Committed? ==> a.store == SetAll(s, r.writes)
    ensures a.Conflicted? ==> a.store.value == Some(r.writes[|r.writes| - 1])
  {
    var token := Watch(s);
    var current := SumOf(s.value);
    var newSum := current + number;
    var seen := SetAll(s, r.writes);
    if r.fails then Crashed(seen)
    else
      var (applied, after) := Exec(seen, token, newSum);
      if applied then Committed(newSum, after) else Conflicted(after)
  }

  /** How a whole add_to_sum call ends: its reply, the store it leaves, and
      the final value of retry_count. */
  datatype Run = Run(reply: Reply<int>, store: Store, retries: nat)

  /** A run with `k` more conflicts counted in front of it. */
  function Shift(run: Run, k: nat): Run
  {
    Run(run.reply, run.store, run.retries + k)
  }

  /** The add loop as written (app.py:74-114). After a WatchError the inner
      `while True` starts the next attempt at once, so the outer guard
      `retry_count < max_retries` is never evaluated again and the call
      ends only on a commit or on some other error. */
  function Outcome(s: Store, number: int, sched: seq<Round>): (run: Run)
    ensures run.reply != Error(ServiceUnavailable)
    ensures run.retries <= |sched|
    ensures forall j :: 0 <= j < run.retries ==> Clashing(sched[j])
    ensures !Clashing(RoundAt(sched, run.retries))
    ensures run.reply.Error? <==> RoundAt(sched, run.retries).fails
    ensures run.reply.Error? ==> run.reply.status == InternalError
    ensures run.reply.Error? ==> run.store == SetAll(s, Foreign(sched, run.retries + 1))
    ensures run.reply.Ok? ==>
      run.reply.value == SumOf(SetAll(s, Foreign(sched, run.retries)).value) + number
    ensures run.reply.Ok? ==>
      run.store == Set(SetAll(s, Foreign(sched, run.retries)), run.reply.value)
    decreases |sched|
  {
    match Try(s, number, RoundAt(sched, 0))
    case Committed(n, t) => Run(Ok(n), t, 0)
    case Crashed(t) => Run(Error(InternalError), t, 0)
    case Conflicted(t) =>
      var next := Outcome(t, number, sched[1..]);
      if next.reply.Error? then
        SetAllAppend(s, sched[0].writes, Foreign(sched[1..], next.retries + 1));
        Shift(next, 1)
      else
        SetAllAppend(s, sched[0].writes, Foreign(sched[1..], next.retries));
        Shift(next, 1)
  }

  /** add_to_sum with the loop structure of app.py:77-114. */
  method AddToSum(s: Store, number: int, sched: seq<Round>) returns (reply: Reply<int>, t: Store, retries: nat)
    ensures Run(reply, t, retries) == Outcome(s, number, sched)
    ensures reply.Ok? || reply == Error(InternalError)
  {
    t := s;
    retries := 0;
    // The outer `while retry_count < max_retries` never completes an
    // iteration: its body is the inner `while True`, which is left only by
    // `return` or by an exception. Its guard is therefore evaluated once,
    // with retry_count = 0, exactly as this `if` evaluates it.
    if retries < MaxRetries {
      while true
        invariant retries <= |sched|
        invariant Shift(Outcome(t, number, sched[retries..]), retries) == Outcome(s, number, sched)
        decreases |sched| - retries
      {
        match Try(t, number, RoundAt(sched, retries)) {
          case Committed(newSum, after) =>
            return Ok(newSum), after, retries;
          case Crashed(after) =>
            return Error(InternalError), after, retries;
          case Conflicted(after) =>
            t := after;
            retries := retries + 1;
        }
      }
    }
    reply := Error(ServiceUnavailable);
  }

  /** A conflicted attempt changes nothing of this call's doing: the store
      holds only the other clients' writes, retry_count grows by exactly one,
      and the next attempt WATCHes and reads that fresh store. */
  lemma ConflictRetries(s: Store, number: int, r: Round, rest: seq<Round>)
    requires Clashing(r)
    ensures Outcome(s, number, [r] + rest) == Shift(Outcome(SetAll(s, r.writes), number, rest), 1)
  {
  }

  /** A store error other than WatchError ends the call at once with status
      500: no retry is counted and the store holds only the other clients'
      writes. */
  lemma FailureAborts(s: Store, number: int, r: Round, rest: seq<Round>)
    requires r.fails
    ensures Outcome(s, number, [r] + rest) == Run(Error(InternalError), SetAll(s, r.writes), 0)
  {
  }

  /** Status 503 is never raised: every call ends with a new sum or with 500. */
  lemma NeverExhausted(s: Store, number: int, sched: seq<Round>)
    ensures Outcome(s, number, sched).reply.Ok? || Outcome(s, number, sched).reply == Error(InternalError)
  {
  }

  /** However many attempts in a row meet a WatchError, the call keeps
      retrying and then commits: retry_count ends equal to the number of
      conflicts, with no bound. */
  lemma {:induction false} HostileWriters(s: Store, number: int, sched: seq<Round>)
    requires forall j :: 0 <= j < |sched| ==> Clashing(sched[j])
    ensures Outcome(s, number, sched).retries == |sched|
    ensures Outcome(s, number, sched).reply == Ok(SumOf(SetAll(s, Foreign(sched, |sched|)).value) + number)
    ensures sched != [] ==> Outcome(s, number, sched).reply == Ok(LastWrite(sched) + number)
    decreases |sched|
  {
    if sched != [] {
      HostileWriters(SetAll(s, sched[0].writes), number, sched[1..]);
      assert ([sched[0]] + sched[1..]) == sched;
      ConflictRetries(s, number, sched[0], sched[1..]);
    }
  }

  /** The last value another client wrote during the schedule. */
  function LastWrite(sched: seq<Round>): int
    requires sched != [] && sched[|sched| - 1].writes != []
  {
    var ws := sched[|sched| - 1].writes;
    ws[|ws| - 1]
  }

  /** A concrete schedule past the budget: 101 attempts in a row are beaten
      by another client's write, and the call still succeeds with
      retry_count = 101 > max_retries. */
  lemma RetriesPassBudget(s: Store, number: int)
    ensures var sched := seq(MaxRetries + 1, _ => Round([0], false));
      && Outcome(s, number, sched).retries == MaxRetries + 1
      && Outcome(s, number, sched).reply == Ok(number)
  {
    var sched := seq(MaxRetries + 1, _ => Round([0], false));
    HostileWriters(s, number, sched);
  }

  /** The first `n` rounds all meet a WatchError. */
  predicate ClashPrefix(sched: seq<Round>, n: nat)
  {
    n <= |sched| && forall j :: 0 <= j < n ==> Clashing(sched[j])
  }

  /** The loop as evidently intended: each WatchError goes back to the outer
      guard, so once `budget` conflicts have been counted the call gives up
      with status 503 ("Max retries exceeded - high contention"). */
  function Bounded(s: Store, number: int, sched: seq<Round>, budget: nat): (run: Run)
    ensures run.retries <= budget
    ensures run.reply == Error(ServiceUnavailable) <==> ClashPrefix(sched, budget)
    ensures ClashPrefix(sched, budget) ==> run.retries == budget && run.store == SetAll(s, Foreign(sched, budget))
    ensures !ClashPrefix(sched, budget) ==> run == Outcome(s, number, sched)
    decreases budget
  {
    if budget == 0 then Run(Error(ServiceUnavailable), s, 0)
    else match Try(s, number, RoundAt(sched, 0))
      case Committed(n, t) => Run(Ok(n), t, 0)
      case Crashed(t) => Run(Error(InternalError), t, 0)
      case Conflicted(t) =>
        var next := Bounded(t, number, sched[1..], budget - 1);
        if ClashPrefix(sched[1..], budget - 1) then
          SetAllAppend(s, sched[0].writes, Foreign(sched[1..], budget - 1));
          Shift(next, 1)
        else
          Shift(next, 1)
  }

  /** add_to_sum with the retry budget of 100 enforced. */
  function Intended(s: Store, number: int, sched: seq<Round>): (run: Run)
    ensures run.retries <= MaxRetries
    ensures run.reply == Error(ServiceUnavailable) <==> ClashPrefix(sched, MaxRetries)
    ensures !ClashPrefix(sched, MaxRetries) ==> run == Outcome(s, number, sched)
  {
    Bounded(s, number, sched, MaxRetries)
  }

  /** Under the intended loop a writer that beats every attempt exhausts the
      budget after exactly max_retries conflicts, not earlier and not later. */
  lemma ExhaustedAfterBudget(s: Store, number: int, sched: seq<Round>)
    requires forall j :: 0 <= j < |sched| ==> Clashing(sched[j])
    requires |sched| >= MaxRetries
    ensures Intended(s, number, sched).reply == Error(ServiceUnavailable)
    ensures Intended(s, number, sched).retries == MaxRetries
  {
  }

  /** Unless the first max_retries attempts all conflict, the intended loop
      and the loop as written agree. */
  lemma IntendedAgrees(s: Store, number: int, sched: seq<Round>)
    requires !ClashPrefix(sched, MaxRetries)
    ensures Intended(s, number, sched) == Outcome(s, number, sched)
  {
  }
}
