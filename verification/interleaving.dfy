/** Many add_to_sum calls running at once against the one key, with every
    interleaving of their store calls. Each call is a client that WATCHes the
    key, GETs it (staging new_sum = current + its number) and EXECs; an EXEC
    that meets a WatchError sends the client back to WATCH with retry_count
    one higher. A schedule of actions chooses which client takes its next
    store call, so the interleaving is an input and the whole system is
    sequential. */
module Interleaving {
  import opened Redis
  import Add

  /** Where one add_to_sum call stands. */
  datatype Phase =
    | Idle                           // about to WATCH: first attempt, or after a WatchError
    | Watched(token: nat)            // WATCH done, GET not yet
    | Staged(token: nat, newSum: int) // GET done, SET of new_sum queued after MULTI
    | Done(newSum: int)              // EXEC applied; the call returned new_sum

  /** The next store call of one client. */
  datatype Action = DoWatch(client: nat) | DoGet(client: nat) | DoExec(client: nat)

  /** The store, each client's phase and retry_count, and the clients whose
      EXEC was applied, in the order the store applied them. */
  datatype World = World(store: Store, phases: seq<Phase>, retries: seq<nat>, log: seq<nat>)

  predicate WellFormed(w: World, deltas: seq<int>)
  {
    |w.phases| == |deltas| && |w.retries| == |deltas|
  }

  /** Every client about to make its first attempt; `deltas[c]` is the number
      client `c` adds. */
  function Start(init: Store, deltas: seq<int>): (w: World)
    ensures WellFormed(w, deltas)
  {
    World(init, seq(|deltas|, _ => Idle), seq(|deltas|, _ => 0), [])
  }

  /** One store call. An action a client cannot take in its phase (or of a
      client that does not exist) changes nothing. */
  function Next(w: World, deltas: seq<int>, a: Action): (w': World)
    requires WellFormed(w, deltas)
    ensures WellFormed(w', deltas)
  {
    var c := a.client;
    if c >= |deltas| then w
    else match (a, w.phases[c])
      case (DoWatch(_), Idle) =>
        w.(phases := w.phases[c := Watched(Watch(w.store))])
      case (DoGet(_), Watched(token)) =>
        w.(phases := w.phases[c := Staged(token, SumOf(w.store.value) + deltas[c])])
      case (DoExec(_), Staged(token, n)) =>
        var (applied, t) := Exec(w.store, token, n);
        if applied then World(t, w.phases[c := Done(n)], w.retries, w.log + [c])
        else w.(phases := w.phases[c := Idle], retries := w.retries[c := w.retries[c] + 1])
      case _ => w
  }

  /** The world after the actions `acts`, in order. */
  function Play(w: World, deltas: seq<int>, acts: seq<Action>): (w': World)
    requires WellFormed(w, deltas)
    ensures WellFormed(w', deltas)
    decreases |acts|
  {
    if acts == [] then w
    else Next(Play(w, deltas, acts[..|acts| - 1]), deltas, acts[|acts| - 1])
  }

  /** The sum of the numbers of the clients whose add has returned. */
  function DoneTotal(deltas: seq<int>, phases: seq<Phase>): int
    requires |deltas| == |phases|
    decreases |phases|
  {
    if phases == [] then 0
    else
      var k := |phases| - 1;
      DoneTotal(deltas[..k], phases[..k]) + (if phases[k].Done? then deltas[k] else 0)
  }

  function Sum(deltas: seq<int>): int
    decreases |deltas|
  {
    if deltas == [] then 0 else Sum(deltas[..|deltas| - 1]) + deltas[|deltas| - 1]
  }

  /** Changing one client's phase changes the returned total by that
      client's number exactly when it enters or leaves Done. */
  lemma {:induction false} DoneTotalUpdate(deltas: seq<int>, phases: seq<Phase>, c: nat, p: Phase)
    requires |deltas| == |phases| && c < |phases|
    ensures DoneTotal(deltas, phases[c := p])
         == DoneTotal(deltas, phases) + (if p.Done? then deltas[c] else 0)
            - (if phases[c].Done? then deltas[c] else 0)
    decreases |phases|
  {
    var k := |phases| - 1;
    if c == k {
      assert phases[c := p][..k] == phases[..k];
    } else {
      assert phases[c := p][..k] == phases[..k][c := p];
      DoneTotalUpdate(deltas[..k], phases[..k], c, p);
    }
  }

  /** Once every call has returned, the returned total is the sum of all
      numbers. */
  lemma {:induction false} DoneTotalAll(deltas: seq<int>, phases: seq<Phase>)
    requires |deltas| == |phases|
    requires forall c :: 0 <= c < |phases| ==> phases[c].Done?
    ensures DoneTotal(deltas, phases) == Sum(deltas)
    decreases |phases|
  {
    if phases != [] {
      var k := |phases| - 1;
      DoneTotalAll(deltas[..k], phases[..k]);
    }
  }

  /** The value a Done client returned (0 for a client that has not). */
  function Returned(p: Phase): int
  {
    if p.Done? then p.newSum else 0
  }

  /** A Watched or Staged client's token never lies ahead of the store, and a
      Staged client whose token is still current staged exactly the current
      sum plus its number. */
  predicate TokenSound(w: World, deltas: seq<int>, c: nat)
    requires WellFormed(w, deltas) && c < |deltas|
  {
    match w.phases[c]
    case Watched(token) => token <= w.store.version
    case Staged(token, n) =>
      token <= w.store.version && (token == w.store.version ==> n == SumOf(w.store.value) + deltas[c])
    case _ => true
  }

  /** The log lists exactly the Done clients, each once. */
  predicate LogExact(w: World, deltas: seq<int>)
    requires WellFormed(w, deltas)
  {
    && (forall i :: 0 <= i < |w.log| ==> w.log[i] < |deltas| && w.phases[w.log[i]].Done?)
    && (forall c :: 0 <= c < |deltas| && w.phases[c].Done? ==> c in w.log)
    && (forall i, j :: 0 <= i < j < |w.log| ==> w.log[i] != w.log[j])
  }

  /** Linearizability: applied one at a time in log order, starting from
      `base`, each add returned the previous value plus its own number, and
      the store holds the value the last one returned. */
  predicate Chain(w: World, deltas: seq<int>, base: int)
    requires WellFormed(w, deltas)
    requires forall i :: 0 <= i < |w.log| ==> w.log[i] < |deltas|
  {
    && (|w.log| == 0 ==> SumOf(w.store.value) == base)
    && (|w.log| > 0 ==> Returned(w.phases[w.log[0]]) == base + deltas[w.log[0]])
    && (forall i :: 0 < i < |w.log| ==>
          Returned(w.phases[w.log[i]]) == Returned(w.phases[w.log[i - 1]]) + deltas[w.log[i]])
    && (|w.log| > 0 ==> SumOf(w.store.value) == Returned(w.phases[w.log[|w.log| - 1]]))
  }

  predicate Inv(w: World, deltas: seq<int>, base: int)
  {
    && WellFormed(w, deltas)
    && (forall c :: 0 <= c < |deltas| ==> TokenSound(w, deltas, c))
    && LogExact(w, deltas)
    && Chain(w, deltas, base)
    && SumOf(w.store.value) == base + DoneTotal(deltas, w.phases)
  }

  lemma {:induction false} StartInv(init: Store, deltas: seq<int>)
    ensures Inv(Start(init, deltas), deltas, SumOf(init.value))
  {
    var w := Start(init, deltas);
    DoneTotalNone(deltas, w.phases);
  }

  lemma {:induction false} DoneTotalNone(deltas: seq<int>, phases: seq<Phase>)
    requires |deltas| == |phases|
    requires forall c :: 0 <= c < |phases| ==> !phases[c].Done?
    ensures DoneTotal(deltas, phases) == 0
    decreases |phases|
  {
    if phases != [] {
      var k := |phases| - 1;
      DoneTotalNone(deltas[..k], phases[..k]);
    }
  }

  /** A step that only moves client `c` between phases other than Done keeps
      the invariant, provided `c`'s new token is sound. */
  lemma MoveKeepsInv(w: World, deltas: seq<int>, base: int, c: nat, p: Phase, w': World)
    requires Inv(w, deltas, base)
    requires c < |deltas| && !w.phases[c].Done? && !p.Done?
    requires w' == w.(phases := w.phases[c := p]) || w' == w.(phases := w.phases[c := p], retries := w.retries[c := w.retries[c] + 1])
    requires TokenSound(w', deltas, c)
    ensures Inv(w', deltas, base)
  {
    DoneTotalUpdate(deltas, w.phases, c, p);
    forall d | 0 <= d < |deltas|
      ensures TokenSound(w', deltas, d)
    {
      if d != c {
        assert TokenSound(w, deltas, d);
      }
    }
    forall i | 0 <= i < |w.log|
      ensures w.log[i] != c
    {
      assert w.phases[w.log[i]].Done?;
    }
  }

  /** An applied EXEC keeps the invariant: the store now holds the staged
      sum, the client is Done and appended to the log. */
  lemma CommitKeepsInv(w: World, deltas: seq<int>, base: int, c: nat, w': World)
    requires Inv(w, deltas, base)
    requires c < |deltas| && w.phases[c].Staged? && w.phases[c].token == w.store.version
    requires w' == World(Set(w.store, w.phases[c].newSum), w.phases[c := Done(w.phases[c].newSum)], w.retries, w.log + [c])
    ensures Inv(w', deltas, base)
  {
    var n := w.phases[c].newSum;
    assert TokenSound(w, deltas, c);
    assert n == SumOf(w.store.value) + deltas[c];
    DoneTotalUpdate(deltas, w.phases, c, Done(n));
    assert SumOf(w'.store.value) == base + DoneTotal(deltas, w'.phases);
    forall i | 0 <= i < |w.log|
      ensures w.log[i] != c
    {
      assert w.phases[w.log[i]].Done?;
    }
    forall d | 0 <= d < |deltas|
      ensures TokenSound(w', deltas, d)
    {
      if d != c {
        assert TokenSound(w, deltas, d);
      }
    }
    forall i | 0 <= i < |w'.log|
      ensures w'.log[i] < |deltas| && w'.phases[w'.log[i]].Done?
    {
      if i < |w.log| {
        assert w'.log[i] == w.log[i];
      }
    }
    assert LogExact(w', deltas);
    forall i | 0 < i < |w'.log|
      ensures Returned(w'.phases[w'.log[i]]) == Returned(w'.phases[w'.log[i - 1]]) + deltas[w'.log[i]]
    {
      if i < |w.log| {
        assert w'.log[i] == w.log[i] && w'.log[i - 1] == w.log[i - 1];
      } else {
        assert w'.log[i] == c && w'.log[i - 1] == w.log[|w.log| - 1];
      }
    }
    if |w.log| > 0 {
      assert w'.log[0] == w.log[0];
    }
    assert Chain(w', deltas, base);
  }

  lemma NextKeepsInv(w: World, deltas: seq<int>, base: int, a: Action)
    requires Inv(w, deltas, base)
    ensures Inv(Next(w, deltas, a), deltas, base)
  {
    var c := a.client;
    if c < |deltas| {
      var w' := Next(w, deltas, a);
      match (a, w.phases[c])
      case (DoWatch(_), Idle) =>
        MoveKeepsInv(w, deltas, base, c, Watched(w.store.version), w');
      case (DoGet(_), Watched(token)) =>
        assert TokenSound(w, deltas, c);
        MoveKeepsInv(w, deltas, base, c, w'.phases[c], w');
      case (DoExec(_), Staged(token, n)) =>
        if token == w.store.version {
          CommitKeepsInv(w, deltas, base, c, w');
        } else {
          MoveKeepsInv(w, deltas, base, c, Idle, w');
        }
      case _ =>
    }
  }

  lemma {:induction false} PlayKeepsInv(w: World, deltas: seq<int>, base: int, acts: seq<Action>)
    requires Inv(w, deltas, base)
    ensures Inv(Play(w, deltas, acts), deltas, base)
    decreases |acts|
  {
    if acts != [] {
      PlayKeepsInv(w, deltas, base, acts[..|acts| - 1]);
      NextKeepsInv(Play(w, deltas, acts[..|acts| - 1]), deltas, base, acts[|acts| - 1]);
    }
  }

  /** No lost updates: under every interleaving of the calls' store calls,
      the store holds the initial sum plus the numbers of exactly the calls
      that have returned, each counted once, and the values those calls
      returned are the running sums of one serial order of them. */
  lemma {:induction false} NoLostUpdates(init: Store, deltas: seq<int>, acts: seq<Action>)
    ensures var w := Play(Start(init, deltas), deltas, acts);
      && SumOf(w.store.value) == SumOf(init.value) + DoneTotal(deltas, w.phases)
      && LogExact(w, deltas)
      && Chain(w, deltas, SumOf(init.value))
  {
    StartInv(init, deltas);
    PlayKeepsInv(Start(init, deltas), deltas, SumOf(init.value), acts);
  }

  /** Once every call has returned, the store holds the initial sum plus the
      sum of all numbers, whatever the interleaving. */
  lemma {:induction false} AllAddsApplied(init: Store, deltas: seq<int>, acts: seq<Action>)
    requires var w := Play(Start(init, deltas), deltas, acts);
      forall c :: 0 <= c < |deltas| ==> w.phases[c].Done?
    ensures SumOf(Play(Start(init, deltas), deltas, acts).store.value) == SumOf(init.value) + Sum(deltas)
  {
    var w := Play(Start(init, deltas), deltas, acts);
    NoLostUpdates(init, deltas, acts);
    DoneTotalAll(deltas, w.phases);
  }

  /** Two calls that staged their SET against the same snapshot: the first
      EXEC applies, the second meets a WatchError and goes back with its
      retry_count one higher, and its next WATCH and GET see the sum the
      first call returned. */
  lemma ConflictConvergence(w: World, deltas: seq<int>, base: int, a: nat, b: nat)
    requires Inv(w, deltas, base)
    requires a < |deltas| && b < |deltas| && a != b
    requires w.phases[a].Staged? && w.phases[a].token == w.store.version
    requires w.phases[b].Staged? && w.phases[b].token == w.store.version
    ensures var w2 := Next(Next(w, deltas, DoExec(a)), deltas, DoExec(b));
      && w2.phases[a] == Done(SumOf(w.store.value) + deltas[a])
      && w2.phases[b] == Idle
      && w2.retries[b] == w.retries[b] + 1
      && w2.store.value == Some(SumOf(w.store.value) + deltas[a])
    ensures var w2 := Next(Next(w, deltas, DoExec(a)), deltas, DoExec(b));
      Next(Next(w2, deltas, DoWatch(b)), deltas, DoGet(b)).phases[b]
        == Staged(w.store.version + 1, SumOf(w.store.value) + deltas[a] + deltas[b])
  {
    assert TokenSound(w, deltas, a);
    var n := SumOf(w.store.value) + deltas[a];
    var w1 := Next(w, deltas, DoExec(a));
    assert w1.store == Set(w.store, n) && w1.phases == w.phases[a := Done(n)];
    var w2 := Next(w1, deltas, DoExec(b));
    assert w2.store == w1.store && w2.phases == w1.phases[b := Idle];
    var w3 := Next(w2, deltas, DoWatch(b));
    assert w3.store == w1.store && w3.phases == w2.phases[b := Watched(w1.store.version)];
  }

  /** Three calls adding 10, 20 and 30 to a fresh key: once all have
      returned, the sum is 60 whatever the interleaving. */
  lemma {:induction false} ThreeCallers(acts: seq<Action>)
    requires var w := Play(Start(Fresh, [10, 20, 30]), [10, 20, 30], acts);
      forall c :: 0 <= c < 3 ==> w.phases[c].Done?
    ensures SumOf(Play(Start(Fresh, [10, 20, 30]), [10, 20, 30], acts).store.value) == 60
  {
    AllAddsApplied(Fresh, [10, 20, 30], acts);
    var d := [10, 20, 30];
    assert d[..2][..1] == d[..1] && d[..1][..0] == [];
    assert Sum(d[..1]) == 10;
    assert Sum(d[..2]) == 30;
    assert Sum(d) == 60;
  }

  /** Another client's step leaves client `c` where it was, and either leaves
      the store alone or SETs the key: seen from `c`, the others' steps are
      the writes of a round in `Add`. */
  lemma OthersOnlySet(w: World, deltas: seq<int>, a: Action, c: nat)
    requires WellFormed(w, deltas) && c < |deltas| && a.client != c
    ensures Next(w, deltas, a).phases[c] == w.phases[c]
    ensures Next(w, deltas, a).retries[c] == w.retries[c]
    ensures || Next(w, deltas, a).store == w.store
            || (&& a.client < |deltas| && w.phases[a.client].Staged?
                && Next(w, deltas, a).store == Set(w.store, w.phases[a.client].newSum))
  {
  }

  /** One client's WATCH, GET and EXEC are one attempt of `Add.Try`: when
      the key received the other clients' SETs `early` between its WATCH and
      its GET and `late` between its GET and its EXEC, the EXEC leaves the
      store and the client exactly as Try does on those writes. */
  lemma StepsMatchTry(w: World, deltas: seq<int>, c: nat, early: seq<int>, late: seq<int>, w1: World, w2: World)
    requires WellFormed(w, deltas) && c < |deltas| && w.phases[c] == Idle
    requires WellFormed(w1, deltas) && WellFormed(w2, deltas)
    requires w1.phases[c] == Next(w, deltas, DoWatch(c)).phases[c]
    requires w1.store == SetAll(w.store, early)
    requires w2.phases[c] == Next(w1, deltas, DoGet(c)).phases[c]
    requires w2.store == SetAll(w1.store, late)
    ensures var a := Add.Try(w.store, deltas[c], Add.Round(early + late, false));
      var w3 := Next(w2, deltas, DoExec(c));
      && w3.store == a.store
      && (a.Committed? <==> w3.phases[c].Done?)
      && (a.Committed? ==> w3.phases[c] == Done(a.newSum))
      && (a.Conflicted? ==> w3.phases[c] == Idle && w3.retries[c] == w2.retries[c] + 1)
  {
    SetAllAppend(w.store, early, late);
  }
}
