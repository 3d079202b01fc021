/** The shared key-value store, seen through the one key the service uses
    ("abacus:sum"). Redis keeps no version number a client can read, but
    WATCH behaves as if it did: EXEC aborts when any write reached the
    watched key after the WATCH. The model makes that version explicit. */
module Redis {

  datatype Option<+T> = None | Some(value: T)

  /** The state of the key: its value (None while the key is absent) and a
      version that every write to the key advances. */
  datatype Store = Store(value: Option<int>, version: nat)

  /** The store before anything was written: the key is absent. */
  const Fresh := Store(None, 0)

  /** The integer a client reads from the key: an absent key reads as 0. */
  function SumOf(v: Option<int>): int
  {
    match v
    case None => 0
    case Some(n) => n
  }

  /** SET: an unconditional write of `n`. */
  function Set(s: Store, n: int): (t: Store)
    ensures t.value == Some(n)
    ensures t.version == s.version + 1
  {
    Store(Some(n), s.version + 1)
  }

  /** WATCH: the token a later EXEC is checked against. */
  function Watch(s: Store): nat
  {
    s.version
  }

  /** EXEC of a MULTI block holding the single queued SET of `n`: the SET is
      applied, and `true` returned, only when the key has not been written
      since the WATCH that handed out `token`; otherwise nothing is applied
      (redis-py raises WatchError). */
  function Exec(s: Store, token: nat, n: int): (r: (bool, Store))
    ensures r.0 ==> r.1.value == Some(n) && r.1.version == s.version + 1
    ensures !r.0 ==> r.1 == s
  {
    if token == s.version then (true, Set(s, n)) else (false, s)
  }

  /** The store after the writes `ws`, made by other clients, land in order. */
  function SetAll(s: Store, ws: seq<int>): (t: Store)
    ensures t.version == s.version + |ws|
    ensures ws == [] ==> t == s
    ensures ws != [] ==> t.value == Some(ws[|ws| - 1])
    decreases |ws|
  {
    if ws == [] then s else Set(SetAll(s, ws[..|ws| - 1]), ws[|ws| - 1])
  }

  /** Writes that land one batch after another are the writes of the joined
      batch. */
  lemma SetAllAppend(s: Store, a: seq<int>, b: seq<int>)
    ensures SetAll(s, a + b) == SetAll(SetAll(s, a), b)
  {
  }

  /** The optimistic-locking guarantee of WATCH/EXEC: a commit against a
      token succeeds exactly when no write reached the key in between, and
      then the store holds the committed value. */
  lemma WatchedCommit(s: Store, ws: seq<int>, n: int)
    ensures Exec(SetAll(s, ws), Watch(s), n).0 <==> ws == []
    ensures ws == [] ==> Exec(SetAll(s, ws), Watch(s), n).1 == Set(s, n)
    ensures ws != [] ==> Exec(SetAll(s, ws), Watch(s), n).1 == SetAll(s, ws)
  {
  }
}
