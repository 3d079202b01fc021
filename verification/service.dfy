/** The read, reset and start-up operations of the counter service
    (RedisManager.get_sum, RedisManager.reset_sum and the initialisation
    block of lifespan in app.py), all acting on the key "abacus:sum". */
module Service {
  import opened Redis

  /** What a call hands back: a value, or the HTTP status of the
      HTTPException it raises. */
  datatype Reply<+T> = Ok(value: T) | Error(status: int)

  /** Status raised when a store call fails. */
  const InternalError := 500

  /** A call's reply together with the store it leaves behind. */
  datatype Effect<+T> = Effect(reply: Reply<T>, store: Store)

  /** get_sum: reads the key; `fails` stands for the store call raising. */
  function GetSum(s: Store, fails: bool): (e: Effect<int>)
    ensures e.store == s
    ensures e.reply.Error? <==> fails
    ensures e.reply.Error? ==> e.reply.status == InternalError
    ensures e.reply.Ok? && s.value.None? ==> e.reply.value == 0
    ensures e.reply.Ok? && s.value.Some? ==> e.reply.value == s.value.value
  {
    if fails then Effect(Error(InternalError), s) else Effect(Ok(SumOf(s.value)), s)
  }

  /** reset_sum: an unconditional SET of 0, acknowledged with `true`. */
  function ResetSum(s: Store, fails: bool): (e: Effect<bool>)
    ensures e.reply.Error? <==> fails
    ensures fails ==> e.reply.status == InternalError && e.store == s
    ensures !fails ==> e.reply == Ok(true) && e.store == Set(s, 0)
  {
    if fails then Effect(Error(InternalError), s) else Effect(Ok(true), Set(s, 0))
  }

  /** Start-up initialisation: write 0 only when the key is absent. */
  function Bootstrap(s: Store): (t: Store)
    ensures s.value.Some? ==> t == s
    ensures s.value.None? ==> t.value == Some(0)
    ensures t.value.Some?
  {
    if s.value == None then Set(s, 0) else s
  }

  /** A write followed by a read with nothing in between reads the value
      written. */
  lemma ReadAfterWrite(s: Store, n: int)
    ensures GetSum(Set(s, n), false).reply == Ok(n)
  {
  }

  /** After a successful reset, a read with no intervening write returns 0. */
  lemma ResetThenGet(s: Store)
    ensures GetSum(ResetSum(s, false).store, false).reply == Ok(0)
  {
  }

  /** Running the start-up initialisation twice has the effect of running it
      once. */
  lemma BootstrapIdempotent(s: Store)
    ensures Bootstrap(Bootstrap(s)) == Bootstrap(s)
  {
  }

  /** Start-up never changes the sum a reader sees: an absent key already
      reads as 0, and a present key is left alone. */
  lemma BootstrapKeepsSum(s: Store)
    ensures GetSum(Bootstrap(s), false).reply == GetSum(s, false).reply
  {
  }
}
