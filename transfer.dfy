/** How much waste one draw moves from a pool into the next pipeline stage.
    A draw `r` stands for the value `random.randint` returns; the caller
    supplies it, constrained to the range the source draws from. */
module Transfer {

  /** The per-draw ceiling, and the pool size at or below which a draw is
      overridden by the whole pool (the drain-to-zero rule). */
  const Cap := 5

  function Min(a: int, b: int): int {
    if a <= b then a else b
  }

  /** A value of `randint(1, 5)`. */
  predicate IsDraw(r: int) {
    1 <= r <= Cap
  }

  /** A collector's take from the global pool: the draw clipped to the pool,
      and the whole pool when it holds at most Cap units. */
  function CollectAmount(pool: int, r: int): (amount: int)
    requires pool > 0 && IsDraw(r)
    ensures 1 <= amount <= Min(pool, Cap)
    ensures pool <= Cap ==> amount == pool
  {
    var collect := Min(r, pool);
    if pool <= Cap then pool else collect
  }

  /** A sorter's take from one collector, or a recycler's from one sorter: a
      draw from [1, min(pool, Cap)], overridden by the whole pool when it holds
      at most Cap units. `Min(r, Min(pool, Cap))` ranges over exactly
      [1, min(pool, Cap)] as r ranges over [1, Cap]. */
  function PullAmount(pool: int, r: int): (amount: int)
    requires pool > 0 && IsDraw(r)
    ensures 1 <= amount <= Min(pool, Cap)
    ensures pool <= Cap ==> amount == pool
  {
    var pulled := Min(r, Min(pool, Cap));
    if pool <= Cap then pool else pulled
  }

  /** The two ways the source computes an amount give the same result for
      every pool and draw. */
  lemma CollectIsPull(pool: int, r: int)
    requires pool > 0 && IsDraw(r)
    ensures CollectAmount(pool, r) == PullAmount(pool, r)
  {
  }

  /** The amounts a transfer can move, over all draws: the whole pool when it is
      at most Cap, and otherwise anything from 1 to Cap. */
  lemma {:induction false} PullOutcomes(pool: int, amount: int)
    requires pool > 0
    ensures (exists r :: IsDraw(r) && PullAmount(pool, r) == amount)
            <==> (if pool <= Cap then amount == pool else 1 <= amount <= Cap)
  {
    if pool <= Cap && amount == pool {
      assert IsDraw(1) && PullAmount(pool, 1) == amount;
    } else if pool > Cap && 1 <= amount <= Cap {
      assert IsDraw(amount) && PullAmount(pool, amount) == amount;
    }
  }
}
