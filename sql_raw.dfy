// The raw-SQL backend's module state: one pool created at load time and
// the `poolEnded` flag that makes `close` idempotent.

module SqlRaw {
  import opened Outcomes
  import opened PgPool

  class SqlRawModule {
    const pool: Pool
    var poolEnded: bool

    /** Module load: a pool of at most 10 and at least 0 clients, not yet ended. */
    constructor ()
      ensures fresh(pool)
      ensures pool.max == 10 && pool.min == 0 && pool.connectionTimeoutMillis == None
      ensures pool.endCalls == 0 && !poolEnded
    {
      pool := new Pool(10, 0, None);
      poolEnded := false;
    }

    /** `sqlRaw.initialize` does nothing. */
    method Initialize()
      ensures poolEnded == old(poolEnded) && pool.endCalls == old(pool.endCalls)
    {
    }

    /**
     * `sqlRaw.close`: ends the pool unless it has already been ended. The
     * flag is set only after `end` returns, so a failing `end` (reported in
     * `threw`) leaves it unset, and once set it stays set.
     */
    method Close(endFails: bool) returns (threw: bool)
      modifies this, pool
      ensures old(poolEnded) ==> poolEnded && pool.endCalls == old(pool.endCalls) && !threw
      ensures !old(poolEnded) ==> pool.endCalls == old(pool.endCalls) + 1
      ensures !old(poolEnded) ==> poolEnded == !endFails && threw == endFails
    {
      threw := false;
      if !poolEnded {
        var ok := pool.End(endFails);
        if !ok {
          return true;
        }
        poolEnded := true;
      }
    }
  }
}
