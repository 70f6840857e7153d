// The `pg` connection pool as the lifecycle code sees it: its configuration
// and an `end` that may fail. Connections and queries are not modelled here.

module PgPool {
  import opened Outcomes

  class Pool {
    const max: int
    const min: int
    /** `None` when the configuration sets no connection timeout. */
    const connectionTimeoutMillis: Option<int>
    /** How many times `end` has been called on this pool. */
    var endCalls: nat

    constructor (max: int, min: int, connectionTimeoutMillis: Option<int>)
      ensures this.max == max && this.min == min
      ensures this.connectionTimeoutMillis == connectionTimeoutMillis
      ensures endCalls == 0
    {
      this.max := max;
      this.min := min;
      this.connectionTimeoutMillis := connectionTimeoutMillis;
      endCalls := 0;
    }

    /** `pool.end()`; `fails` says whether it rejects. */
    method End(fails: bool) returns (ok: bool)
      modifies this
      ensures endCalls == old(endCalls) + 1
      ensures ok == !fails
    {
      endCalls := endCalls + 1;
      ok := !fails;
    }
  }
}
