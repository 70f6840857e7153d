// The drizzle backend's module state: a pool created lazily by `getDb`,
// the drizzle instance over it, and `closeDb`, which ends and forgets the
// pool.

module DrizzleDb {
  import opened Outcomes
  import opened PgPool

  /** The drizzle instance, which wraps the pool it was made from. */
  class Drizzle {
    const pool: Pool

    constructor (pool: Pool)
      ensures this.pool == pool
    {
      this.pool := pool;
    }
  }

  /** Why `getDb` threw: constructing the drizzle instance failed. */
  datatype DbError = DrizzleFailed

  class DrizzleDbModule {
    var pool: Pool?
    /** `null` stands for the `undefined` of a `db` never assigned. */
    var db: Drizzle?

    /**
     * `getDb`. Without a pool it creates one (at most 10 and at least 0
     * clients, 5000 ms connection timeout) and a drizzle instance over it;
     * `drizzleFails` says whether that construction throws, in which case
     * the error is rethrown and the new pool is kept. With a pool it creates
     * nothing. Either way it returns the current `db`.
     */
    method GetDb(drizzleFails: bool) returns (r: Result<Drizzle?, DbError>)
      modifies this
      ensures old(pool) != null ==> pool == old(pool) && db == old(db) && r == Ok(db)
      ensures old(pool) == null ==> pool != null && fresh(pool) && pool.endCalls == 0
      ensures old(pool) == null ==>
                pool.max == 10 && pool.min == 0 && pool.connectionTimeoutMillis == Some(5000)
      ensures old(pool) == null && !drizzleFails ==>
                db != null && fresh(db) && db.pool == pool && r == Ok(db)
      ensures old(pool) == null && drizzleFails ==> db == old(db) && r == Err(DrizzleFailed)
    {
      if pool == null {
        var p := new Pool(10, 0, Some(5000));
        pool := p;
        if drizzleFails {
          return Err(DrizzleFailed);
        }
        db := new Drizzle(p);
      }
      r := Ok(db);
    }

    /**
     * `closeDb`. With a pool it ends it once, logging and swallowing a
     * failure (`endFails`), and forgets it, so the next `getDb` creates a
     * fresh pool; without one it does nothing. `db` is left as it was.
     */
    method CloseDb(endFails: bool)
      modifies this, pool
      ensures pool == null && db == old(db)
      ensures old(pool) != null ==> old(pool).endCalls == old(pool.endCalls) + 1
    {
      if pool != null {
        var _ := pool.End(endFails);
        pool := null;
      }
    }

    /** Module load: `getDb` is called once and any error it throws is logged and swallowed. */
    constructor (drizzleFails: bool)
      ensures pool != null && fresh(pool) && pool.endCalls == 0
      ensures pool.max == 10 && pool.min == 0 && pool.connectionTimeoutMillis == Some(5000)
      ensures db != null <==> !drizzleFails
      ensures db != null ==> fresh(db) && db.pool == pool
    {
      pool := null;
      db := null;
      new;
      var _ := GetDb(drizzleFails);
    }
  }
}
