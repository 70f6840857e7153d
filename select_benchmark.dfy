/**
 * The select benchmark's driver: the cross-ORM equivalence check
 * (`verifyResponses`) and the run's phase sequence with its `finally`
 * cleanup. Each I/O phase is an abstract step whose success is an input;
 * `app.inject` followed by `JSON.parse` is an input function `fetch` that
 * yields the parsed body or nothing when it throws, and `deepStrictEqual`
 * is an input predicate `same`.
 */
module SelectBenchmark {
  import opened Outcomes
  import opened Registry
  import opened Harness

  /** How `verifyResponses` ended. */
  datatype Verdict =
    | AllAgree          // every response equals the oracle's; returns normally
    | Differs(orm: OrmName)  // `orm`'s response differs; its name is logged and it returns normally
    | Threw(orm: OrmName)    // fetching `orm`'s response threw, and the error propagates

  /**
   * Position `j` of the registry answered and, after the oracle at position
   * 0, answered what the oracle answered.
   */
  predicate Answers<B>(names: seq<OrmName>, fetch: OrmName -> Option<B>, same: (B, B) -> bool, j: int)
    requires 0 <= j < |names|
  {
    && fetch(names[0]).Some?
    && fetch(names[j]).Some?
    && (j > 0 ==> same(fetch(names[0]).value, fetch(names[j]).value))
  }

  /**
   * How a comparison that reached position `k` with every earlier position
   * answering ends: all agree once the registry is exhausted, otherwise it
   * ends at the first position that does not answer, thrown if that fetch
   * threw and a difference if it answered something else.
   */
  function VerdictFrom<B>(names: seq<OrmName>, fetch: OrmName -> Option<B>, same: (B, B) -> bool, k: nat): Verdict
    requires |names| > 0 && k <= |names|
    decreases |names| - k
  {
    if k == |names| then AllAgree
    else if Answers(names, fetch, same, k) then VerdictFrom(names, fetch, same, k + 1)
    else if fetch(names[k]).None? then Threw(names[k])
    else Differs(names[k])
  }

  /** The verdict the responses of `names` call for. */
  function VerdictOf<B>(names: seq<OrmName>, fetch: OrmName -> Option<B>, same: (B, B) -> bool): Verdict
    requires |names| > 0
  {
    VerdictFrom(names, fetch, same, 0)
  }

  /**
   * `verifyResponses`: the first registered ORM is the oracle; the others are
   * asked in registry order and compared with it, and the first mismatch is
   * reported without throwing and without asking any later ORM.
   */
  method VerifyResponses<B>(names: seq<OrmName>, fetch: OrmName -> Option<B>, same: (B, B) -> bool)
    returns (verdict: Verdict, requested: seq<OrmName>)
    requires |names| > 0
    ensures 1 <= |requested| <= |names| && requested == names[..|requested|]
    ensures forall j :: 0 <= j < |requested| - 1 ==> Answers(names, fetch, same, j)
    ensures verdict.AllAgree? <==> forall j :: 0 <= j < |names| ==> Answers(names, fetch, same, j)
    ensures verdict.AllAgree? ==> requested == names
    ensures !verdict.AllAgree? ==>
      verdict.orm == requested[|requested| - 1] && !Answers(names, fetch, same, |requested| - 1)
    ensures verdict.Threw? <==> !verdict.AllAgree? && fetch(verdict.orm).None?
    ensures verdict == VerdictOf(names, fetch, same)
  {
    var oracle := fetch(names[0]);
    requested := [names[0]];
    if oracle.None? {
      assert !Answers(names, fetch, same, 0);
      verdict := Threw(names[0]);
      return;
    }
    var k := 1;
    while k < |names|
      invariant 1 <= k <= |names|
      invariant requested == names[..k]
      invariant forall j :: 0 <= j < k ==> Answers(names, fetch, same, j)
      invariant VerdictOf(names, fetch, same) == VerdictFrom(names, fetch, same, k)
    {
      requested := requested + [names[k]];
      var response := fetch(names[k]);
      if response.None? {
        assert !Answers(names, fetch, same, k);
        verdict := Threw(names[k]);
        return;
      }
      if !same(oracle.value, response.value) {
        assert !Answers(names, fetch, same, k);
        verdict := Differs(names[k]);
        return;
      }
      k := k + 1;
    }
    verdict := AllAgree;
  }

  /**
   * The inner `try { connectAllORMs; verifyResponses; measureORMs } finally
   * { disconnectAllORMs }` of the run: `inner` lists the phases attempted.
   */
  method RunOrmPhases<B>(ok: Phase -> bool, names: seq<OrmName>, fetch: OrmName -> Option<B>, same: (B, B) -> bool)
    returns (inner: seq<Phase>, verdict: Option<Verdict>)
    requires |names| > 0
    ensures |inner| >= 2 && inner[0] == ConnectOrms && inner[|inner| - 1] == DisconnectOrms
    ensures InPhaseOrder(inner)
    ensures forall p :: p in inner ==> Rank(ConnectOrms) <= Rank(p) <= Rank(DisconnectOrms)
    ensures Verify in inner <==> ok(ConnectOrms)
    ensures verdict.Some? <==> Verify in inner
    ensures verdict.Some? ==> verdict.value == VerdictOf(names, fetch, same)
    ensures Measure in inner <==> verdict.Some? && !verdict.value.Threw?
    ensures Measure in inner <==> ok(ConnectOrms) && !VerdictOf(names, fetch, same).Threw?
  {
    inner, verdict := [ConnectOrms], None;
    if ok(ConnectOrms) {
      inner := inner + [Verify];
      var v, _ := VerifyResponses(names, fetch, same);
      verdict := Some(v);
      if !v.Threw? {
        inner := inner + [Measure];
      }
    }
    // finally
    inner := inner + [DisconnectOrms];
  }

  /**
   * The outer `try` block: clear the tables, seed them, then run the ORM
   * phases; `body` lists the phases attempted.
   */
  method RunBody<B>(ok: Phase -> bool, names: seq<OrmName>, fetch: OrmName -> Option<B>, same: (B, B) -> bool)
    returns (body: seq<Phase>, verdict: Option<Verdict>)
    requires |names| > 0
    ensures |body| >= 1 && body[0] == InitialClear && InPhaseOrder(body)
    ensures forall p :: p in body ==> Rank(InitialClear) <= Rank(p) <= Rank(DisconnectOrms)
    ensures Seed in body <==> ok(InitialClear)
    ensures ConnectOrms in body <==> ok(InitialClear) && ok(Seed)
    ensures DisconnectOrms in body <==> ConnectOrms in body
    ensures Verify in body <==> ConnectOrms in body && ok(ConnectOrms)
    ensures verdict.Some? <==> Verify in body
    ensures verdict.Some? ==> verdict.value == VerdictOf(names, fetch, same)
    ensures Measure in body <==> verdict.Some? && !verdict.value.Threw?
    ensures Measure in body <==>
      ok(InitialClear) && ok(Seed) && ok(ConnectOrms) && !VerdictOf(names, fetch, same).Threw?
  {
    body, verdict := [InitialClear], None;
    if ok(InitialClear) {
      body := body + [Seed];
      if ok(Seed) {
        var inner;
        inner, verdict := RunOrmPhases(ok, names, fetch, same);
        BodyTrace(inner);
        body := [InitialClear, Seed] + inner;
      }
    }
  }

  /**
   * The benchmark's top-level run. `ok(p)` says whether phase `p` succeeds;
   * the `Verify` phase succeeds unless `verifyResponses` throws. `trace`
   * lists the phases attempted, and `exited` whether `process.exit` was
   * reached (a throwing cleanup step leaves an unhandled rejection instead).
   * An error inside the outer `try` is caught and logged.
   */
  method RunSelect<B>(ok: Phase -> bool, names: seq<OrmName>, fetch: OrmName -> Option<B>, same: (B, B) -> bool)
    returns (trace: seq<Phase>, verdict: Option<Verdict>, exited: bool)
    requires |names| > 0
    ensures |trace| > 0 && trace[0] == ConnectDb && InPhaseOrder(trace)
    ensures InitialClear in trace <==> ok(ConnectDb)
    ensures Seed in trace <==> ok(ConnectDb) && ok(InitialClear)
    ensures ConnectOrms in trace <==> ok(ConnectDb) && ok(InitialClear) && ok(Seed)
    ensures DisconnectOrms in trace <==> ConnectOrms in trace
    ensures Verify in trace <==> ConnectOrms in trace && ok(ConnectOrms)
    ensures verdict.Some? <==> Verify in trace
    ensures verdict.Some? ==> verdict.value == VerdictOf(names, fetch, same)
    ensures Measure in trace <==> verdict.Some? && !verdict.value.Threw?
    ensures Measure in trace <==> ok(ConnectDb) && ok(InitialClear) && ok(Seed) && ok(ConnectOrms)
                                  && !VerdictOf(names, fetch, same).Threw?
    ensures FinalClear in trace <==> ok(ConnectDb)
    ensures EndDb in trace <==> ok(ConnectDb) && ok(FinalClear)
    ensures exited <==> Exit in trace
    ensures exited <==> ok(ConnectDb) && ok(FinalClear) && ok(EndDb)
  {
    trace, verdict, exited := [ConnectDb], None, false;
    if ok(ConnectDb) {
      var body, cleanup;
      body, verdict := RunBody(ok, names, fetch, same);
      cleanup, exited := RunCleanup(ok);
      RunTrace(body, cleanup);
      trace := trace + body + cleanup;
    }
  }
}
