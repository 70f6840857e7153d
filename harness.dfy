/**
 * What the two benchmark drivers share: the tables they seed and clear, the
 * foreign keys between them, and the phases of a run.
 */
module Harness {

  /** The fixture tables, by their SQL names 'user', 'tag', 'article', 'articleTag', 'userArticleFavorite'. */
  datatype Table = User | Tag | Article | ArticleTag | UserArticleFavorite

  /** `from` has a foreign-key column into `to`. */
  predicate References(from: Table, to: Table)
  {
    || (from == Article && to == User)
    || (from == ArticleTag && (to == Article || to == Tag))
    || (from == UserArticleFavorite && (to == Article || to == User))
  }

  /** Creating the tables in this order puts every referenced table before its referrers. */
  predicate InsertOrderSafe(order: seq<Table>)
  {
    forall i, j :: 0 <= i < |order| && 0 <= j < |order| && References(order[i], order[j]) ==> j < i
  }

  /**
   * Deleting the tables in this order, when the tables in `populated` hold
   * rows, empties every populated table that references a table before that
   * table is emptied.
   */
  predicate DeleteOrderSafe(order: seq<Table>, populated: set<Table>)
  {
    forall i, t :: 0 <= i < |order| && t in populated && References(t, order[i]) ==> t in order[..i]
  }

  /** The steps of a benchmark run, in the order the driver issues them. */
  datatype Phase =
    | ConnectDb       // `db.connect()`
    | InitialClear    // the first `clearDb`
    | Seed            // `prepareDb`
    | ConnectOrms     // `connectAllORMs`
    | Verify          // `verifyResponses` (select benchmark only)
    | Measure         // `measureORMs`
    | DisconnectOrms  // `disconnectAllORMs`
    | FinalClear      // the `clearDb` of the outer `finally`
    | EndDb           // `db.end()`
    | Exit            // `process.exit()`

  function Rank(p: Phase): nat
  {
    match p
    case ConnectDb => 0
    case InitialClear => 1
    case Seed => 2
    case ConnectOrms => 3
    case Verify => 4
    case Measure => 5
    case DisconnectOrms => 6
    case FinalClear => 7
    case EndDb => 8
    case Exit => 9
  }

  /** Each phase ranks above the one before it, so no phase repeats and none runs early. */
  predicate InPhaseOrder(trace: seq<Phase>)
  {
    forall i :: 0 < i < |trace| ==> Rank(trace[i - 1]) < Rank(trace[i])
  }

  /** Appending a phase that ranks above the last one keeps the trace in order. */
  lemma AppendInOrder(trace: seq<Phase>, p: Phase)
    requires InPhaseOrder(trace)
    requires trace != [] ==> Rank(trace[|trace| - 1]) < Rank(p)
    ensures InPhaseOrder(trace + [p])
  {
    var t := trace + [p];
    forall i | 0 < i < |t|
      ensures Rank(t[i - 1]) < Rank(t[i])
    {
      if i < |trace| {
        assert t[i - 1] == trace[i - 1] && t[i] == trace[i];
      }
    }
  }

  /** Two ordered traces, the second starting above where the first ends, concatenate in order. */
  lemma ConcatInOrder(a: seq<Phase>, b: seq<Phase>)
    requires InPhaseOrder(a) && InPhaseOrder(b)
    requires a != [] && b != [] ==> Rank(a[|a| - 1]) < Rank(b[0])
    ensures InPhaseOrder(a + b)
  {
    var t := a + b;
    forall i | 0 < i < |t|
      ensures Rank(t[i - 1]) < Rank(t[i])
    {
      if i < |a| {
        assert t[i - 1] == a[i - 1] && t[i] == a[i];
      } else if i > |a| {
        assert t[i - 1] == b[i - 1 - |a|] && t[i] == b[i - |a|];
      }
    }
  }

  /**
   * The outer `finally` block both drivers share: clear the tables again, end the connection and
   * exit; a step that throws ends the block.
   */
  method RunCleanup(ok: Phase -> bool) returns (cleanup: seq<Phase>, exited: bool)
    ensures |cleanup| >= 1 && cleanup[0] == FinalClear && InPhaseOrder(cleanup)
    ensures forall p :: p in cleanup ==> Rank(FinalClear) <= Rank(p)
    ensures EndDb in cleanup <==> ok(FinalClear)
    ensures exited <==> Exit in cleanup
    ensures exited <==> ok(FinalClear) && ok(EndDb)
  {
    cleanup, exited := [FinalClear], false;
    if ok(FinalClear) {
      cleanup := cleanup + [EndDb];
      if ok(EndDb) {
        cleanup := cleanup + [Exit];
        exited := true;
      }
    }
  }

  /**
   * A run's trace: `ConnectDb`, then the `try` block's phases, then the
   * cleanup's. It stays in phase order, and each phase is found in the part
   * its rank belongs to.
   */
  lemma RunTrace(body: seq<Phase>, cleanup: seq<Phase>)
    requires |body| >= 1 && body[0] == InitialClear && InPhaseOrder(body)
    requires forall p :: p in body ==> Rank(InitialClear) <= Rank(p) <= Rank(DisconnectOrms)
    requires |cleanup| >= 1 && cleanup[0] == FinalClear && InPhaseOrder(cleanup)
    requires forall p :: p in cleanup ==> Rank(FinalClear) <= Rank(p)
    ensures InPhaseOrder([ConnectDb] + body + cleanup)
    ensures ConnectDb !in body + cleanup
    ensures forall p :: p in [InitialClear, Seed, ConnectOrms, Verify, Measure, DisconnectOrms] ==>
      (p in [ConnectDb] + body + cleanup <==> p in body)
    ensures forall p :: p in [FinalClear, EndDb, Exit] ==>
      (p in [ConnectDb] + body + cleanup <==> p in cleanup)
  {
    ConcatInOrder([ConnectDb], body);
    ConcatInOrder([ConnectDb] + body, cleanup);
  }


  /**
   * The `try` block's trace once seeding succeeded: the initial clear, the
   * seed, then the ORM phases. It stays in phase order, and each ORM phase
   * is in it exactly when it is among the ORM phases.
   */
  lemma BodyTrace(inner: seq<Phase>)
    requires |inner| >= 2 && inner[0] == ConnectOrms && InPhaseOrder(inner)
    requires forall p :: p in inner ==> Rank(ConnectOrms) <= Rank(p) <= Rank(DisconnectOrms)
    ensures InPhaseOrder([InitialClear, Seed] + inner)
    ensures forall p :: p in [InitialClear, Seed] + inner ==> Rank(InitialClear) <= Rank(p) <= Rank(DisconnectOrms)
    ensures forall p :: p in [ConnectOrms, Verify, Measure, DisconnectOrms] ==>
      (p in [InitialClear, Seed] + inner <==> p in inner)
  {
    ConcatInOrder([InitialClear, Seed], inner);
  }
}
