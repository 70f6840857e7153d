/**
 * The insert benchmark's driver: the tag labels and per-article payloads it
 * posts, the per-ORM bookkeeping of `measureORMs`, and the run's phase
 * sequence. Clearing, posting and timing are abstract steps: `clearOk`,
 * `requestOk` say whether a step succeeds and `elapsed(orm, i)` is the
 * duration measured around request `i` of `orm`.
 */
module InsertBenchmark {
  import opened Text
  import opened Arith
  import opened Seqs
  import opened Registry
  import opened Harness
  import SelectFixture

  const CreateArticlesCount: nat := 1000
  const TagsInArticle: nat := 5

  /** `tags`: the thirty labels 'tag-1' .. 'tag-30'. */
  const Tags: seq<string> := seq(30, i requires 0 <= i => "tag-" + NatToString(i + 1))

  /** The create-article payload of a request. */
  datatype ArticleInput = ArticleInput(title: string, description: string, body: string, tagList: seq<string>)

  /** The claims the bearer token is issued for (`createToken` itself is not modelled). */
  datatype Claims = Claims(id: int, email: string)

  /** The one user `prepareDb` seeds. */
  datatype UserRow = UserRow(id: int, username: string, email: string, password: string)

  /** The tag list of request `i`: five consecutive labels, wrapping around the thirty. */
  function ArticleTags(i: nat): seq<string>
  {
    seq(TagsInArticle, n requires 0 <= n => Tags[(i + n) % |Tags|])
  }

  /** The payload of request `i`. */
  function Payload(i: nat): ArticleInput
  {
    ArticleInput("title " + NatToString(i), "description " + NatToString(i), "body " + NatToString(i),
                 ArticleTags(i))
  }

  function PrepareDb(): seq<UserRow>
  {
    [UserRow(1, "username", "email@mail.com", "password")]
  }

  const Token: Claims := Claims(1, "email@mail.com")

  /** The tables cleared before seeding, before each ORM's run, and at the end. */
  const InitialClearTables: seq<Table> := [User]
  const PerOrmClearTables: seq<Table> := [ArticleTag, Tag, Article]
  const FinalClearTables: seq<Table> := [ArticleTag, Tag, Article, User]

  /** One I/O step of `measureORMs`. */
  datatype Action =
    | Clear(tables: seq<Table>, before: OrmName)            // `clearDb` before `before`'s run
    | Post(orm: OrmName, index: nat, token: Claims, article: ArticleInput)  // request `index` of `orm`

  predicate ActionOk(clearOk: OrmName -> bool, requestOk: (OrmName, nat) -> bool, a: Action)
  {
    match a
    case Clear(_, o) => clearOk(o)
    case Post(o, i, _, _) => requestOk(o, i)
  }

  /** What `measureORMs` issues for one ORM: a clear, then its requests in order. */
  function OrmBlock(o: OrmName): seq<Action>
  {
    [Clear(PerOrmClearTables, o)] + seq(CreateArticlesCount, i requires 0 <= i => Post(o, i, Token, Payload(i)))
  }

  function Blocks(names: seq<OrmName>): seq<seq<Action>>
  {
    seq(|names|, k requires 0 <= k < |names| => OrmBlock(names[k]))
  }

  /** Everything `measureORMs` issues when no step throws. */
  function MeasurePlan(names: seq<OrmName>): seq<Action>
  {
    Flatten(Blocks(names))
  }

  /**
   * `actions` is what `measureORMs` issues for `names` when each step's
   * success is given by `clearOk` and `requestOk`: the plan up to and
   * including its first failing step, or the whole plan when none fails.
   */
  predicate MeasuredUntilFailure(actions: seq<Action>, names: seq<OrmName>,
                                 clearOk: OrmName -> bool, requestOk: (OrmName, nat) -> bool)
  {
    && actions <= MeasurePlan(names)
    && (forall j :: 0 <= j < |actions| - 1 ==> ActionOk(clearOk, requestOk, actions[j]))
    && (actions == MeasurePlan(names) || (actions != [] && !ActionOk(clearOk, requestOk, actions[|actions| - 1])))
  }

  /** The timings of one ORM: one per request, in request order. */
  function Timings(o: OrmName, elapsed: (OrmName, nat) -> real): seq<real>
  {
    seq(CreateArticlesCount, i requires 0 <= i => elapsed(o, i))
  }

  /** Every ORM name, each a key of `results`. */
  function AllOrms(): set<OrmName>
  {
    {Sequelize, Typeorm, Knex, Prisma, Objection, Mikroorm, DrizzleOrm, SqlRaw, OrchidOrm}
  }

  /** The `results` literal: one empty list per ORM name. */
  function InitialResults(): map<OrmName, seq<real>>
  {
    map o | o in AllOrms() :: []
  }

  // ---------------------------------------------------------------- lemmas

  /** A map that has every ORM name as a key has exactly the ORM names as keys. */
  lemma KeysAreAllOrms<V>(m: map<OrmName, V>)
    requires forall o: OrmName :: o in m
    ensures m.Keys == AllOrms()
  {
    InitialResultsCoverEveryOrm();
  }

  /** `results` starts with every ORM name as a key, each holding an empty list. */
  lemma InitialResultsCoverEveryOrm()
    ensures InitialResults().Keys == AllOrms()
    ensures forall o: OrmName :: o in AllOrms() && o in InitialResults() && InitialResults()[o] == []
  {
    forall o: OrmName
      ensures o in AllOrms() && o in InitialResults() && InitialResults()[o] == []
    {
      match o
      case Sequelize =>
      case Typeorm =>
      case Knex =>
      case Prisma =>
      case Objection =>
      case Mikroorm =>
      case DrizzleOrm =>
      case SqlRaw =>
      case OrchidOrm =>
    }
  }

  /** `tags` is 'tag-1' .. 'tag-30' in order, no label twice, the select fixture's labels. */
  lemma TagsAreLabels()
    ensures |Tags| == 30
    ensures forall i :: 0 <= i < |Tags| ==> Tags[i] == "tag-" + NatToString(i + 1)
    ensures forall i :: 0 <= i < |Tags| ==> Tags[i] == SelectFixture.TagRows()[i].tag
    ensures forall i, j :: 0 <= i < j < |Tags| ==> Tags[i] != Tags[j]
  {
    forall i, j | 0 <= i < j < |Tags|
      ensures Tags[i] != Tags[j]
    {
      if Tags[i] == Tags[j] {
        PrefixInjective("tag-", NatToString(i + 1), NatToString(j + 1));
        NatToStringInjective(i + 1, j + 1);
      }
    }
  }

  /** Request `i` carries five labels of `tags`, none twice. */
  lemma ArticleTagsDistinct(i: nat)
    ensures |ArticleTags(i)| == TagsInArticle
    ensures forall n :: 0 <= n < TagsInArticle ==> ArticleTags(i)[n] == Tags[(i + n) % 30]
    ensures forall n :: 0 <= n < TagsInArticle ==> ArticleTags(i)[n] in Tags
    ensures forall n1, n2 :: 0 <= n1 < n2 < TagsInArticle ==> ArticleTags(i)[n1] != ArticleTags(i)[n2]
  {
    var tags := ArticleTags(i);
    assert |Tags| == 30;
    forall n | 0 <= n < TagsInArticle
      ensures tags[n] == Tags[(i + n) % 30] && tags[n] in Tags
    {
      var k := (i + n) % 30;
      assert tags[n] == Tags[k];
    }
    forall n1, n2 | 0 <= n1 < n2 < TagsInArticle
      ensures tags[n1] != tags[n2]
    {
      ModDistinct(i, n1, n2, 30);
      TagDistinct((i + n1) % 30, (i + n2) % 30);
    }
  }

  /** Two different positions of `tags` hold different labels. */
  lemma TagDistinct(a: int, b: int)
    requires 0 <= a < 30 && 0 <= b < 30 && a != b
    ensures Tags[a] != Tags[b]
  {
    TagsAreLabels();
  }

  /** Payload `i` is titled, described and bodied with `i`, and no two requests post the same title. */
  lemma PayloadsDistinct(i: nat, j: nat)
    ensures Payload(i).title == "title " + NatToString(i)
    ensures Payload(i).description == "description " + NatToString(i)
    ensures Payload(i).body == "body " + NatToString(i)
    ensures i != j ==> Payload(i).title != Payload(j).title
  {
    if Payload(i).title == Payload(j).title {
      PrefixInjective("title ", NatToString(i), NatToString(j));
      NatToStringInjective(i, j);
    }
  }

  /** The seeded user is user 1 with 'email@mail.com', the identity the token is issued for. */
  lemma TokenNamesSeededUser()
    ensures |PrepareDb()| == 1
    ensures Token.id == PrepareDb()[0].id && Token.email == PrepareDb()[0].email
  {
  }

  /**
   * Each ORM's run starts by clearing the article, tag and link tables (in
   * an order that respects their foreign keys), then posts payloads
   * `0 .. 999` in order with the seeded user's token.
   */
  lemma MeasurePlanShape(names: seq<OrmName>, k: int, i: int)
    requires 0 <= k < |names| && 0 <= i < CreateArticlesCount
    ensures |MeasurePlan(names)| == |names| * (CreateArticlesCount + 1)
    ensures MeasurePlan(names)[k * (CreateArticlesCount + 1)] == Clear(PerOrmClearTables, names[k])
    ensures MeasurePlan(names)[k * (CreateArticlesCount + 1) + 1 + i] == Post(names[k], i, Token, Payload(i))
    ensures DeleteOrderSafe(PerOrmClearTables, {User, Tag, Article, ArticleTag})
  {
    var m := CreateArticlesCount + 1;
    FlattenUniformAt(Blocks(names), m, k, 0);
    FlattenUniformAt(Blocks(names), m, k, 1 + i);
    assert PerOrmClearTables[..1] == [ArticleTag];
    assert PerOrmClearTables[..2] == [ArticleTag, Tag];
  }

  /** The plan of a prefix of the registry grows by one ORM's block. */
  lemma MeasurePlanSnoc(names: seq<OrmName>, k: int)
    requires 0 <= k < |names|
    ensures MeasurePlan(names[..k + 1]) == MeasurePlan(names[..k]) + OrmBlock(names[k])
    ensures MeasurePlan(names[..k]) + OrmBlock(names[k]) <= MeasurePlan(names)
  {
    assert Blocks(names[..k + 1]) == Blocks(names[..k]) + [OrmBlock(names[k])];
    FlattenConcat(Blocks(names[..k]), [OrmBlock(names[k])]);
    assert Flatten([OrmBlock(names[k])]) == OrmBlock(names[k]) + Flatten([]);
    assert Blocks(names) == Blocks(names[..k + 1]) + Blocks(names[k + 1..]);
    FlattenConcat(Blocks(names[..k + 1]), Blocks(names[k + 1..]));
  }

  /**
   * One iteration of `measureORMs`' outer loop: clear the article tables,
   * then post the thousand payloads, pushing each request's duration.
   */
  method MeasureOrm(o: OrmName, clearOk: OrmName -> bool, requestOk: (OrmName, nat) -> bool,
                    elapsed: (OrmName, nat) -> real)
    returns (actions: seq<Action>, timings: seq<real>, threw: bool)
    ensures 0 < |actions| && actions <= OrmBlock(o)
    ensures forall j :: 0 <= j < |actions| - 1 ==> ActionOk(clearOk, requestOk, actions[j])
    ensures threw <==> !ActionOk(clearOk, requestOk, actions[|actions| - 1])
    ensures !threw ==> actions == OrmBlock(o) && timings == Timings(o, elapsed)
  {
    actions, timings, threw := [Clear(PerOrmClearTables, o)], [], false;
    if !clearOk(o) {
      threw := true;
      return;
    }
    var i := 0;
    while i < CreateArticlesCount
      invariant 0 <= i <= CreateArticlesCount
      invariant actions == OrmBlock(o)[..1 + i]
      invariant forall j :: 0 <= j < |actions| ==> ActionOk(clearOk, requestOk, actions[j])
      invariant timings == Timings(o, elapsed)[..i]
    {
      assert OrmBlock(o)[..1 + i + 1] == OrmBlock(o)[..1 + i] + [Post(o, i, Token, Payload(i))];
      actions := actions + [Post(o, i, Token, Payload(i))];
      if !requestOk(o, i) {
        threw := true;
        return;
      }
      timings := timings + [elapsed(o, i)];
      i := i + 1;
    }
    assert OrmBlock(o)[..1 + i] == OrmBlock(o);
  }

  /**
   * `measureORMs`: for each ORM in turn, run `MeasureOrm` and store its
   * timings under the ORM's name. The first step that throws ends it.
   */
  method MeasureOrms(names: seq<OrmName>, clearOk: OrmName -> bool, requestOk: (OrmName, nat) -> bool,
                     elapsed: (OrmName, nat) -> real)
    returns (actions: seq<Action>, results: map<OrmName, seq<real>>, threw: bool)
    ensures actions <= MeasurePlan(names)
    ensures forall j :: 0 <= j < |actions| - 1 ==> ActionOk(clearOk, requestOk, actions[j])
    ensures threw <==> actions != [] && !ActionOk(clearOk, requestOk, actions[|actions| - 1])
    ensures !threw ==> actions == MeasurePlan(names)
    ensures !threw ==> results.Keys == AllOrms()
    ensures !threw ==> forall o :: o in results ==>
      results[o] == if o in names then Timings(o, elapsed) else []
  {
    actions, results, threw := [], InitialResults(), false;
    InitialResultsCoverEveryOrm();
    var k := 0;
    while k < |names|
      invariant 0 <= k <= |names|
      invariant actions == MeasurePlan(names[..k])
      invariant forall j :: 0 <= j < |actions| ==> ActionOk(clearOk, requestOk, actions[j])
      invariant forall o: OrmName :: o in results
      invariant forall o :: o in results ==> results[o] == if o in names[..k] then Timings(o, elapsed) else []
    {
      var block, timings;
      block, timings, threw := MeasureOrm(names[k], clearOk, requestOk, elapsed);
      AppendBlock(names, k, actions, block, clearOk, requestOk);
      actions := actions + block;
      if threw {
        return;
      }
      RecordTimings(results, names, k, timings, elapsed);
      results := results[names[k] := timings];
      k := k + 1;
    }
    assert names[..k] == names;
    KeysAreAllOrms(results);
  }

  /** Appending one ORM's actions to the previous ORMs' keeps the whole a prefix of the plan. */
  lemma AppendBlock(names: seq<OrmName>, k: int, done: seq<Action>, block: seq<Action>,
                    clearOk: OrmName -> bool, requestOk: (OrmName, nat) -> bool)
    requires 0 <= k < |names|
    requires done == MeasurePlan(names[..k])
    requires forall j :: 0 <= j < |done| ==> ActionOk(clearOk, requestOk, done[j])
    requires 0 < |block| && block <= OrmBlock(names[k])
    requires forall j :: 0 <= j < |block| - 1 ==> ActionOk(clearOk, requestOk, block[j])
    ensures done + block <= MeasurePlan(names)
    ensures forall j :: 0 <= j < |done + block| - 1 ==> ActionOk(clearOk, requestOk, (done + block)[j])
    ensures (done + block)[|done + block| - 1] == block[|block| - 1]
    ensures block == OrmBlock(names[k]) ==> done + block == MeasurePlan(names[..k + 1])
  {
    MeasurePlanSnoc(names, k);
    var all := done + block;
    assert all[|done|..] == block;
    assert forall j :: 0 <= j < |done| ==> all[j] == done[j];
    assert all <= done + OrmBlock(names[k]);
  }

  /** Recording one ORM's timings keeps `results` equal to the timings of the ORMs done so far. */
  lemma RecordTimings(results: map<OrmName, seq<real>>, names: seq<OrmName>, k: int,
                      timings: seq<real>, elapsed: (OrmName, nat) -> real)
    requires 0 <= k < |names|
    requires forall o :: o in results ==> results[o] == if o in names[..k] then Timings(o, elapsed) else []
    requires timings == Timings(names[k], elapsed)
    ensures forall o :: o in results[names[k] := timings] ==>
      results[names[k] := timings][o] == if o in names[..k + 1] then Timings(o, elapsed) else []
  {
    assert names[..k + 1] == names[..k] + [names[k]];
  }


  /**
   * The clears of a run: only `user` before seeding, which is unsafe when
   * articles are left over from an earlier run; at the end every table it
   * filled, referrers first.
   */
  lemma ClearListsRespectForeignKeys()
    ensures InitialClearTables == [User]
    ensures !DeleteOrderSafe(InitialClearTables, {User, Article})
    ensures DeleteOrderSafe(FinalClearTables, {User, Tag, Article, ArticleTag})
  {
    assert References(Article, InitialClearTables[0]) && Article !in InitialClearTables[..0];
    assert FinalClearTables[..1] == [ArticleTag];
    assert FinalClearTables[..2] == [ArticleTag, Tag];
    assert FinalClearTables[..3] == [ArticleTag, Tag, Article];
  }

  /**
   * The inner `try { connectAllORMs; measureORMs } finally { disconnectAllORMs }`
   * of the run: `inner` lists the phases attempted, `actions` what
   * `measureORMs` issued.
   */
  method RunOrmPhases(ok: Phase -> bool, names: seq<OrmName>, clearOk: OrmName -> bool,
                      requestOk: (OrmName, nat) -> bool, elapsed: (OrmName, nat) -> real)
    returns (inner: seq<Phase>, actions: seq<Action>)
    ensures |inner| >= 2 && inner[0] == ConnectOrms && inner[|inner| - 1] == DisconnectOrms
    ensures InPhaseOrder(inner)
    ensures forall p :: p in inner ==> Rank(ConnectOrms) <= Rank(p) <= Rank(DisconnectOrms) && p != Verify
    ensures Measure in inner <==> ok(ConnectOrms)
    ensures actions != [] ==> Measure in inner
    ensures actions <= MeasurePlan(names)
    ensures Measure in inner ==> MeasuredUntilFailure(actions, names, clearOk, requestOk)
  {
    inner, actions := [ConnectOrms], [];
    if ok(ConnectOrms) {
      inner := inner + [Measure];
      var results, threw;
      actions, results, threw := MeasureOrms(names, clearOk, requestOk, elapsed);
    }
    // finally
    inner := inner + [DisconnectOrms];
  }

  /**
   * The outer `try` block: clear `user`, seed the one user, then run the ORM
   * phases; `body` lists the phases attempted.
   */
  method RunBody(ok: Phase -> bool, names: seq<OrmName>, clearOk: OrmName -> bool,
                 requestOk: (OrmName, nat) -> bool, elapsed: (OrmName, nat) -> real)
    returns (body: seq<Phase>, actions: seq<Action>)
    ensures |body| >= 1 && body[0] == InitialClear && InPhaseOrder(body)
    ensures forall p :: p in body ==> Rank(InitialClear) <= Rank(p) <= Rank(DisconnectOrms) && p != Verify
    ensures Seed in body <==> ok(InitialClear)
    ensures ConnectOrms in body <==> ok(InitialClear) && ok(Seed)
    ensures DisconnectOrms in body <==> ConnectOrms in body
    ensures Measure in body <==> ConnectOrms in body && ok(ConnectOrms)
    ensures actions != [] ==> Measure in body
    ensures actions <= MeasurePlan(names)
    ensures Measure in body ==> MeasuredUntilFailure(actions, names, clearOk, requestOk)
  {
    body, actions := [InitialClear], [];
    if ok(InitialClear) {
      body := body + [Seed];
      if ok(Seed) {
        var inner;
        inner, actions := RunOrmPhases(ok, names, clearOk, requestOk, elapsed);
        BodyTrace(inner);
        body := [InitialClear, Seed] + inner;
      }
    }
  }

  /**
   * The insert benchmark's top-level run. `ok(p)` says whether phase `p`
   * succeeds (the `Measure` phase's own steps are `MeasureOrms`'). `trace`
   * lists the phases attempted, `actions` what `measureORMs` issued, and
   * `exited` whether `process.exit` was reached.
   */
  method RunInsert(ok: Phase -> bool, names: seq<OrmName>, clearOk: OrmName -> bool,
                   requestOk: (OrmName, nat) -> bool, elapsed: (OrmName, nat) -> real)
    returns (trace: seq<Phase>, actions: seq<Action>, exited: bool)
    ensures |trace| > 0 && trace[0] == ConnectDb && InPhaseOrder(trace) && Verify !in trace
    ensures InitialClear in trace <==> ok(ConnectDb)
    ensures Seed in trace <==> ok(ConnectDb) && ok(InitialClear)
    ensures ConnectOrms in trace <==> ok(ConnectDb) && ok(InitialClear) && ok(Seed)
    ensures DisconnectOrms in trace <==> ConnectOrms in trace
    ensures Measure in trace <==> ConnectOrms in trace && ok(ConnectOrms)
    ensures actions != [] ==> Measure in trace
    ensures actions <= MeasurePlan(names)
    ensures Measure in trace ==> MeasuredUntilFailure(actions, names, clearOk, requestOk)
    ensures FinalClear in trace <==> ok(ConnectDb)
    ensures EndDb in trace <==> ok(ConnectDb) && ok(FinalClear)
    ensures exited <==> Exit in trace
    ensures exited <==> ok(ConnectDb) && ok(FinalClear) && ok(EndDb)
  {
    trace, actions, exited := [ConnectDb], [], false;
    if ok(ConnectDb) {
      var body, cleanup;
      body, actions := RunBody(ok, names, clearOk, requestOk, elapsed);
      cleanup, exited := RunCleanup(ok);
      RunTrace(body, cleanup);
      trace := trace + body + cleanup;
    }
  }
}
