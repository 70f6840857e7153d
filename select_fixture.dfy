/**
 * The fixture the select benchmark seeds (`prepareDb`): every row is a pure
 * function of its loop indices. The lemmas state the design's invariants:
 * sequential distinct ids, foreign keys that reference seeded rows, distinct
 * tags and favouring users within an article, and a stored `favoritesCount`
 * that deliberately disagrees with the favourites actually seeded.
 */
module SelectFixture {
  import opened Text
  import opened Arith
  import opened Seqs
  import opened Harness

  const TagsCount: nat := 30
  const UsersCount: nat := 10
  const TagsInArticle: nat := 5
  const ArticlesCount: nat := 10000
  const FavoritesInArticle: nat := 3
  /** The value every article's `favoritesCount` column is seeded with. */
  const SeededFavoritesCount: int := 5

  /** The `now` the rows are stamped with, in milliseconds; the clock is an input of the model. */
  type Timestamp = int

  datatype TagRow = TagRow(id: int, tag: string)

  datatype UserRow = UserRow(id: int, username: string, email: string, password: string)

  datatype ArticleRow = ArticleRow(
    id: int, authorId: int, slug: string, title: string, description: string, body: string,
    favoritesCount: int, createdAt: Timestamp, updatedAt: Timestamp)

  datatype ArticleTagRow = ArticleTagRow(id: int, articleId: int, tagId: int)

  datatype FavoriteRow = FavoriteRow(id: int, articleId: int, userId: int)

  // ---------------------------------------------------------------- builders

  function TagRowAt(i: nat): TagRow
  {
    var id := i + 1;
    TagRow(id, "tag-" + NatToString(id))
  }

  function TagRows(): seq<TagRow>
  {
    seq(TagsCount, i requires 0 <= i => TagRowAt(i))
  }

  function UserRowAt(i: nat): UserRow
  {
    var id := i + 1;
    UserRow(id, "username-" + NatToString(id), "email-" + NatToString(id) + "@mail.com", "password")
  }

  function UserRows(): seq<UserRow>
  {
    seq(UsersCount, i requires 0 <= i => UserRowAt(i))
  }

  function ArticleRowAt(i: nat, now: Timestamp): ArticleRow
  {
    var id := i + 1;
    ArticleRow(id, (i % UsersCount) + 1, "slug-" + NatToString(id), "title " + NatToString(id),
               "description " + NatToString(id), "body " + NatToString(id),
               SeededFavoritesCount, now, now)
  }

  function ArticleRows(now: Timestamp): seq<ArticleRow>
  {
    seq(ArticlesCount, i requires 0 <= i => ArticleRowAt(i, now))
  }

  function ArticleTagRowAt(i: nat, n: nat): ArticleTagRow
  {
    var articleId := (i % ArticlesCount) + 1;
    ArticleTagRow(i * TagsInArticle + n + 1, articleId, ((articleId + n) % TagsCount) + 1)
  }

  /** The inner `map` of the `articleTag` `flatMap`: the tag links of article `i`. */
  function ArticleTagBlock(i: nat): seq<ArticleTagRow>
  {
    seq(TagsInArticle, n requires 0 <= n => ArticleTagRowAt(i, n))
  }

  function ArticleTagRows(): seq<ArticleTagRow>
  {
    Flatten(seq(ArticlesCount, i requires 0 <= i => ArticleTagBlock(i)))
  }

  function FavoriteRowAt(i: nat, n: nat): FavoriteRow
  {
    var articleId := (i % ArticlesCount) + 1;
    FavoriteRow(i * FavoritesInArticle + n + 1, articleId, ((articleId + n) % UsersCount) + 1)
  }

  /** The inner `map` of the `userArticleFavorite` `flatMap`: the favourites of article `i`. */
  function FavoriteBlock(i: nat): seq<FavoriteRow>
  {
    seq(FavoritesInArticle, n requires 0 <= n => FavoriteRowAt(i, n))
  }

  function FavoriteRows(): seq<FavoriteRow>
  {
    Flatten(seq(ArticlesCount, i requires 0 <= i => FavoriteBlock(i)))
  }

  // ---------------------------------------------------------------- id sets

  function TagIds(): set<int> { set r | r in TagRows() :: r.id }

  function UserIds(): set<int> { set r | r in UserRows() :: r.id }

  function ArticleIds(now: Timestamp): set<int> { set r | r in ArticleRows(now) :: r.id }

  function ArticleTagIds(): set<int> { set r | r in ArticleTagRows() :: r.id }

  function FavoriteIds(): set<int> { set r | r in FavoriteRows() :: r.id }

  /** The number of favourite rows that reference article `articleId`. */
  function FavoritesOf(favorites: seq<FavoriteRow>, articleId: int): nat
  {
    Count(favorites, (r: FavoriteRow) => r.articleId == articleId)
  }

  // ---------------------------------------------------------------- seeding order

  /** One `create(table, rows)` call of `prepareDb`. */
  datatype Batch =
    | Tags(tags: seq<TagRow>)
    | Users(users: seq<UserRow>)
    | Articles(articles: seq<ArticleRow>)
    | ArticleTags(links: seq<ArticleTagRow>)
    | Favorites(favorites: seq<FavoriteRow>)

  function BatchTable(b: Batch): Table
  {
    match b
    case Tags(_) => Tag
    case Users(_) => User
    case Articles(_) => Article
    case ArticleTags(_) => ArticleTag
    case Favorites(_) => UserArticleFavorite
  }

  /** The `create` calls of `prepareDb`, in the order it awaits them. */
  function PrepareDb(now: Timestamp): seq<Batch>
  {
    [Tags(TagRows()), Users(UserRows()), Articles(ArticleRows(now)),
     ArticleTags(ArticleTagRows()), Favorites(FavoriteRows())]
  }

  /** The `tables` list the benchmark clears, before seeding and at the end. */
  const Tables: seq<Table> := [ArticleTag, UserArticleFavorite, Article, Tag, User]

  // ---------------------------------------------------------------- lemmas

  /** Tag row `k` is `{id: k + 1, tag: 'tag-<k + 1>'}`, and no label repeats. */
  lemma TagRowsSequential()
    ensures |TagRows()| == TagsCount
    ensures forall k :: 0 <= k < TagsCount ==>
      TagRows()[k].id == k + 1 && TagRows()[k].tag == "tag-" + NatToString(k + 1)
    ensures forall k1, k2 :: 0 <= k1 < k2 < TagsCount ==> TagRows()[k1].tag != TagRows()[k2].tag
    ensures forall id :: id in TagIds() <==> 1 <= id <= TagsCount
  {
    var rows := TagRows();
    forall k1, k2 | 0 <= k1 < k2 < TagsCount
      ensures rows[k1].tag != rows[k2].tag
    {
      if rows[k1].tag == rows[k2].tag {
        PrefixInjective("tag-", NatToString(k1 + 1), NatToString(k2 + 1));
        NatToStringInjective(k1 + 1, k2 + 1);
      }
    }
    forall id | 1 <= id <= TagsCount
      ensures id in TagIds()
    {
      assert rows[id - 1].id == id;
    }
  }

  /** User row `k` has id `k + 1`, its own username and e-mail, and the password 'password'. */
  lemma UserRowsSequential()
    ensures |UserRows()| == UsersCount
    ensures forall k :: 0 <= k < UsersCount ==>
      && UserRows()[k].id == k + 1
      && UserRows()[k].username == "username-" + NatToString(k + 1)
      && UserRows()[k].email == "email-" + NatToString(k + 1) + "@mail.com"
      && UserRows()[k].password == "password"
    ensures forall k1, k2 :: 0 <= k1 < k2 < UsersCount ==>
      UserRows()[k1].username != UserRows()[k2].username && UserRows()[k1].email != UserRows()[k2].email
    ensures forall id :: id in UserIds() <==> 1 <= id <= UsersCount
  {
    var rows := UserRows();
    forall k1, k2 | 0 <= k1 < k2 < UsersCount
      ensures rows[k1].username != rows[k2].username && rows[k1].email != rows[k2].email
    {
      NatToStringInjective(k1 + 1, k2 + 1);
      if rows[k1].username == rows[k2].username {
        PrefixInjective("username-", NatToString(k1 + 1), NatToString(k2 + 1));
      }
      if rows[k1].email == rows[k2].email {
        FramedInjective("email-", NatToString(k1 + 1), NatToString(k2 + 1), "@mail.com");
      }
    }
    forall id | 1 <= id <= UsersCount
      ensures id in UserIds()
    {
      assert rows[id - 1].id == id;
    }
  }

  /**
   * Article row `k` has id `k + 1`, a distinct slug, an author that is a
   * seeded user, and the stored favourite count 5.
   */
  lemma ArticleRowsSequential(now: Timestamp)
    ensures |ArticleRows(now)| == ArticlesCount
    ensures forall k :: 0 <= k < ArticlesCount ==>
      && ArticleRows(now)[k].id == k + 1
      && ArticleRows(now)[k].authorId == (k % UsersCount) + 1
      && ArticleRows(now)[k].authorId in UserIds()
      && ArticleRows(now)[k].slug == "slug-" + NatToString(k + 1)
      && ArticleRows(now)[k].title == "title " + NatToString(k + 1)
      && ArticleRows(now)[k].description == "description " + NatToString(k + 1)
      && ArticleRows(now)[k].body == "body " + NatToString(k + 1)
      && ArticleRows(now)[k].favoritesCount == SeededFavoritesCount
      && ArticleRows(now)[k].createdAt == now && ArticleRows(now)[k].updatedAt == now
    ensures forall k1, k2 :: 0 <= k1 < k2 < ArticlesCount ==>
      ArticleRows(now)[k1].slug != ArticleRows(now)[k2].slug
    ensures forall id :: id in ArticleIds(now) <==> 1 <= id <= ArticlesCount
  {
    var rows := ArticleRows(now);
    UserRowsSequential();
    forall k1, k2 | 0 <= k1 < k2 < ArticlesCount
      ensures rows[k1].slug != rows[k2].slug
    {
      if rows[k1].slug == rows[k2].slug {
        PrefixInjective("slug-", NatToString(k1 + 1), NatToString(k2 + 1));
        NatToStringInjective(k1 + 1, k2 + 1);
      }
    }
    forall id | 1 <= id <= ArticlesCount
      ensures id in ArticleIds(now)
    {
      assert rows[id - 1].id == id;
    }
  }

  /** Position `k` of the `articleTag` rows holds link `k % 5` of article `k / 5`. */
  lemma ArticleTagRowsAt(k: int)
    requires 0 <= k < ArticlesCount * TagsInArticle
    ensures |ArticleTagRows()| == ArticlesCount * TagsInArticle
    ensures ArticleTagRows()[k].id == k + 1
    ensures ArticleTagRows()[k].articleId == k / TagsInArticle + 1
    ensures ArticleTagRows()[k].tagId == ((k / TagsInArticle + 1 + k % TagsInArticle) % TagsCount) + 1
  {
    var blocks := seq(ArticlesCount, i requires 0 <= i => ArticleTagBlock(i));
    FlattenUniformIndex(blocks, TagsInArticle, k);
  }

  /**
   * The `articleTag` ids are `1 .. articlesCount * tagsInArticle` in order,
   * so they are pairwise distinct and cover exactly that range.
   */
  lemma ArticleTagIdsSequential()
    ensures |ArticleTagRows()| == ArticlesCount * TagsInArticle
    ensures forall k :: 0 <= k < |ArticleTagRows()| ==> ArticleTagRows()[k].id == k + 1
    ensures forall id :: id in ArticleTagIds() <==> 1 <= id <= ArticlesCount * TagsInArticle
  {
    var rows := ArticleTagRows();
    ArticleTagRowsAt(0);
    forall k | 0 <= k < |rows|
      ensures rows[k].id == k + 1
    {
      ArticleTagRowsAt(k);
    }
    forall id | 1 <= id <= |rows|
      ensures id in ArticleTagIds()
    {
      assert rows[id - 1].id == id;
    }
  }

  /** Every tag link references a seeded article and a seeded tag. */
  lemma ArticleTagForeignKeys(now: Timestamp)
    ensures forall r :: r in ArticleTagRows() ==> r.articleId in ArticleIds(now) && r.tagId in TagIds()
  {
    TagRowsSequential();
    ArticleRowsSequential(now);
    ArticleTagRowsAt(0);
    forall k | 0 <= k < |ArticleTagRows()|
      ensures ArticleTagRows()[k].articleId in ArticleIds(now) && ArticleTagRows()[k].tagId in TagIds()
    {
      ArticleTagRowsAt(k);
    }
  }

  /** No article is linked to the same tag twice (five links, thirty tags). */
  lemma ArticleTagsDistinctPerArticle()
    ensures forall k1, k2 ::
      0 <= k1 < k2 < |ArticleTagRows()| && ArticleTagRows()[k1].articleId == ArticleTagRows()[k2].articleId
      ==> ArticleTagRows()[k1].tagId != ArticleTagRows()[k2].tagId
  {
    var rows := ArticleTagRows();
    ArticleTagRowsAt(0);
    forall k1, k2 | 0 <= k1 < k2 < |rows| && rows[k1].articleId == rows[k2].articleId
      ensures rows[k1].tagId != rows[k2].tagId
    {
      ArticleTagRowsAt(k1);
      ArticleTagRowsAt(k2);
      var q := k1 / TagsInArticle;
      DivModBasics(k1, TagsInArticle);
      DivModBasics(k2, TagsInArticle);
      ModDistinct(q + 1, k1 % TagsInArticle, k2 % TagsInArticle, TagsCount);
    }
  }

  /** Position `k` of the favourite rows holds favourite `k % 3` of article `k / 3`. */
  lemma FavoriteRowsAt(k: int)
    requires 0 <= k < ArticlesCount * FavoritesInArticle
    ensures |FavoriteRows()| == ArticlesCount * FavoritesInArticle
    ensures FavoriteRows()[k].id == k + 1
    ensures FavoriteRows()[k].articleId == k / FavoritesInArticle + 1
    ensures FavoriteRows()[k].userId == ((k / FavoritesInArticle + 1 + k % FavoritesInArticle) % UsersCount) + 1
  {
    var blocks := seq(ArticlesCount, i requires 0 <= i => FavoriteBlock(i));
    FlattenUniformIndex(blocks, FavoritesInArticle, k);
  }

  /**
   * The favourite ids are `1 .. articlesCount * favoritesInArticle` in order,
   * so they are pairwise distinct and cover exactly that range.
   */
  lemma FavoriteIdsSequential()
    ensures |FavoriteRows()| == ArticlesCount * FavoritesInArticle
    ensures forall k :: 0 <= k < |FavoriteRows()| ==> FavoriteRows()[k].id == k + 1
    ensures forall id :: id in FavoriteIds() <==> 1 <= id <= ArticlesCount * FavoritesInArticle
  {
    var rows := FavoriteRows();
    FavoriteRowsAt(0);
    forall k | 0 <= k < |rows|
      ensures rows[k].id == k + 1
    {
      FavoriteRowsAt(k);
    }
    forall id | 1 <= id <= |rows|
      ensures id in FavoriteIds()
    {
      assert rows[id - 1].id == id;
    }
  }

  /** Every favourite references a seeded article and a seeded user. */
  lemma FavoriteForeignKeys(now: Timestamp)
    ensures forall r :: r in FavoriteRows() ==> r.articleId in ArticleIds(now) && r.userId in UserIds()
  {
    UserRowsSequential();
    ArticleRowsSequential(now);
    FavoriteRowsAt(0);
    forall k | 0 <= k < |FavoriteRows()|
      ensures FavoriteRows()[k].articleId in ArticleIds(now) && FavoriteRows()[k].userId in UserIds()
    {
      FavoriteRowsAt(k);
    }
  }

  /** No user favours the same article twice (three favourites, ten users). */
  lemma FavoriteUsersDistinctPerArticle()
    ensures forall k1, k2 ::
      0 <= k1 < k2 < |FavoriteRows()| && FavoriteRows()[k1].articleId == FavoriteRows()[k2].articleId
      ==> FavoriteRows()[k1].userId != FavoriteRows()[k2].userId
  {
    var rows := FavoriteRows();
    FavoriteRowsAt(0);
    forall k1, k2 | 0 <= k1 < k2 < |rows| && rows[k1].articleId == rows[k2].articleId
      ensures rows[k1].userId != rows[k2].userId
    {
      FavoriteRowsAt(k1);
      FavoriteRowsAt(k2);
      var q := k1 / FavoritesInArticle;
      DivModBasics(k1, FavoritesInArticle);
      DivModBasics(k2, FavoritesInArticle);
      ModDistinct(q + 1, k1 % FavoritesInArticle, k2 % FavoritesInArticle, UsersCount);
    }
  }

  /**
   * The designed trap: every article stores `favoritesCount = 5`, while
   * exactly three favourite rows reference it, so a backend that recounts
   * instead of returning the column is caught.
   */
  lemma StoredFavoritesCountIsWrong(now: Timestamp)
    ensures forall a :: a in ArticleRows(now) ==>
      && a.favoritesCount == SeededFavoritesCount
      && FavoritesOf(FavoriteRows(), a.id) == FavoritesInArticle
      && a.favoritesCount != FavoritesOf(FavoriteRows(), a.id)
  {
    var blocks := seq(ArticlesCount, i requires 0 <= i => FavoriteBlock(i));
    forall a | a in ArticleRows(now)
      ensures FavoritesOf(FavoriteRows(), a.id) == FavoritesInArticle
    {
      var p := (r: FavoriteRow) => r.articleId == a.id;
      CountFlattenOneBlock(blocks, p, a.id - 1);
    }
  }

  /** The tables `prepareDb` fills, in the order of its `create` calls. */
  const SeedOrder: seq<Table> := [Tag, User, Article, ArticleTag, UserArticleFavorite]

  lemma PrepareDbFollowsSeedOrder(now: Timestamp)
    ensures |PrepareDb(now)| == |SeedOrder|
    ensures forall i :: 0 <= i < |SeedOrder| ==> BatchTable(PrepareDb(now)[i]) == SeedOrder[i]
  {
  }

  /** Each table is created after every table it references. */
  lemma SeedOrderRespectsForeignKeys()
    ensures InsertOrderSafe(SeedOrder)
  {
  }

  /**
   * The `tables` list empties the referrers of each table before the table
   * itself, and names exactly the seeded tables.
   */
  lemma ClearOrderRespectsForeignKeys()
    ensures DeleteOrderSafe(Tables, {User, Tag, Article, ArticleTag, UserArticleFavorite})
    ensures multiset(Tables) == multiset(SeedOrder)
  {
    assert Tables[..1] == [ArticleTag];
    assert Tables[..2] == [ArticleTag, UserArticleFavorite];
    assert Tables[..3] == [ArticleTag, UserArticleFavorite, Article];
    assert Tables[..4] == [ArticleTag, UserArticleFavorite, Article, Tag];
  }
}
