// The raw-SQL article repository: the `listArticles` query text, the
// VALUES lists `createArticle` serialises, its statement order and error
// handling, and the operations that are not implemented.

module SqlArticleRepo {
  import opened Outcomes
  import opened Text
  import opened Seqs

  // ---------------------------------------------------------------------
  // listArticles: query text
  // ---------------------------------------------------------------------

  const ListBase := "SELECT * FROM article"
  const LimitKeyword := " LIMIT "
  const OffsetKeyword := " OFFSET "
  /** The count query does not depend on the request's parameters. */
  const CountQuery := "SELECT COUNT(*) FROM article"

  /**
   * A request parameter as the template literal sees it: `None` is an
   * absent (`undefined`) parameter. The value takes part only when it is
   * truthy, i.e. present and not 0.
   */
  function WhenTruthy(v: Option<int>): (r: Option<int>)
    ensures r.Some? <==> v.Some? && v.value != 0
    ensures r.Some? ==> r == v
  {
    if v.Some? && v.value != 0 then v else None
  }

  /** ` LIMIT <n>` or ` OFFSET <n>` for a truthy value, the empty string otherwise. */
  function Clause(keyword: string, v: Option<int>): string
  {
    if WhenTruthy(v).Some? then keyword + IntToString(v.value) else ""
  }

  /** The text `listArticles` sends for its page of articles. */
  function ListQuery(limit: Option<int>, offset: Option<int>): string
  {
    ListBase + Clause(LimitKeyword, limit) + Clause(OffsetKeyword, offset)
  }

  /** `listArticles` builds its query by extending a `let` string. */
  method BuildListQuery(limit: Option<int>, offset: Option<int>) returns (query: string)
    ensures query == ListQuery(limit, offset)
  {
    query := ListBase;
    if limit.Some? && limit.value != 0 {
      query := query + LimitKeyword + IntToString(limit.value);
    }
    assert query == ListBase + Clause(LimitKeyword, limit);
    if offset.Some? && offset.value != 0 {
      query := query + OffsetKeyword + IntToString(offset.value);
    }
  }

  /**
   * Reads an optional `keyword <integer>` clause at the head of `s`; the
   * integer runs to the next space. Yields the value (if the clause is
   * there) and what follows it.
   */
  function ParseClause(keyword: string, s: string): Option<(Option<int>, string)>
  {
    if |keyword| <= |s| && s[..|keyword|] == keyword then
      var t := s[|keyword|..];
      var k := FirstIndexOf(t, ' ');
      match ParseInt(t[..k])
      case None => None
      case Some(v) => Some((Some(v), t[k..]))
    else
      Some((None, s))
  }

  /** Reads a list query back into the limit and offset it carries. */
  function ParseListQuery(q: string): Option<(Option<int>, Option<int>)>
  {
    if |q| < |ListBase| || q[..|ListBase|] != ListBase then None
    else ParseListClauses(q[|ListBase|..])
  }

  /** Reads the optional LIMIT clause, then the optional OFFSET clause, then the end. */
  function ParseListClauses(s: string): Option<(Option<int>, Option<int>)>
  {
    match ParseClause(LimitKeyword, s)
    case None => None
    case Some((limit, afterLimit)) =>
      match ParseClause(OffsetKeyword, afterLimit)
      case None => None
      case Some((offset, rest)) => if rest == "" then Some((limit, offset)) else None
  }

  /** A clause that is present is read back, leaving what follows it. */
  lemma ClauseRoundTrip(keyword: string, v: int, rest: string)
    requires rest == "" || rest[0] == ' '
    ensures ParseClause(keyword, keyword + IntToString(v) + rest) == Some((Some(v), rest))
  {
    var s := keyword + IntToString(v) + rest;
    assert s[..|keyword|] == keyword;
    var t := s[|keyword|..];
    assert t == IntToString(v) + rest;
    NotInIntToString(v, ' ');
    if rest == "" {
      assert t == IntToString(v);
      FirstIndexOfAbsent(t, ' ');
    } else {
      FirstIndexOfAfter(IntToString(v), rest, ' ');
    }
    var k := FirstIndexOf(t, ' ');
    assert t[..k] == IntToString(v);
    assert t[k..] == rest;
    IntToStringRoundTrip(v);
  }

  /** Text that does not start with the keyword holds no clause for it. */
  lemma ClauseAbsent(keyword: string, s: string)
    requires |s| < |keyword| || s[..|keyword|] != keyword
    ensures ParseClause(keyword, s) == Some((None, s))
  {
  }

  /** The offset clause reads back as the truthy offset, with nothing after it. */
  lemma OffsetClauseRoundTrip(offset: Option<int>)
    ensures ParseClause(OffsetKeyword, Clause(OffsetKeyword, offset)) == Some((WhenTruthy(offset), ""))
  {
    var oc := Clause(OffsetKeyword, offset);
    if WhenTruthy(offset).Some? {
      ClauseRoundTrip(OffsetKeyword, offset.value, "");
      assert oc + "" == oc;
    } else {
      ClauseAbsent(OffsetKeyword, oc);
    }
  }

  /** The limit clause reads back as the truthy limit, leaving the offset clause. */
  lemma LimitClauseRoundTrip(limit: Option<int>, offset: Option<int>)
    ensures ParseClause(LimitKeyword, Clause(LimitKeyword, limit) + Clause(OffsetKeyword, offset))
            == Some((WhenTruthy(limit), Clause(OffsetKeyword, offset)))
  {
    var lc, oc := Clause(LimitKeyword, limit), Clause(OffsetKeyword, offset);
    if WhenTruthy(limit).Some? {
      ClauseRoundTrip(LimitKeyword, limit.value, oc);
    } else {
      assert lc + oc == oc;
      if oc != "" {
        assert oc[1] == 'O';
      }
      ClauseAbsent(LimitKeyword, oc);
    }
  }

  /**
   * The list query carries exactly the truthy parameters: ` LIMIT` only for
   * a truthy limit, ` OFFSET` only for a truthy offset, LIMIT first.
   */
  lemma ListQueryRoundTrip(limit: Option<int>, offset: Option<int>)
    ensures ParseListQuery(ListQuery(limit, offset)) == Some((WhenTruthy(limit), WhenTruthy(offset)))
  {
    var tail := Clause(LimitKeyword, limit) + Clause(OffsetKeyword, offset);
    var q := ListQuery(limit, offset);
    assert q == ListBase + tail;
    assert q[..|ListBase|] == ListBase;
    assert q[|ListBase|..] == tail;
    LimitClauseRoundTrip(limit, offset);
    OffsetClauseRoundTrip(offset);
  }

  /** Two requests give the same page query exactly when their truthy parameters agree. */
  lemma ListQueryDistinguishes(l1: Option<int>, o1: Option<int>, l2: Option<int>, o2: Option<int>)
    ensures ListQuery(l1, o1) == ListQuery(l2, o2)
            <==> WhenTruthy(l1) == WhenTruthy(l2) && WhenTruthy(o1) == WhenTruthy(o2)
  {
    ListQueryRoundTrip(l1, o1);
    ListQueryRoundTrip(l2, o2);
  }

  // ---------------------------------------------------------------------
  // createArticle: VALUES lists
  // ---------------------------------------------------------------------

  /** One tag as the upsert's VALUES list writes it: `('<tag>')`, unescaped. */
  function TagTuple(tag: string): string
  {
    "('" + tag + "')"
  }

  /** The `map` step of the tag VALUES text: each tag as its tuple, in order. */
  function TagTuples(tags: seq<string>): (r: seq<string>)
    ensures |r| == |tags|
  {
    if tags == [] then [] else [TagTuple(tags[0])] + TagTuples(tags[1..])
  }

  /** The tag upsert's VALUES text: one tuple per tag, in order, joined by `,`. */
  function TagValues(tags: seq<string>): string
  {
    Join(TagTuples(tags), ",")
  }

  /** Reads one `('tag')` tuple, the tag running to its closing quote; yields it and what follows. */
  function ParseTagTuple(s: string): (r: Option<(string, string)>)
    ensures r.Some? ==> |r.value.1| < |s|
  {
    if |s| < 2 || s[..2] != "('" then None
    else
      var body := s[2..];
      var k := FirstIndexOf(body, '\'');
      if k + 2 > |body| || body[k + 1] != ')' then None
      else Some((body[..k], body[k + 2..]))
  }

  /** Reads a non-empty `('a'),('b'),…` list. */
  function ParseTagList(s: string): Option<seq<string>>
    decreases |s|
  {
    match ParseTagTuple(s)
    case None => None
    case Some((tag, rest)) =>
      if rest == "" then Some([tag])
      else if rest[0] != ',' then None
      else
        match ParseTagList(rest[1..])
        case None => None
        case Some(more) => Some([tag] + more)
  }


  function ParseTagValues(s: string): Option<seq<string>>
  {
    if s == "" then Some([]) else ParseTagList(s)
  }

  predicate QuoteFree(tags: seq<string>)
  {
    forall i :: 0 <= i < |tags| ==> '\'' !in tags[i]
  }

  /** The head tuple of a tag list is read, leaving what follows it. */
  lemma TagHead(t: string, rest: string)
    requires '\'' !in t
    ensures ParseTagTuple(TagTuple(t) + rest) == Some((t, rest))
  {
    var s := TagTuple(t) + rest;
    assert s[..2] == "('";
    var body := s[2..];
    assert body == t + ("')" + rest);
    FirstIndexOfAfter(t, "')" + rest, '\'');
    var k := FirstIndexOf(body, '\'');
    assert k == |t| && body[k + 1] == ')';
    assert body[..k] == t;
    assert body[k + 2..] == rest;
  }


  /** The tag text is its first tuple followed, after a comma, by the rest. */
  lemma TagValuesCons(tags: seq<string>)
    requires |tags| > 0
    ensures TagValues(tags)
            == TagTuple(tags[0]) + (if |tags| == 1 then "" else "," + TagValues(tags[1..]))
  {
    assert TagTuples(tags)[0] == TagTuple(tags[0]);
    assert TagTuples(tags)[1..] == TagTuples(tags[1..]);
  }

  /** A tuple, a comma and a parsable list parse as one more tag. */
  lemma TagListCons(t: string, tail: string, more: seq<string>)
    requires '\'' !in t
    requires ParseTagList(tail) == Some(more)
    ensures ParseTagList(TagTuple(t) + ("," + tail)) == Some([t] + more)
  {
    TagHead(t, "," + tail);
    assert ("," + tail)[1..] == tail;
  }


  /** A single tag's text parses back to it. */
  lemma TagListSingle(tags: seq<string>)
    requires |tags| == 1 && '\'' !in tags[0]
    ensures ParseTagList(TagValues(tags)) == Some(tags)
  {
    TagValuesCons(tags);
    TagHead(tags[0], "");
    assert TagTuple(tags[0]) + "" == TagTuple(tags[0]);
    assert tags == [tags[0]];
  }

  lemma {:induction false} TagListRoundTrip(tags: seq<string>)
    requires |tags| > 0 && QuoteFree(tags)
    ensures ParseTagList(TagValues(tags)) == Some(tags)
    decreases |tags|
  {
    assert '\'' !in tags[0];
    if |tags| == 1 {
      TagListSingle(tags);
    } else {
      var tail := tags[1..];
      assert QuoteFree(tail) by {
        forall i | 0 <= i < |tail| ensures '\'' !in tail[i] {
          assert tail[i] == tags[i + 1];
        }
      }
      TagListRoundTrip(tail);
      TagValuesCons(tags);
      TagListCons(tags[0], TagValues(tail), tail);
      assert [tags[0]] + tail == tags;
    }
  }




  /**
   * Tags free of single quotes are read back from the upsert's VALUES text
   * exactly, in order.
   */
  lemma TagValuesRoundTrip(tags: seq<string>)
    requires QuoteFree(tags)
    ensures ParseTagValues(TagValues(tags)) == Some(tags)
  {
    if |tags| > 0 {
      TagListRoundTrip(tags);
      assert TagValues(tags)[..2] == "('";
    }
  }

  /**
   * Tags are not escaped: a tag holding `'),('` is written exactly like two
   * separate tags, so the text does not determine the list.
   */
  lemma TagValuesUnescaped()
    ensures TagValues(["a'),('b"]) == TagValues(["a", "b"])
  {
    var one, two := ["a'),('b"], ["a", "b"];
    assert TagTuples(one)[0] == "('a'),('b')";
    assert TagTuples(one) == ["('a'),('b')"];
    assert TagTuples(two)[0] == "('a')" && TagTuples(two)[1] == "('b')";
    assert TagTuples(two)[1..] == ["('b')"];
    assert TagValues(two) == "('a')" + "," + "('b')";
  }

  /** With comma-free tags, n tags give exactly n - 1 separating commas. */
  lemma {:induction false} TagValuesSeparators(tags: seq<string>)
    requires |tags| > 0
    requires forall i :: 0 <= i < |tags| ==> ',' !in tags[i]
    ensures Count(TagValues(tags), (c: char) => c == ',') == |tags| - 1
    decreases |tags|
  {
    var isComma := (c: char) => c == ',';
    var head := TagTuple(tags[0]);
    assert forall k :: 0 <= k < |head| ==> isComma(head[k]) == false by {
      forall k | 0 <= k < |head| ensures head[k] != ',' {
        if 2 <= k < 2 + |tags[0]| {
          assert head[k] == tags[0][k - 2];
        }
      }
    }
    CountUniform(head, isComma, false);
    assert TagTuples(tags)[1..] == TagTuples(tags[1..]);
    if |tags| > 1 {
      var tail := TagValues(tags[1..]);
      assert TagValues(tags) == head + ("," + tail);
      CountConcat(head, "," + tail, isComma);
      CountConcat(",", tail, isComma);
      TagValuesSeparators(tags[1..]);
    }
  }

  /** One link as the articleTag insert's VALUES list writes it: `(<articleId>, <tagId>)`. */
  function LinkTuple(articleId: int, tagId: int): string
  {
    "(" + IntToString(articleId) + ", " + IntToString(tagId) + ")"
  }

  /** The `map` step of the links text: each tag id as its tuple, in order. */
  function LinkTuples(articleId: int, tagIds: seq<int>): (r: seq<string>)
    ensures |r| == |tagIds|
  {
    if tagIds == [] then [] else [LinkTuple(articleId, tagIds[0])] + LinkTuples(articleId, tagIds[1..])
  }

  /** The articleTag insert's VALUES text: one tuple per tag id, in order. */
  function ArticleTagValues(articleId: int, tagIds: seq<int>): string
  {
    Join(LinkTuples(articleId, tagIds), ",")
  }

  /** The (articleId, tagId) pairs a VALUES text of links should hold. */
  function Links(articleId: int, tagIds: seq<int>): (r: seq<(int, int)>)
    ensures |r| == |tagIds|
  {
    seq(|tagIds|, i requires 0 <= i < |tagIds| => (articleId, tagIds[i]))
  }

  /** Reads an integer that runs up to `stop`; yields it and what follows `stop`. */
  function ReadIntUntil(s: string, stop: char): (r: Option<(int, string)>)
    ensures r.Some? ==> |r.value.1| < |s|
  {
    var k := FirstIndexOf(s, stop);
    if k == |s| then None
    else
      match ParseInt(s[..k])
      case None => None
      case Some(v) => Some((v, s[k + 1..]))
  }

  /** Reads one `(a, t)` pair; yields it and what follows it. */
  function ParsePair(s: string): (r: Option<((int, int), string)>)
    ensures r.Some? ==> |r.value.1| < |s|
  {
    if |s| < 1 || s[0] != '(' then None
    else
      match ReadIntUntil(s[1..], ',')
      case None => None
      case Some((a, r)) =>
        if |r| < 1 || r[0] != ' ' then None
        else
          match ReadIntUntil(r[1..], ')')
          case None => None
          case Some((t, rest)) => Some(((a, t), rest))
  }

  /** Reads a non-empty `(a, t),(a, t),…` list of integer pairs. */
  function ParseLinkList(s: string): Option<seq<(int, int)>>
    decreases |s|
  {
    match ParsePair(s)
    case None => None
    case Some((pair, rest)) =>
      if rest == "" then Some([pair])
      else if rest[0] != ',' then None
      else
        match ParseLinkList(rest[1..])
        case None => None
        case Some(more) => Some([pair] + more)
  }

  function ParseLinkValues(s: string): Option<seq<(int, int)>>
  {
    if s == "" then Some([]) else ParseLinkList(s)
  }

  /** A rendered integer followed by a non-numeral stop character is read back. */
  lemma ReadIntUntilRoundTrip(v: int, stop: char, rest: string)
    requires !IsNumeral(stop)
    ensures ReadIntUntil(IntToString(v) + [stop] + rest, stop) == Some((v, rest))
  {
    var n := IntToString(v);
    var s := n + [stop] + rest;
    NotInIntToString(v, stop);
    assert s == n + ([stop] + rest);
    FirstIndexOfAfter(n, [stop] + rest, stop);
    assert s[..|n|] == n;
    assert s[|n| + 1..] == rest;
    IntToStringRoundTrip(v);
  }

  /** The head tuple of a link list is read, leaving what follows it. */
  lemma LinkHead(articleId: int, tagId: int, rest: string)
    ensures ParsePair(LinkTuple(articleId, tagId) + rest) == Some(((articleId, tagId), rest))
  {
    var a, t := IntToString(articleId), IntToString(tagId);
    var afterComma := " " + (t + [')'] + rest);
    var s := LinkTuple(articleId, tagId) + rest;
    assert s == "(" + (a + [','] + afterComma);
    ReadIntUntilRoundTrip(articleId, ',', afterComma);
    ReadIntUntilRoundTrip(tagId, ')', rest);
    PairParts(s, articleId, afterComma, tagId, rest);
  }

  /** `ParsePair` reads `(`, an integer up to `,`, a space, an integer up to `)`. */
  lemma PairParts(s: string, a: int, afterComma: string, t: int, rest: string)
    requires |s| > 0 && s[0] == '('
    requires ReadIntUntil(s[1..], ',') == Some((a, afterComma))
    requires |afterComma| > 0 && afterComma[0] == ' '
    requires ReadIntUntil(afterComma[1..], ')') == Some((t, rest))
    ensures ParsePair(s) == Some(((a, t), rest))
  {
  }


  /** The links text is its first tuple followed, after a comma, by the rest. */
  lemma ArticleTagValuesCons(articleId: int, tagIds: seq<int>)
    requires |tagIds| > 0
    ensures ArticleTagValues(articleId, tagIds)
            == LinkTuple(articleId, tagIds[0])
               + (if |tagIds| == 1 then "" else "," + ArticleTagValues(articleId, tagIds[1..]))
    ensures Links(articleId, tagIds) == [(articleId, tagIds[0])] + Links(articleId, tagIds[1..])
  {
    assert LinkTuples(articleId, tagIds)[0] == LinkTuple(articleId, tagIds[0]);
    assert LinkTuples(articleId, tagIds)[1..] == LinkTuples(articleId, tagIds[1..]);
  }

  lemma {:induction false} LinkListRoundTrip(articleId: int, tagIds: seq<int>)
    requires |tagIds| > 0
    ensures ParseLinkList(ArticleTagValues(articleId, tagIds)) == Some(Links(articleId, tagIds))
    decreases |tagIds|
  {
    ArticleTagValuesCons(articleId, tagIds);
    var rest := if |tagIds| == 1 then "" else "," + ArticleTagValues(articleId, tagIds[1..]);
    LinkHead(articleId, tagIds[0], rest);
    if |tagIds| > 1 {
      assert rest[1..] == ArticleTagValues(articleId, tagIds[1..]);
      LinkListRoundTrip(articleId, tagIds[1..]);
    } else {
      var s := ArticleTagValues(articleId, tagIds);
      assert s == LinkTuple(articleId, tagIds[0]) + "";
      assert ParsePair(s) == Some(((articleId, tagIds[0]), ""));
      assert Links(articleId, tagIds) == [(articleId, tagIds[0])];
    }
  }

  /**
   * The articleTag VALUES text holds one pair per tag id, in the order the
   * ids came back, every pair with the same article id.
   */
  lemma ArticleTagValuesRoundTrip(articleId: int, tagIds: seq<int>)
    ensures ParseLinkValues(ArticleTagValues(articleId, tagIds)) == Some(Links(articleId, tagIds))
  {
    if |tagIds| > 0 {
      LinkListRoundTrip(articleId, tagIds);
      assert ArticleTagValues(articleId, tagIds)[0] == '(';
    }
  }

  // ---------------------------------------------------------------------
  // Statements, connections and the two implemented operations
  // ---------------------------------------------------------------------

  /** A statement sent to the database: plain text, or a parameterised insert or select. */
  datatype Stmt =
    | Query(sql: string)
    | InsertArticle(title: string, slug: string, description: string, body: string, authorId: int)
    | UpsertTags(values: string)
    | InsertArticleTags(values: string)
    | SelectArticleById(id: int)

  const Begin := Query("BEGIN")
  const Commit := Query("COMMIT")
  const Rollback := Query("ROLLBACK")

  /** What happens on the pool: a statement on the checked-out client, one on the pool itself, or the client's release. */
  datatype Event = OnClient(stmt: Stmt) | OnPool(stmt: Stmt) | Release

  /**
   * Why an operation threw: `pool.connect` failed, a statement failed, the
   * article insert returned no row (reading `id` of `undefined`), or the
   * operation is a stub.
   */
  datatype Failure = ConnectFailed | StatementFailed(stmt: Stmt) | RowMissing | NotImplemented(message: string)

  /** `rows[0]`, which is `undefined` on an empty result. */
  function FirstRow<R>(rows: seq<R>): (r: Option<R>)
    ensures r.Some? <==> |rows| > 0
    ensures r.Some? ==> r.value == rows[0]
  {
    if |rows| > 0 then Some(rows[0]) else None
  }

  /** The listing `listArticles` returns: every row of the page and the count query's first row. */
  datatype Listing<R> = Listing(articles: seq<R>, count: Option<R>)

  /**
   * `listArticles`. `connectOk` says whether `pool.connect` succeeds and
   * `exec(st)` gives the rows of `st`, or `None` when it fails. The client
   * is released only when both queries succeed.
   */
  method ListArticles<R>(limit: Option<int>, offset: Option<int>, connectOk: bool,
                         exec: Stmt -> Option<seq<R>>)
    returns (result: Result<Listing<R>, Failure>, events: seq<Event>)
    ensures !connectOk ==> result == Err(ConnectFailed) && events == []
    ensures connectOk ==> |events| >= 1 && events[0] == OnClient(Query(ListQuery(limit, offset)))
    ensures result.Ok? <==> connectOk && exec(Query(ListQuery(limit, offset))).Some? && exec(Query(CountQuery)).Some?
    ensures result.Ok? ==>
              events == [OnClient(Query(ListQuery(limit, offset))), OnClient(Query(CountQuery)), Release]
              && result.value.articles == exec(Query(ListQuery(limit, offset))).value
              && result.value.count == FirstRow(exec(Query(CountQuery)).value)
    ensures Release in events <==> result.Ok?
    ensures connectOk && exec(Query(ListQuery(limit, offset))).None? ==>
              events == [OnClient(Query(ListQuery(limit, offset)))]
    ensures connectOk && exec(Query(ListQuery(limit, offset))).Some? && exec(Query(CountQuery)).None? ==>
              events == [OnClient(Query(ListQuery(limit, offset))), OnClient(Query(CountQuery))]
    ensures connectOk && result.Err? ==>
              result.error == StatementFailed(events[|events| - 1].stmt)
              && exec(events[|events| - 1].stmt).None?
  {
    if !connectOk {
      return Err(ConnectFailed), [];
    }
    var query := BuildListQuery(limit, offset);
    events := [OnClient(Query(query))];
    var page := exec(Query(query));
    if page.None? {
      return Err(StatementFailed(Query(query))), events;
    }
    events := events + [OnClient(Query(CountQuery))];
    var count := exec(Query(CountQuery));
    if count.None? {
      return Err(StatementFailed(Query(CountQuery))), events;
    }
    events := events + [Release];
    result := Ok(Listing(page.value, FirstRow(count.value)));
  }

  /** The fields of a new article, `tagList` included. */
  datatype NewArticle = NewArticle(title: string, slug: string, description: string, body: string, tagList: seq<string>)

  /** Ids of the rows a statement returned, in row order; none if it failed. */
  function IdsOf<R>(reply: Option<seq<R>>, idOf: R -> int): (ids: seq<int>)
    ensures reply.Some? ==> |ids| == |reply.value|
    ensures reply.Some? ==> forall i :: 0 <= i < |ids| ==> ids[i] == idOf(reply.value[i])
  {
    if reply.None? then [] else seq(|reply.value|, i requires 0 <= i < |reply.value| => idOf(reply.value[i]))
  }

  /** Id of the first row a statement returned, if it returned one. */
  function FirstId<R>(reply: Option<seq<R>>, idOf: R -> int): (id: Option<int>)
    ensures id.Some? <==> reply.Some? && |reply.value| > 0
    ensures id.Some? ==> id.value == idOf(reply.value[0])
  {
    if reply.Some? && |reply.value| > 0 then Some(idOf(reply.value[0])) else None
  }

  /** The articleTag VALUES text when the article row may be missing; it has no tuple then. */
  function LinkValues(articleId: Option<int>, tagIds: seq<int>): string
  {
    if articleId.Some? then ArticleTagValues(articleId.value, tagIds) else ""
  }

  /**
   * The statements `createArticle` sends on its client, in order, each
   * after the previous one: BEGIN; the article insert with the caller as
   * author; the tag upsert of the whole tag list; the links of the new
   * article to the returned tag ids; COMMIT; the select of the new article.
   * The links are sent only once the article row is known or there are no
   * tag ids, and the select only once the article row is known.
   */
  predicate FollowsProtocol<R>(sent: seq<Stmt>, input: NewArticle, userId: int,
                               exec: Stmt -> Option<seq<R>>, idOf: R -> int)
  {
    1 <= |sent| <= 6
    && sent[0] == Begin
    && (|sent| > 1 ==> sent[1] == InsertArticle(input.title, input.slug, input.description, input.body, userId))
    && (|sent| > 2 ==> sent[2] == UpsertTags(TagValues(input.tagList)))
    && (|sent| > 3 ==>
          var articleId, tagIds := FirstId(exec(sent[1]), idOf), IdsOf(exec(sent[2]), idOf);
          (articleId.Some? || tagIds == []) && sent[3] == InsertArticleTags(LinkValues(articleId, tagIds)))
    && (|sent| > 4 ==> sent[4] == Commit)
    && (|sent| > 5 ==>
          var articleId := FirstId(exec(sent[1]), idOf);
          articleId.Some? && sent[5] == SelectArticleById(articleId.value))
  }

  /**
   * Where reading `id` of a missing article row stops the transaction: the
   * article insert returned no row, and the last statement sent succeeded.
   * With tag ids to link, mapping them to tuples throws right after the
   * upsert; with none, the empty link insert and COMMIT go out first and
   * the select by id throws.
   */
  predicate StopsAtMissingRow<R>(sent: seq<Stmt>, exec: Stmt -> Option<seq<R>>, idOf: R -> int)
  {
    && (|sent| == 3 || |sent| == 5)
    && FirstId(exec(sent[1]), idOf).None?
    && exec(sent[|sent| - 1]).Some?
    && (|sent| == 3 <==> IdsOf(exec(sent[2]), idOf) != [])
  }

  /**
   * The `try` block of `createArticle`: the statements it sends and how it
   * ends. It stops at the first failing statement, or where it reads `id`
   * of a missing article row.
   */
  method RunTransaction<R>(input: NewArticle, userId: int, exec: Stmt -> Option<seq<R>>, idOf: R -> int)
    returns (sent: seq<Stmt>, outcome: Result<Option<R>, Failure>)
    ensures FollowsProtocol(sent, input, userId, exec, idOf)
    ensures forall i :: 0 <= i < |sent| - 1 ==> exec(sent[i]).Some?
    ensures outcome.Ok? <==> |sent| == 6 && exec(sent[5]).Some?
    ensures outcome.Ok? ==> outcome.value == FirstRow(exec(sent[5]).value)
    ensures outcome.Err? ==>
              if exec(sent[|sent| - 1]).None? then outcome.error == StatementFailed(sent[|sent| - 1])
              else outcome.error == RowMissing && StopsAtMissingRow(sent, exec, idOf)
  {
    sent := [Begin];
    if exec(Begin).None? {
      return sent, Err(StatementFailed(Begin));
    }
    var insert := InsertArticle(input.title, input.slug, input.description, input.body, userId);
    sent := [Begin, insert];
    if exec(insert).None? {
      return sent, Err(StatementFailed(insert));
    }
    var articleId := FirstId(exec(insert), idOf);
    var upsert := UpsertTags(TagValues(input.tagList));
    sent := [Begin, insert, upsert];
    if exec(upsert).None? {
      return sent, Err(StatementFailed(upsert));
    }
    var tagIds := IdsOf(exec(upsert), idOf);
    if articleId.None? && tagIds != [] {
      return sent, Err(RowMissing);
    }
    var link := InsertArticleTags(LinkValues(articleId, tagIds));
    sent := [Begin, insert, upsert, link];
    if exec(link).None? {
      return sent, Err(StatementFailed(link));
    }
    sent := [Begin, insert, upsert, link, Commit];
    if exec(Commit).None? {
      return sent, Err(StatementFailed(Commit));
    }
    if articleId.None? {
      return sent, Err(RowMissing);
    }
    var select := SelectArticleById(articleId.value);
    sent := [Begin, insert, upsert, link, Commit, select];
    if exec(select).None? {
      return sent, Err(StatementFailed(select));
    }
    outcome := Ok(FirstRow(exec(select).value));
  }

  /** Statements sent on the client, in order. */
  function OnClientAll(sent: seq<Stmt>): (events: seq<Event>)
    ensures |events| == |sent|
    ensures forall i :: 0 <= i < |sent| ==> events[i] == OnClient(sent[i])
  {
    seq(|sent|, i requires 0 <= i < |sent| => OnClient(sent[i]))
  }

  /**
   * `createArticle`. On any error in the `try` block it sends ROLLBACK on
   * the pool, not on the client, and rethrows (a failing ROLLBACK throws its
   * own error instead); the client, once connected, is released on every
   * path, last. `rollbackOk` says whether the pool's ROLLBACK succeeds.
   */
  method CreateArticle<R>(input: NewArticle, userId: int, connectOk: bool,
                          exec: Stmt -> Option<seq<R>>, idOf: R -> int, rollbackOk: bool)
    returns (result: Result<Option<R>, Failure>, sent: seq<Stmt>, events: seq<Event>)
    ensures !connectOk ==> result == Err(ConnectFailed) && sent == [] && events == []
    ensures connectOk ==> FollowsProtocol(sent, input, userId, exec, idOf)
    ensures connectOk ==>
              events == OnClientAll(sent) + (if result.Ok? then [] else [OnPool(Rollback)]) + [Release]
    ensures result.Ok? <==> connectOk && |sent| == 6 && forall i :: 0 <= i < 6 ==> exec(sent[i]).Some?
    ensures result.Ok? ==> result.value == FirstRow(exec(sent[5]).value)
    ensures connectOk && result.Err? ==> forall i :: 0 <= i < |sent| - 1 ==> exec(sent[i]).Some?
    ensures connectOk && result.Err? ==> exec(sent[|sent| - 1]).None? || StopsAtMissingRow(sent, exec, idOf)
    ensures connectOk && result.Err? && !rollbackOk ==> result.error == StatementFailed(Rollback)
    ensures connectOk && result.Err? && rollbackOk ==>
              if exec(sent[|sent| - 1]).None? then result.error == StatementFailed(sent[|sent| - 1])
              else result.error == RowMissing
  {
    if !connectOk {
      return Err(ConnectFailed), [], [];
    }
    var outcome;
    sent, outcome := RunTransaction(input, userId, exec, idOf);
    events := OnClientAll(sent);
    result := outcome;
    if outcome.Err? {
      events := events + [OnPool(Rollback)];
      if !rollbackOk {
        result := Err(StatementFailed(Rollback));
      }
    }
    events := events + [Release];
  }

  /**
   * The client statements of a failed `createArticle` never include
   * ROLLBACK or, before its last statement, COMMIT, so a failure before
   * COMMIT leaves the client's transaction open when it is released.
   */
  lemma FailedTransactionStaysOpen<R>(sent: seq<Stmt>, input: NewArticle, userId: int,
                                      exec: Stmt -> Option<seq<R>>, idOf: R -> int)
    requires FollowsProtocol(sent, input, userId, exec, idOf)
    requires |sent| < 5
    ensures Commit !in sent && Rollback !in sent
  {
    assert forall i :: 0 <= i < |sent| ==> sent[i] != Commit && sent[i] != Rollback by {
      forall i | 0 <= i < |sent| ensures sent[i] != Commit && sent[i] != Rollback {
        assert i == 0 || sent[i].InsertArticle? || sent[i].UpsertTags? || sent[i].InsertArticleTags?;
      }
    }
  }

  /** The repository operations the raw-SQL backend leaves unimplemented. */
  datatype Stub =
    | GetArticleBySlug(slug: string)
    | UpdateArticleBySlug(slug: string)
    | DeleteArticleBySlug(slug: string)
    | MarkAsFavoriteBySlug(slug: string)
    | UnmarkAsFavoriteBySlug(slug: string)

  const NotImplementedMessage := "Function not implemented."

  /**
   * Calling a stub: it throws the same error whatever its arguments, before
   * it checks out a client, so nothing happens on the pool (`events` is
   * empty, unlike every connected path of the implemented operations, which
   * ends with a release).
   */
  method CallStub(op: Stub) returns (result: Result<(), Failure>, events: seq<Event>)
    ensures result == Err(NotImplemented(NotImplementedMessage))
    ensures events == []
  {
    result, events := Err(NotImplemented(NotImplementedMessage)), [];
  }
}
