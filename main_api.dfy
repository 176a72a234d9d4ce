/** backend/main.py: the article endpoints over the article table, the
  * version table and the vector index, and the search pipeline
  * embed -> search_vector -> tag filter -> rerank. Every endpoint first runs
  * the role check of backend/auth.py for an authenticated caller; the
  * embedding service, the index's similarity search and the completion
  * service are functions passed in. */
module WikiApi {
  import opened Wrappers
  import opened Schemas
  import opened LlmApi
  import Lists
  import Auth
  import VectorSearch

  /** The authenticated user as the handlers see it: the team it is acting
    * for (nullable) and its role codes. */
  datatype Principal = Principal(teamId: Option<string>, roles: set<string>)

  /** The body of `POST /articles/` and `PUT /articles/{id}`. */
  datatype ArticleIn = ArticleIn(title: string, content: string, tags: seq<string>, groupId: Option<string>)

  /** The body of `POST /articles/search/`. */
  datatype SearchQuery = SearchQuery(q: string, tags: Option<seq<string>>)

  /** The answer for an id that is missing, deleted or another team's. */
  const NotFound := HttpError(404, "Article not found")

  /** The body of a successful delete, `{"status": "deleted"}`. */
  const Deleted := "deleted"

  /** The roles the endpoints require. */
  const ReaderRoles: seq<string> := ["reader"]
  const AuthorRoles: seq<string> := ["author"]

  /** The article exists, is not deleted and belongs to the team: the filter
    * every single-article endpoint applies before it acts. */
  predicate Live(table: map<string, Article>, id: string, team: Option<string>) {
    id in table && Visible(table[id], team)
  }

  /** The text that is embedded for an article, `f"{title}\n{content}"`. */
  function EmbedText(title: string, content: string): string {
    title + "\n" + content
  }

  /** A new article row as `create_article` builds it. */
  function NewArticle(req: ArticleIn, team: Option<string>): Article {
    Article(req.title, req.content, JoinTags(req.tags), req.groupId, team, false)
  }

  /** An article row after `update_article` overwrote its fields. */
  function Revised(a: Article, req: ArticleIn): Article {
    a.(title := req.title, content := req.content, tags := JoinTags(req.tags), groupId := req.groupId)
  }

  /** `save_version`: the snapshot of an article row. */
  function Snapshot(id: string, a: Article): ArticleVersion {
    ArticleVersion(id, a.title, a.content, a.tags)
  }

  // ---------------------------------------------------------------------
  // Pure parts of the handlers
  // ---------------------------------------------------------------------

  /** `required.issubset(set(h.tags))`. */
  predicate Carries(h: SearchHit, required: set<string>) {
    forall t :: t in required ==> t in h.tags
  }

  /** The hits carrying every tag of `required`, in their order. */
  function KeepTagged(hits: seq<SearchHit>, required: set<string>): (r: seq<SearchHit>)
    ensures Lists.IsSubsequence(r, hits)
    ensures forall h :: h in r <==> h in hits && Carries(h, required)
    ensures forall h :: Carries(h, required) ==> multiset(r)[h] == multiset(hits)[h]
  {
    if hits == [] then []
    else
      var rest := KeepTagged(hits[1..], required);
      assert hits == [hits[0]] + hits[1..];
      assert forall h :: h in hits <==> h == hits[0] || h in hits[1..];
      if Carries(hits[0], required) then
        assert ([hits[0]] + rest)[1..] == rest;
        [hits[0]] + rest
      else
        Lists.SubsequenceCons(rest, hits[1..], hits[0]);
        assert [hits[0]] + hits[1..] == hits;
        rest
  }

  /** The tag filter of `search_articles`: with a non-empty tag list a hit is
    * kept iff it carries every listed tag (AND), in the original order; no
    * list or an empty one keeps everything. */
  function TagFilter(hits: seq<SearchHit>, tags: Option<seq<string>>): (r: seq<SearchHit>)
    ensures Lists.IsSubsequence(r, hits)
    ensures tags == None || tags == Some([]) ==> r == hits
    ensures tags.Some? && tags.value != [] ==>
              forall h :: h in r <==> h in hits && forall t :: t in tags.value ==> t in h.tags
    ensures tags.Some? && tags.value != [] ==>
              forall h: SearchHit :: (forall t :: t in tags.value ==> t in h.tags) ==> multiset(r)[h] == multiset(hits)[h]
  {
    match tags
    case None => Lists.PrefixIsSubsequence(hits, |hits|); assert hits[..|hits|] == hits; hits
    case Some(list) =>
      if list == [] then Lists.PrefixIsSubsequence(hits, |hits|); assert hits[..|hits|] == hits; hits
      else KeepTagged(hits, set t | t in list)
  }

  /** `list_articles`: the team's articles that are not deleted. The query has
    * no ORDER BY, so only the set of answers is modelled. */
  function Listing(table: map<string, Article>, team: Option<string>): (r: set<ArticleOut>)
    ensures forall x :: x in r ==> Live(table, x.id, team) && x == Out(x.id, table[x.id])
    ensures forall id :: Live(table, id, team) ==> Out(id, table[id]) in r
  {
    set id | id in table && Visible(table[id], team) :: Out(id, table[id])
  }

  /** A soft delete takes exactly that article out of the listing. */
  lemma ListingAfterDelete(table: map<string, Article>, id: string, team: Option<string>)
    requires Live(table, id, team)
    ensures Listing(table[id := table[id].(isDeleted := true)], team) == Listing(table, team) - {Out(id, table[id])}
  {
    var after := table[id := table[id].(isDeleted := true)];
    forall x | x in Listing(table, team) - {Out(id, table[id])}
      ensures x in Listing(after, team)
    {
      var j :| j in table && Visible(table[j], team) && x == Out(j, table[j]);
      assert j != id;
      assert after[j] == table[j];
    }
  }

  /** Creating an article for the caller's team adds exactly it to the listing. */
  lemma ListingAfterCreate(table: map<string, Article>, id: string, req: ArticleIn, team: Option<string>)
    requires id !in table
    ensures Listing(table[id := NewArticle(req, team)], team) == Listing(table, team) + {Out(id, NewArticle(req, team))}
  {
    var after := table[id := NewArticle(req, team)];
    forall x | x in Listing(table, team)
      ensures x in Listing(after, team)
    {
      var j :| j in table && Visible(table[j], team) && x == Out(j, table[j]);
      assert j != id && after[j] == table[j];
    }
    assert id in after && Visible(after[id], team);
    assert Out(id, after[id]) in Listing(after, team);
    forall x | x in Listing(after, team)
      ensures x in Listing(table, team) + {Out(id, NewArticle(req, team))}
    {
      var j :| j in after && Visible(after[j], team) && x == Out(j, after[j]);
      if j != id {
        assert table[j] == after[j];
      }
    }
  }

  /** The versions of one article, oldest first. */
  function VersionsOf(versions: seq<ArticleVersion>, id: string): (r: seq<ArticleVersion>)
    ensures forall k :: 0 <= k < |r| ==> r[k].articleId == id && r[k] in versions
    ensures forall v :: v in versions && v.articleId == id ==> v in r
  {
    if versions == [] then []
    else
      var rest := VersionsOf(versions[1..], id);
      assert forall v :: v in versions <==> v == versions[0] || v in versions[1..];
      if versions[0].articleId == id then [versions[0]] + rest else rest
  }

  /** The versions listed newest first, as `ArticleVersionOut`. */
  function NewestFirst(vs: seq<ArticleVersion>): (r: seq<VersionOut>)
    ensures |r| == |vs|
    ensures forall k :: 0 <= k < |r| ==> r[k] == VersionToOut(vs[|vs| - 1 - k])
  {
    if vs == [] then []
    else [VersionToOut(vs[|vs| - 1])] + NewestFirst(vs[..|vs| - 1])
  }

  /** The answer of `article_history` for an article: its versions, newest
    * first (the model's version list is in creation order, which is the
    * order of `created_at`). */
  function History(versions: seq<ArticleVersion>, id: string): (r: seq<VersionOut>)
    ensures forall k :: 0 <= k < |r| ==> r[k].articleId == id
  {
    NewestFirst(VersionsOf(versions, id))
  }

  /** Filtering one article's versions commutes with appending a version. */
  lemma {:induction false} VersionsOfSnoc(versions: seq<ArticleVersion>, v: ArticleVersion, id: string)
    ensures VersionsOf(versions + [v], id) == VersionsOf(versions, id) + (if v.articleId == id then [v] else [])
  {
    if versions == [] {
      assert versions + [v] == [v];
    } else {
      assert (versions + [v])[0] == versions[0];
      assert (versions + [v])[1..] == versions[1..] + [v];
      VersionsOfSnoc(versions[1..], v, id);
    }
  }

  /** A new version of an article heads its history; versions of other
    * articles leave it as it was. */
  lemma HistoryAfterSave(versions: seq<ArticleVersion>, v: ArticleVersion, id: string)
    ensures History(versions + [v], id) ==
              if v.articleId == id then [VersionToOut(v)] + History(versions, id) else History(versions, id)
  {
    VersionsOfSnoc(versions, v, id);
  }

  // ---------------------------------------------------------------------
  // The stateful store
  // ---------------------------------------------------------------------

  /** The `articles` and `article_versions` tables and the vector index. */
  class ArticleStore {
    var articles: map<string, Article>
    var versions: seq<ArticleVersion>
    const index: VectorSearch.VectorIndex

    /** The index holds vectors only of articles that exist and are not
      * deleted, and every version belongs to an existing article. */
    ghost predicate Valid()
      reads this, index
    {
      (forall id :: id in index.points ==> id in articles && !articles[id].isDeleted)
      && (forall k :: 0 <= k < |versions| ==> versions[k].articleId in articles)
    }

    constructor ()
      ensures Valid() && fresh(index)
      ensures articles == map[] && versions == [] && index.points == map[]
    {
      articles := map[];
      versions := [];
      index := new VectorSearch.VectorIndex();
    }

    /** `save_version`: append a snapshot of article `id`. */
    method SaveVersion(id: string)
      requires id in articles
      modifies this
      ensures articles == old(articles)
      ensures versions == old(versions) + [Snapshot(id, articles[id])]
    {
      versions := versions + [Snapshot(id, articles[id])];
    }

    /** `POST /articles/`: store the article for the caller's team with its
      * tags comma-joined, embed it and upsert its vector, save one version.
      * The row is committed before the embedding is requested, so a failing
      * embedding leaves it stored without vector or version. A generated id
      * that is already taken makes the insert fail. */
    method CreateArticle(caller: Principal, req: ArticleIn, newId: string, embed: string -> Option<Vector>)
      returns (r: Result<ArticleOut, Failure>)
      requires Valid()
      modifies this, index
      ensures Valid()
      ensures !Auth.Admits(caller.roles, AuthorRoles) || newId in old(articles) ==>
                r == Err(if !Auth.Admits(caller.roles, AuthorRoles) then Auth.Forbidden else ServerError)
                && articles == old(articles) && versions == old(versions) && index.points == old(index.points)
      ensures Auth.Admits(caller.roles, AuthorRoles) && newId !in old(articles) ==>
                var a := NewArticle(req, caller.teamId);
                articles == old(articles)[newId := a]
                && match embed(EmbedText(req.title, req.content))
                   case None =>
                     r == Err(ServerError) && versions == old(versions) && index.points == old(index.points)
                   case Some(v) =>
                     r == Ok(Out(newId, a))
                     && index.points == old(index.points)[newId := v]
                     && versions == old(versions) + [Snapshot(newId, a)]
    {
      if !Auth.Admits(caller.roles, AuthorRoles) {
        return Err(Auth.Forbidden);
      }
      if newId in articles {
        return Err(ServerError);
      }
      var a := NewArticle(req, caller.teamId);
      articles := articles[newId := a];
      var e := embed(EmbedText(req.title, req.content));
      if e.None? {
        return Err(ServerError);
      }
      index.Upsert(newId, e.value);
      SaveVersion(newId);
      r := Ok(Out(newId, a));
    }

    /** `PUT /articles/{id}`: 404 unless the article is live for the caller's
      * team; otherwise overwrite title, content, tags and group, re-embed and
      * upsert the vector under the same id, save one version. */
    method UpdateArticle(caller: Principal, id: string, req: ArticleIn, embed: string -> Option<Vector>)
      returns (r: Result<ArticleOut, Failure>)
      requires Valid()
      modifies this, index
      ensures Valid()
      ensures !Auth.Admits(caller.roles, AuthorRoles) || !Live(old(articles), id, caller.teamId) ==>
                r == Err(if !Auth.Admits(caller.roles, AuthorRoles) then Auth.Forbidden else NotFound)
                && articles == old(articles) && versions == old(versions) && index.points == old(index.points)
      ensures Auth.Admits(caller.roles, AuthorRoles) && Live(old(articles), id, caller.teamId) ==>
                var a := Revised(old(articles)[id], req);
                articles == old(articles)[id := a]
                && match embed(EmbedText(req.title, req.content))
                   case None =>
                     r == Err(ServerError) && versions == old(versions) && index.points == old(index.points)
                   case Some(v) =>
                     r == Ok(Out(id, a))
                     && index.points == old(index.points)[id := v]
                     && versions == old(versions) + [Snapshot(id, a)]
    {
      if !Auth.Admits(caller.roles, AuthorRoles) {
        return Err(Auth.Forbidden);
      }
      if !Live(articles, id, caller.teamId) {
        return Err(NotFound);
      }
      var a := Revised(articles[id], req);
      articles := articles[id := a];
      var e := embed(EmbedText(req.title, req.content));
      if e.None? {
        return Err(ServerError);
      }
      index.Upsert(id, e.value);
      SaveVersion(id);
      r := Ok(Out(id, a));
    }

    /** `GET /articles/{id}`: the article if it is live for the caller's team,
      * else 404. */
    method GetArticle(caller: Principal, id: string) returns (r: Result<ArticleOut, Failure>)
      ensures !Auth.Admits(caller.roles, ReaderRoles) ==> r == Err(Auth.Forbidden)
      ensures Auth.Admits(caller.roles, ReaderRoles) && !Live(articles, id, caller.teamId) ==> r == Err(NotFound)
      ensures Auth.Admits(caller.roles, ReaderRoles) && Live(articles, id, caller.teamId) ==>
                r == Ok(Out(id, articles[id]))
    {
      if !Auth.Admits(caller.roles, ReaderRoles) {
        return Err(Auth.Forbidden);
      }
      if !Live(articles, id, caller.teamId) {
        return Err(NotFound);
      }
      r := Ok(Out(id, articles[id]));
    }

    /** `DELETE /articles/{id}`: 404 unless live for the caller's team;
      * otherwise mark the row deleted (it stays in the table) and remove its
      * vector. */
    method DeleteArticle(caller: Principal, id: string) returns (r: Result<string, Failure>)
      requires Valid()
      modifies this, index
      ensures Valid()
      ensures versions == old(versions)
      ensures !Auth.Admits(caller.roles, AuthorRoles) || !Live(old(articles), id, caller.teamId) ==>
                r == Err(if !Auth.Admits(caller.roles, AuthorRoles) then Auth.Forbidden else NotFound)
                && articles == old(articles) && index.points == old(index.points)
      ensures Auth.Admits(caller.roles, AuthorRoles) && Live(old(articles), id, caller.teamId) ==>
                r == Ok(Deleted)
                && articles == old(articles)[id := old(articles)[id].(isDeleted := true)]
                && index.points == old(index.points) - {id}
    {
      if !Auth.Admits(caller.roles, AuthorRoles) {
        return Err(Auth.Forbidden);
      }
      if !Live(articles, id, caller.teamId) {
        return Err(NotFound);
      }
      articles := articles[id := articles[id].(isDeleted := true)];
      index.Delete(id);
      r := Ok(Deleted);
    }

    /** `GET /articles/{id}/history`: 404 unless live for the caller's team;
      * otherwise the article's versions, newest first. */
    method ArticleHistory(caller: Principal, id: string) returns (r: Result<seq<VersionOut>, Failure>)
      ensures !Auth.Admits(caller.roles, ReaderRoles) ==> r == Err(Auth.Forbidden)
      ensures Auth.Admits(caller.roles, ReaderRoles) && !Live(articles, id, caller.teamId) ==> r == Err(NotFound)
      ensures Auth.Admits(caller.roles, ReaderRoles) && Live(articles, id, caller.teamId) ==>
                r == Ok(History(versions, id))
    {
      if !Auth.Admits(caller.roles, ReaderRoles) {
        return Err(Auth.Forbidden);
      }
      if !Live(articles, id, caller.teamId) {
        return Err(NotFound);
      }
      r := Ok(History(versions, id));
    }

    /** `GET /articles/`: the caller's team's articles that are not deleted. */
    method ListArticles(caller: Principal) returns (r: Result<set<ArticleOut>, Failure>)
      ensures !Auth.Admits(caller.roles, ReaderRoles) ==> r == Err(Auth.Forbidden)
      ensures Auth.Admits(caller.roles, ReaderRoles) ==> r.Ok?
      ensures r.Ok? ==> forall x :: x in r.value <==> exists id :: Live(articles, id, caller.teamId) && x == Out(id, articles[id])
    {
      if !Auth.Admits(caller.roles, ReaderRoles) {
        return Err(Auth.Forbidden);
      }
      r := Ok(Listing(articles, caller.teamId));
    }

    /** `POST /articles/search/`: embed the query, let the index answer with at
      * most `DefaultLimit` points (a failure of either call is a 500), keep the caller's
      * team's live articles, apply the tag filter, then the re-ranker. The
      * answer holds only hits that passed both filters, however the index
      * and the completion service answered. */
    method SearchArticles(caller: Principal, query: SearchQuery,
                          embed: string -> Option<Vector>,
                          nearest: (map<string, Vector>, Vector, nat) -> Option<seq<VectorSearch.IndexHit>>,
                          configured: bool, llm: string -> Reply)
      returns (r: Result<seq<SearchHit>, Failure>)
      ensures !Auth.Admits(caller.roles, ReaderRoles) ==> r == Err(Auth.Forbidden)
      ensures Auth.Admits(caller.roles, ReaderRoles) && embed(query.q).None? ==> r == Err(ServerError)
      ensures (Auth.Admits(caller.roles, ReaderRoles) && embed(query.q).Some?
               && nearest(index.points, embed(query.q).value, VectorSearch.DefaultLimit).None?)
              ==> r == Err(ServerError)
      ensures (Auth.Admits(caller.roles, ReaderRoles) && embed(query.q).Some?
               && nearest(index.points, embed(query.q).value, VectorSearch.DefaultLimit).Some?) ==>
                var raw := nearest(index.points, embed(query.q).value, VectorSearch.DefaultLimit).value;
                var found := TagFilter(VectorSearch.SearchVector(raw, articles, caller.teamId), query.tags);
                r.Ok?
                && (forall x :: x in r.value ==> x in found)
                && (forall x :: x in r.value ==> Live(articles, x.id, caller.teamId))
                && (query.tags.Some? ==> forall x, t :: x in r.value && t in query.tags.value ==> t in x.tags)
                && r.value == (if !configured || found == [] then found
                               else VectorSearch.ApplyReply(found, llm(VectorSearch.RerankPrompt(query.q, found))))
    {
      if !Auth.Admits(caller.roles, ReaderRoles) {
        return Err(Auth.Forbidden);
      }
      var e := embed(query.q);
      if e.None? {
        return Err(ServerError);
      }
      var points := nearest(index.points, e.value, VectorSearch.DefaultLimit);
      if points.None? {
        return Err(ServerError);
      }
      var raw := points.value;
      var hits := VectorSearch.SearchVector(raw, articles, caller.teamId);
      var found := TagFilter(hits, query.tags);
      Lists.SubsequenceMembers(found, hits);
      var ranked := VectorSearch.RerankWithLlm(query.q, found, configured, llm);
      r := Ok(ranked);
    }
  }

  // ---------------------------------------------------------------------
  // Scenarios
  // ---------------------------------------------------------------------

  /** An author of some team. */
  const Author := Principal(Some("team-a"), {"author", "reader"})

  /** An embedding service that always answers. */
  function AlwaysEmbeds(s: string): Option<Vector> {
    Some([0.0])
  }

  /** Create "First", update it to "Second", read the history: the titles
    * come newest first. */
  method HistoryAfterCreateThenUpdate() returns (titles: seq<string>)
    ensures titles == ["Second", "First"]
  {
    assert JoinTags([]) == "";
    var store := new ArticleStore();
    var c := store.CreateArticle(Author, ArticleIn("First", "One", [], None), "x", AlwaysEmbeds);
    var u := store.UpdateArticle(Author, "x", ArticleIn("Second", "Two", [], None), AlwaysEmbeds);
    var h := store.ArticleHistory(Author, "x");
    HistoryAfterSave([], Snapshot("x", NewArticle(ArticleIn("First", "One", [], None), Author.teamId)), "x");
    assert store.versions == [Snapshot("x", NewArticle(ArticleIn("First", "One", [], None), Author.teamId)),
                              Snapshot("x", Revised(NewArticle(ArticleIn("First", "One", [], None), Author.teamId),
                                                    ArticleIn("Second", "Two", [], None)))];
    HistoryAfterSave(store.versions[..1], store.versions[1], "x");
    assert store.versions[..1] + [store.versions[1]] == store.versions;
    titles := [h.value[0].title, h.value[1].title];
  }

  /** Deleting an article twice: the second delete is a 404, the row is
    * still in the table, marked deleted, and the index no longer has it. */
  method DeleteTwice() returns (first: Result<string, Failure>, second: Result<string, Failure>, kept: bool, indexed: bool)
    ensures first == Ok(Deleted) && second == Err(NotFound)
    ensures kept && !indexed
  {
    var store := new ArticleStore();
    var c := store.CreateArticle(Author, ArticleIn("Title", "Body", ["hr"], None), "x", AlwaysEmbeds);
    first := store.DeleteArticle(Author, "x");
    second := store.DeleteArticle(Author, "x");
    kept := "x" in store.articles;
    indexed := "x" in store.index.points;
  }
}
