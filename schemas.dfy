/** The records of the article store and the shapes the HTTP API returns
  * (backend/models.py, backend/schemas.py, plus the columns backend/main.py
  * adds at start-up), and the comma-joined storage of tag lists. */
module Schemas {
  import opened Wrappers
  import PyText

  /** A similarity score. Only compared, never computed with. */
  type Score = real

  /** An embedding. Produced by the embedding service and stored in the
    * vector index; never inspected. */
  type Vector = seq<real>

  /** A row of the `articles` table, keyed by its id. `tags` is the stored
    * comma-joined string; `teamId` and `groupId` are nullable columns. */
  datatype Article = Article(
    title: string,
    content: string,
    tags: string,
    groupId: Option<string>,
    teamId: Option<string>,
    isDeleted: bool)

  /** A row of the `article_versions` table: a snapshot of an article. */
  datatype ArticleVersion = ArticleVersion(
    articleId: string,
    title: string,
    content: string,
    tags: string)

  /** `ArticleSearchHit`: an article as a search result. The schema has no
    * `group_id` field, so the `group_id=` keyword the code passes is dropped. */
  datatype SearchHit = SearchHit(
    id: string,
    title: string,
    content: string,
    score: Score,
    tags: seq<string>)

  /** `ArticleOut`: an article as the CRUD endpoints return it. Like
    * `ArticleSearchHit`, it has no `group_id` field. */
  datatype ArticleOut = ArticleOut(
    id: string,
    title: string,
    content: string,
    tags: seq<string>)

  /** `ArticleVersionOut`: a version as the history endpoint returns it. */
  datatype VersionOut = VersionOut(
    articleId: string,
    title: string,
    content: string,
    tags: seq<string>)

  /** An error answer: an `HTTPException` with its status and detail, or an
    * uncaught exception, which the framework answers with status 500. */
  datatype Failure = HttpError(status: nat, detail: string) | ServerError

  /** The article is neither soft-deleted nor owned by another team
    * (`is_deleted == False` and `team_id == <caller's team>`; SQL compares a
    * missing team as `IS NULL`, which `Option` equality reproduces). */
  predicate Visible(a: Article, team: Option<string>) {
    !a.isDeleted && a.teamId == team
  }

  /** `",".join(tags)`: how a tag list is stored. */
  function JoinTags(tags: seq<string>): (r: string)
    ensures tags == [] ==> r == ""
    ensures tags != [] && (forall k :: 0 <= k < |tags| ==> ',' !in tags[k]) ==> multiset(r)[','] == |tags| - 1
    ensures tags != [] && (forall k :: 0 <= k < |tags| ==> ',' !in tags[k]) ==> PyText.Split(r, ',') == tags
  {
    JoinTagsCommas(tags);
    PyText.Join(tags, ",")
  }

  /** A joined tag list whose tags hold no comma has one comma between each
    * two tags: there are `|tags| - 1` commas, and they split it back into the
    * tags. */
  lemma JoinTagsCommas(tags: seq<string>)
    ensures tags != [] && (forall k :: 0 <= k < |tags| ==> ',' !in tags[k]) ==>
              multiset(PyText.Join(tags, ","))[','] == |tags| - 1
    ensures tags != [] && (forall k :: 0 <= k < |tags| ==> ',' !in tags[k]) ==>
              PyText.Split(PyText.Join(tags, ","), ',') == tags
  {
    if tags != [] && (forall k :: 0 <= k < |tags| ==> ',' !in tags[k]) {
      PyText.JoinCount(tags, ',');
      PyText.SplitJoin(tags, ',');
    }
  }

  /** `tags.split(",") if tags else []`: how a stored tag string is read back. */
  function SplitTags(stored: string): (r: seq<string>)
    ensures forall k :: 0 <= k < |r| ==> ',' !in r[k]
    ensures stored != "" ==> |r| >= 1
  {
    if stored == "" then [] else PyText.Split(stored, ',')
  }

  /** Storing a tag list and reading it back gives the same list, unless a
    * tag holds a comma or the list is exactly `[""]` (which reads back as
    * `[]`). */
  lemma TagsRoundTrip(tags: seq<string>)
    requires forall k :: 0 <= k < |tags| ==> ',' !in tags[k]
    requires tags != [""]
    ensures SplitTags(JoinTags(tags)) == tags
  {
    if tags != [] {
      if |tags| >= 2 {
        assert JoinTags(tags) == tags[0] + "," + PyText.Join(tags[1..], ",");
      }
      assert JoinTags(tags) != "";
      PyText.SplitJoin(tags, ',');
    }
  }

  /** The one list without commas that does not survive the round trip. */
  lemma SingleEmptyTagIsLost()
    ensures SplitTags(JoinTags([""])) == []
  {
  }

  /** An article row as `ArticleOut`. */
  function Out(id: string, a: Article): ArticleOut {
    ArticleOut(id, a.title, a.content, SplitTags(a.tags))
  }

  /** A version row as `ArticleVersionOut`. */
  function VersionToOut(v: ArticleVersion): VersionOut {
    VersionOut(v.articleId, v.title, v.content, SplitTags(v.tags))
  }
}
