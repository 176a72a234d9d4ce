/** backend/qdrant_utils.py: the vector index, the access filter that joins
  * index hits against the article table, and the LLM re-ranker. The vector
  * database's similarity search, the embedding service and the completion
  * service are outside the model; their answers are inputs. */
module VectorSearch {
  import opened Wrappers
  import opened Schemas
  import opened LlmApi
  import PyText
  import Lists

  /** The `limit` that `search_vector` passes to the index when its caller gives none. */
  const DefaultLimit: nat := 5

  /** A point as the index's `client.search` returns it. */
  datatype IndexHit = IndexHit(id: string, score: Score)

  /** The `articles` collection of the vector database: one vector per article id. */
  class VectorIndex {
    var points: map<string, Vector>

    constructor ()
      ensures points == map[]
    {
      points := map[];
    }

    /** `insert_vector`: insert or replace the point for `id`. */
    method Upsert(id: string, v: Vector)
      modifies this
      ensures points == old(points)[id := v]
    {
      points := points[id := v];
    }

    /** `delete_vector`: remove the point for `id`; an absent id is no error. */
    method Delete(id: string)
      modifies this
      ensures points == old(points) - {id}
    {
      points := points - {id};
    }
  }

  // ---------------------------------------------------------------------
  // Access filter: search_vector
  // ---------------------------------------------------------------------

  /** `ids = [hit.id for hit in hits]`. */
  function HitIdsOf(raw: seq<IndexHit>): (r: seq<string>)
    ensures |r| == |raw| && forall k :: 0 <= k < |raw| ==> r[k] == raw[k].id
  {
    seq(|raw|, k requires 0 <= k < |raw| => raw[k].id)
  }

  /** `scores = {hit.id: hit.score for hit in hits}`: a later hit for the same
    * id overwrites an earlier one. */
  function ScoreMap(raw: seq<IndexHit>): (m: map<string, Score>)
    ensures forall k :: 0 <= k < |raw| ==> raw[k].id in m
    ensures forall id :: id in m ==> id in HitIdsOf(raw)
  {
    if raw == [] then map[]
    else
      var init := raw[..|raw| - 1];
      var last := raw[|raw| - 1];
      var ids, initIds := HitIdsOf(raw), HitIdsOf(init);
      assert forall j :: 0 <= j < |init| ==> init[j] == raw[j];
      assert forall id :: id in initIds ==> id in ids by {
        forall id | id in initIds ensures id in ids {
          var j :| 0 <= j < |initIds| && initIds[j] == id;
          assert ids[j] == id;
        }
      }
      assert last.id == ids[|raw| - 1];
      ScoreMap(init)[last.id := last.score]
  }

  /** The score recorded for an id is that of the last hit naming it. */
  lemma {:induction false} ScoreMapLast(raw: seq<IndexHit>, k: nat)
    requires k < |raw|
    requires forall j :: k < j < |raw| ==> raw[j].id != raw[k].id
    ensures ScoreMap(raw)[raw[k].id] == raw[k].score
  {
    if k < |raw| - 1 {
      ScoreMapLast(raw[..|raw| - 1], k);
    }
  }

  /** The ids among `ids` whose article the query
    * `Article.id.in_(ids), is_deleted == False, team_id == team` returns, each
    * once (the id is the primary key), skipping ids already in `seen`. */
  function LiveIds(ids: seq<string>, seen: set<string>, table: map<string, Article>, team: Option<string>): (r: seq<string>)
    ensures |r| <= |ids|
    ensures forall k :: 0 <= k < |r| ==> r[k] in ids && r[k] !in seen
    ensures forall k :: 0 <= k < |r| ==> r[k] in table && Visible(table[r[k]], team)
    ensures forall j, k :: 0 <= j < k < |r| ==> r[j] != r[k]
    ensures forall id :: id in ids && id !in seen && id in table && Visible(table[id], team) ==> id in r
  {
    if ids == [] then []
    else if ids[0] !in seen && ids[0] in table && Visible(table[ids[0]], team) then
      [ids[0]] + LiveIds(ids[1..], seen + {ids[0]}, table, team)
    else
      LiveIds(ids[1..], seen, table, team)
  }

  /** An article row as `ArticleSearchHit` with the score the index gave it. */
  function ToHit(id: string, a: Article, score: Score): SearchHit {
    SearchHit(id, a.title, a.content, score, SplitTags(a.tags))
  }

  /** `search_vector` after the index answered `raw`: the articles named by the
    * hits that are neither deleted nor owned by another team, each with the
    * score the index reported for its id. The order of the rows of an SQL
    * query without ORDER BY is unspecified; the model lists them in the
    * order the index first named them. */
  function SearchVector(raw: seq<IndexHit>, table: map<string, Article>, team: Option<string>): (r: seq<SearchHit>)
    // only what the index returned
    ensures |r| <= |raw|
    ensures forall k :: 0 <= k < |r| ==> r[k].id in HitIdsOf(raw)
    // tenant isolation, whatever the index returned
    ensures forall k :: 0 <= k < |r| ==> r[k].id in table && Visible(table[r[k].id], team)
    // the row's fields and the index's score for that id
    ensures forall k :: 0 <= k < |r| ==>
              r[k].id in ScoreMap(raw) && r[k] == ToHit(r[k].id, table[r[k].id], ScoreMap(raw)[r[k].id])
    // each article at most once
    ensures forall j, k :: 0 <= j < k < |r| ==> r[j].id != r[k].id
  {
    var ids := LiveIds(HitIdsOf(raw), {}, table, team);
    var scores := ScoreMap(raw);
    assert forall k :: 0 <= k < |ids| ==> ids[k] in scores;
    seq(|ids|, k requires 0 <= k < |ids| => ToHit(ids[k], table[ids[k]], scores[ids[k]]))
  }

  /** Every article the index named that is neither deleted nor owned by
    * another team is among the hits. */
  lemma SearchVectorComplete(raw: seq<IndexHit>, table: map<string, Article>, team: Option<string>, k: nat)
    requires k < |raw| && raw[k].id in table && Visible(table[raw[k].id], team)
    ensures exists j :: 0 <= j < |SearchVector(raw, table, team)| && SearchVector(raw, table, team)[j].id == raw[k].id
  {
    var ids := LiveIds(HitIdsOf(raw), {}, table, team);
    var r := SearchVector(raw, table, team);
    assert HitIdsOf(raw)[k] == raw[k].id;
    var j :| 0 <= j < |ids| && ids[j] == raw[k].id;
    assert r[j].id == raw[k].id;
  }

  /** A hit's score is the score of the index's hit for that id, when the
    * index names each id once (as a nearest-neighbour search does). */
  lemma SearchVectorScores(raw: seq<IndexHit>, table: map<string, Article>, team: Option<string>, j: nat, k: nat)
    requires forall a, b :: 0 <= a < b < |raw| ==> raw[a].id != raw[b].id
    requires j < |SearchVector(raw, table, team)| && k < |raw|
    requires SearchVector(raw, table, team)[j].id == raw[k].id
    ensures SearchVector(raw, table, team)[j].score == raw[k].score
  {
    ScoreMapLast(raw, k);
  }

  /** At most `limit` hits come back when the index returned at most `limit`. */
  lemma SearchVectorWithinLimit(raw: seq<IndexHit>, table: map<string, Article>, team: Option<string>, limit: nat)
    requires |raw| <= limit
    ensures |SearchVector(raw, table, team)| <= limit
  {
  }

  // ---------------------------------------------------------------------
  // LLM re-ranker: rerank_with_llm
  // ---------------------------------------------------------------------

  /** The fixed instruction that opens the re-ranking prompt. */
  const RerankInstruction: string :=
    "Ты – поисковый ранжировщик. По запросу пользователя упорядочи статьи по релевантности."
    + " Верни JSON-массив ID в порядке убывания релевантности.\n"

  /** `f"{idx}. id={hit.id} title={hit.title}\n{hit.content}"`. */
  function PromptEntry(idx: nat, h: SearchHit): (r: string)
    ensures |r| >= |PyText.NatToString(idx)| + |h.content|
    ensures r[..|PyText.NatToString(idx)|] == PyText.NatToString(idx)
    ensures r[|r| - |h.content|..] == h.content
  {
    PyText.NatToString(idx) + ". id=" + h.id + " title=" + h.title + "\n" + h.content
  }

  /** The listing of the prompt: hit `k` of the input is entry `k + 1`. */
  function PromptEntries(hits: seq<SearchHit>): (r: seq<string>)
    ensures |r| == |hits|
  {
    seq(|hits|, k requires 0 <= k < |hits| => PromptEntry(k + 1, hits[k]))
  }

  /** The label in front of the user's query. */
  const QueryLabel := "Запрос: "

  /** The whole re-ranking prompt: the instruction, then the query after its
    * label, then the entries. */
  function RerankPrompt(query: string, hits: seq<SearchHit>): (r: string)
    ensures |r| >= |RerankInstruction| + |QueryLabel| + |query|
    ensures r[..|RerankInstruction|] == RerankInstruction
    ensures r[|RerankInstruction| + |QueryLabel|..][..|query|] == query
  {
    RerankInstruction + QueryLabel + query + "\n\n" + PyText.Join(PromptEntries(hits), "\n\n")
  }

  /** The loop of `rerank_with_llm` that builds the prompt: one entry per hit,
    * numbered from 1 in input order, joined by blank lines after the query. */
  method BuildRerankPrompt(query: string, hits: seq<SearchHit>) returns (prompt: string)
    ensures prompt == RerankPrompt(query, hits)
  {
    var parts: seq<string> := [];
    var idx := 0;
    while idx < |hits|
      invariant 0 <= idx <= |hits|
      invariant |parts| == idx
      invariant forall k :: 0 <= k < idx ==> parts[k] == PromptEntry(k + 1, hits[k])
    {
      parts := parts + [PromptEntry(idx + 1, hits[idx])];
      idx := idx + 1;
    }
    assert parts == PromptEntries(hits);
    prompt := RerankInstruction + QueryLabel + query + "\n\n" + PyText.Join(parts, "\n\n");
  }

  /** The text of the first alternative, or `None` when `rerank_with_llm`
    * returns its input at this point: the call raised, the status is not 200,
    * the body is not JSON of the expected shape, or `alternatives[0]` has no
    * `"message"` (a `KeyError`). No alternatives at all reads as `""`. */
  function ReplyText(reply: Reply): (r: Option<string>)
    ensures r.Some? ==> reply.Response? && reply.status == 200 && reply.body.Parsed?
    ensures reply.Response? && reply.status == 200 && reply.body.Parsed? && reply.body.alternatives == [] ==> r == Some("")
    ensures (reply.Response? && reply.status == 200 && reply.body.Parsed? && reply.body.alternatives != []
             && reply.body.alternatives[0].message.Some?)
            ==> r == Some(reply.body.alternatives[0].message.value.text.GetOr(""))
    ensures (reply.Response? && reply.status == 200 && reply.body.Parsed? && reply.body.alternatives != []
             && reply.body.alternatives[0].message.None?)
            ==> r == None
  {
    match reply
    case Raised(_) => None
    case Response(status, _, body) =>
      if status != 200 then None
      else
        match body
        case Unparseable => None
        case Parsed(alternatives, _) =>
          if alternatives == [] then Some("")
          else
            match alternatives[0].message
            case None => None
            case Some(m) => Some(m.text.GetOr(""))
  }

  /** `{h.id for h in hits}`. */
  function IdSet(hits: seq<SearchHit>): set<string> {
    set h | h in hits :: h.id
  }

  /** The entries of `ids` that are in `known`, in order, repeats kept. */
  function KnownIds(ids: seq<string>, known: set<string>): (r: seq<string>)
    ensures |r| <= |ids|
    ensures forall k :: 0 <= k < |r| ==> r[k] in known
    ensures forall id :: id in known ==> (id in r <==> id in ids)
    ensures Lists.IsSubsequence(r, ids)
    ensures forall id :: id in known ==> multiset(r)[id] == multiset(ids)[id]
  {
    if ids == [] then []
    else
      var rest := KnownIds(ids[1..], known);
      assert ids == [ids[0]] + ids[1..];
      assert forall u :: u in ids <==> u == ids[0] || u in ids[1..];
      if ids[0] in known then
        assert ([ids[0]] + rest)[1..] == rest;
        [ids[0]] + rest
      else
        Lists.SubsequenceCons(rest, ids[1..], ids[0]);
        rest
  }

  /** `[s.strip() for s in text.split() if s.strip() in ids]` on the tokens of
    * the answer: the tokens that name a known hit, in the order of the text,
    * repeats kept. */
  function Mentions(tokens: seq<string>, known: set<string>): (r: seq<string>)
    ensures |r| <= |tokens|
    ensures forall k :: 0 <= k < |r| ==> r[k] in known
    ensures Lists.IsSubsequence(r, PyText.StripAll(tokens))
    ensures forall id :: id in known ==> multiset(r)[id] == multiset(PyText.StripAll(tokens))[id]
  {
    KnownIds(PyText.StripAll(tokens), known)
  }

  /** A known id is among the mentions exactly when some token, stripped, is
    * that id. */
  lemma MentionsNamed(tokens: seq<string>, known: set<string>, id: string)
    requires id in known
    ensures id in Mentions(tokens, known) <==> exists t :: t in tokens && PyText.Strip(t) == id
  {
    var ids := PyText.StripAll(tokens);
    if id in ids {
      var k :| 0 <= k < |ids| && ids[k] == id;
      assert tokens[k] in tokens;
    }
    if exists t :: t in tokens && PyText.Strip(t) == id {
      var t :| t in tokens && PyText.Strip(t) == id;
      var k :| 0 <= k < |tokens| && tokens[k] == t;
      assert ids[k] == id;
    }
  }

  /** `{h.id: h for h in hits}`: a later hit with the same id overwrites an
    * earlier one. */
  function IdToHit(hits: seq<SearchHit>): (m: map<string, SearchHit>)
    ensures forall h :: h in hits ==> h.id in m
    ensures forall id :: id in m ==> m[id].id == id && m[id] in hits
  {
    if hits == [] then map[]
    else
      var init := hits[..|hits| - 1];
      var last := hits[|hits| - 1];
      assert forall h :: h in hits <==> h in init || h == last by {
        assert hits == init + [last];
      }
      IdToHit(init)[last.id := last]
  }

  /** `[by_id[i] for i in order]` with `by_id = {h.id: h for h in hits}`: for
    * each named id, the hit it names. */
  function Reorder(hits: seq<SearchHit>, order: seq<string>): (r: seq<SearchHit>)
    requires forall k :: 0 <= k < |order| ==> order[k] in IdSet(hits)
    ensures |r| == |order|
    ensures forall k :: 0 <= k < |r| ==> r[k].id == order[k] && r[k] in hits
  {
    var byId := IdToHit(hits);
    assert forall k :: 0 <= k < |order| ==> order[k] in byId by {
      forall k | 0 <= k < |order| ensures order[k] in byId {
        assert order[k] in IdSet(hits);
        var h :| h in hits && h.id == order[k];
      }
    }
    seq(|order|, k requires 0 <= k < |order| => byId[order[k]])
  }

  /** What `rerank_with_llm` returns once the completion call was made. */
  function ApplyReply(hits: seq<SearchHit>, reply: Reply): (r: seq<SearchHit>)
    ensures forall x :: x in r ==> x in hits
    ensures hits != [] ==> r != []
  {
    match ReplyText(reply)
    case None => hits
    case Some(text) =>
      var order := Mentions(PyText.Tokens(text), IdSet(hits));
      if order == [] then hits else Reorder(hits, order)
  }

  /** `rerank_with_llm(query, hits)`: without credentials or hits it returns
    * `hits` without a request; otherwise it sends one prompt and applies the
    * answer. Whatever the answer, only hits of the input come back. */
  method RerankWithLlm(query: string, hits: seq<SearchHit>, configured: bool, llm: string -> Reply)
    returns (r: seq<SearchHit>)
    ensures !configured || hits == [] ==> r == hits
    ensures configured && hits != [] ==> r == ApplyReply(hits, llm(RerankPrompt(query, hits)))
    ensures forall x :: x in r ==> x in hits
  {
    if !configured || hits == [] {
      return hits;
    }
    var prompt := BuildRerankPrompt(query, hits);
    var reply := llm(prompt);
    r := ApplyReply(hits, reply);
    RerankOnlyInputHits(hits, reply);
  }

  /** Fail-open: a call that raised, a status other than 200, a body that is
    * not the expected JSON, or a first alternative without a message leaves
    * the hits as they were. */
  lemma RerankFailsOpen(hits: seq<SearchHit>, reply: Reply)
    requires reply.Raised? || reply.status != 200 || reply.body.Unparseable?
             || (reply.body.alternatives != [] && reply.body.alternatives[0].message.None?)
    ensures ApplyReply(hits, reply) == hits
  {
  }

  /** An answer in which no whitespace-separated token is exactly a hit id
    * leaves the hits as they were. */
  lemma RerankWithoutMentionKeepsInput(hits: seq<SearchHit>, reply: Reply, text: string)
    requires ReplyText(reply) == Some(text)
    requires forall t :: t in PyText.Tokens(text) ==> PyText.Strip(t) !in IdSet(hits)
    ensures ApplyReply(hits, reply) == hits
  {
    var order := Mentions(PyText.Tokens(text), IdSet(hits));
    if order != [] {
      MentionsNamed(PyText.Tokens(text), IdSet(hits), order[0]);
    }
  }

  /** The re-ranked list never holds anything that was not among the hits. */
  lemma RerankOnlyInputHits(hits: seq<SearchHit>, reply: Reply)
    ensures forall x :: x in ApplyReply(hits, reply) ==> x in hits
  {
  }

  /** When some token names a hit, the answer dictates the list: one hit per
    * matching token, in token order, repeats kept. */
  lemma RerankFollowsMentions(hits: seq<SearchHit>, reply: Reply, text: string)
    requires ReplyText(reply) == Some(text)
    requires Mentions(PyText.Tokens(text), IdSet(hits)) != []
    ensures var order := Mentions(PyText.Tokens(text), IdSet(hits));
            var r := ApplyReply(hits, reply);
            |r| == |order| && forall k :: 0 <= k < |r| ==> r[k].id == order[k] && r[k] in hits
  {
    var order := Mentions(PyText.Tokens(text), IdSet(hits));
    var byId := IdToHit(hits);
    forall k | 0 <= k < |order| ensures order[k] in byId {
      assert order[k] in IdSet(hits);
    }
    assert ApplyReply(hits, reply) == seq(|order|, k requires 0 <= k < |order| => byId[order[k]]);
  }

  /** A hit whose id no token of the answer names is not in the re-ranked
    * list, once some token names a hit. */
  lemma RerankDropsUnmentioned(hits: seq<SearchHit>, reply: Reply, text: string, h: SearchHit)
    requires ReplyText(reply) == Some(text)
    requires Mentions(PyText.Tokens(text), IdSet(hits)) != []
    requires h in hits
    requires forall t :: t in PyText.Tokens(text) ==> PyText.Strip(t) != h.id
    ensures forall x :: x in ApplyReply(hits, reply) ==> x.id != h.id
  {
    var tokens := PyText.Tokens(text);
    var order := Mentions(tokens, IdSet(hits));
    assert h.id in IdSet(hits);
    MentionsNamed(tokens, IdSet(hits), h.id);
    ReorderOmits(hits, order, h.id);
  }

  /** An id that is not named is not reordered in. */
  lemma ReorderOmits(hits: seq<SearchHit>, order: seq<string>, id: string)
    requires forall k :: 0 <= k < |order| ==> order[k] in IdSet(hits)
    requires id !in order
    ensures forall x :: x in Reorder(hits, order) ==> x.id != id
  {
    var r := Reorder(hits, order);
    forall x | x in r ensures x.id != id {
      var k :| 0 <= k < |r| && r[k] == x;
      assert x.id == order[k];
    }
  }

  /** A completed request whose first alternative says `text`. */
  function Answer(text: string): Reply {
    Response(200, text, Parsed([Alternative(Some(Message(Some(text))))], text))
  }

  /** Tokens that are known ids standing alone are all mentioned. */
  lemma MentionsAllKnown(tokens: seq<string>, known: set<string>)
    requires forall k :: 0 <= k < |tokens| ==> PyText.NoSpace(tokens[k]) && tokens[k] in known
    ensures Mentions(tokens, known) == tokens
  {
    forall k | 0 <= k < |tokens| ensures PyText.StripAll(tokens)[k] == tokens[k] {
      PyText.StripNoSpace(tokens[k]);
    }
    assert PyText.StripAll(tokens) == tokens;
    KnownIdsAllKnown(tokens, known);
  }

  /** `KnownIds` keeps a list whose every entry is known. */
  lemma {:induction false} KnownIdsAllKnown(ids: seq<string>, known: set<string>)
    requires forall k :: 0 <= k < |ids| ==> ids[k] in known
    ensures KnownIds(ids, known) == ids
  {
    if ids != [] {
      KnownIdsAllKnown(ids[1..], known);
      assert [ids[0]] + ids[1..] == ids;
    }
  }

  /** `f"{x} {y} {x}".split()` for whitespace-free `x`, `y`. */
  lemma TokensOfThree(x: string, y: string)
    requires x != [] && PyText.NoSpace(x) && y != [] && PyText.NoSpace(y)
    ensures PyText.Tokens(x + " " + y + " " + x) == [x, y, x]
  {
    PyText.TokensOfLoneWord(x);
    PyText.TokensOfWordSpace(y, x);
    PyText.TokensOfWordSpace(x, y + " " + x);
    assert x + " " + (y + " " + x) == x + " " + y + " " + x;
  }

  /** The ids of two hits. */
  lemma IdSetOfTwo(a: SearchHit, b: SearchHit)
    ensures IdSet([a, b]) == {a.id, b.id}
  {
    assert a in [a, b] && b in [a, b];
  }

  /** `{h.id: h for h in [a, b]}` for hits with distinct ids. */
  lemma IdToHitOfTwo(a: SearchHit, b: SearchHit)
    requires a.id != b.id
    ensures IdToHit([a, b]) == map[a.id := a, b.id := b]
  {
    assert [a, b][..1] == [a];
    assert [a][..0] == [];
  }

  /** An answer naming b, a, b (ids standing alone between spaces) for the
    * hits a, b gives b, a, b: the order of mention wins and a repeated id is
    * repeated in the result. */
  lemma RerankKeepsRepeats(a: SearchHit, b: SearchHit)
    requires a.id != b.id
    requires a.id != [] && PyText.NoSpace(a.id) && b.id != [] && PyText.NoSpace(b.id)
    ensures ApplyReply([a, b], Answer(b.id + " " + a.id + " " + b.id)) == [b, a, b]
  {
    var text := b.id + " " + a.id + " " + b.id;
    MentionsOfThree(a, b);
    IdToHitOfTwo(a, b);
    AnswerFollowsOrder([a, b], text, [b.id, a.id, b.id]);
  }

  /** The answer `f"{b} {a} {b}"` mentions b, a, b. */
  lemma MentionsOfThree(a: SearchHit, b: SearchHit)
    requires a.id != [] && PyText.NoSpace(a.id) && b.id != [] && PyText.NoSpace(b.id)
    ensures Mentions(PyText.Tokens(b.id + " " + a.id + " " + b.id), IdSet([a, b])) == [b.id, a.id, b.id]
  {
    TokensOfThree(b.id, a.id);
    IdSetOfTwo(a, b);
    MentionsAllKnown([b.id, a.id, b.id], IdSet([a, b]));
  }

  /** A completed answer whose mentions are `order` yields the hits named by
    * `order`, one per entry. */
  lemma AnswerFollowsOrder(hits: seq<SearchHit>, text: string, order: seq<string>)
    requires order != [] && Mentions(PyText.Tokens(text), IdSet(hits)) == order
    ensures |ApplyReply(hits, Answer(text))| == |order|
    ensures forall k :: 0 <= k < |order| ==> ApplyReply(hits, Answer(text))[k] == IdToHit(hits)[order[k]]
  {
    assert ReplyText(Answer(text)) == Some(text);
  }

  /** `f'["{y}", "{x}"]'.split()` for whitespace-free `x`, `y`: two tokens,
    * the brackets, quotes and comma still attached. */
  lemma TokensOfJsonPair(x: string, y: string)
    requires PyText.NoSpace(x) && PyText.NoSpace(y)
    ensures PyText.Tokens("[\"" + y + "\", \"" + x + "\"]") == ["[\"" + y + "\",", "\"" + x + "\"]"]
  {
    var w1, w2 := "[\"" + y + "\",", "\"" + x + "\"]";
    assert PyText.NoSpace(w1) && PyText.NoSpace(w2);
    PyText.TokensOfLoneWord(w2);
    PyText.TokensOfWordSpace(w1, w2);
    assert w1 + " " + w2 == "[\"" + y + "\", \"" + x + "\"]";
  }

  /** The prompt asks for a JSON array, but the parser only recognises ids
    * standing alone between whitespace: for ids without quotes, the answer
    * `["b", "a"]` names no hit and the hits stay in their original order. */
  lemma JsonArrayAnswerIsIgnored(a: SearchHit, b: SearchHit)
    requires '"' !in a.id && '"' !in b.id
    requires PyText.NoSpace(a.id) && PyText.NoSpace(b.id)
    ensures ApplyReply([a, b], Answer("[\"" + b.id + "\", \"" + a.id + "\"]")) == [a, b]
  {
    var w1, w2 := "[\"" + b.id + "\",", "\"" + a.id + "\"]";
    var text := "[\"" + b.id + "\", \"" + a.id + "\"]";
    TokensOfJsonPair(a.id, b.id);
    IdSetOfTwo(a, b);
    assert w1[1] == '"' && w2[0] == '"';
    forall t | t in PyText.Tokens(text) ensures PyText.Strip(t) !in IdSet([a, b]) {
      assert t == w1 || t == w2;
      PyText.StripNoSpace(t);
      assert '"' in t;
    }
    RerankWithoutMentionKeepsInput([a, b], Answer(text), text);
  }
}
