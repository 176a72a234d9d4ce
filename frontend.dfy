/** frontend/streamlit_app.py: the list and string helpers of the Streamlit
  * pages — related-article suggestions, comma-separated tag input, the
  * search page's result cap and the editor's LLM recommendations. Rendering
  * and the HTTP calls to the back end are outside the model; the back end's
  * search is a function passed in. */
module Frontend {
  import opened Wrappers
  import opened Schemas
  import opened LlmApi
  import PyText
  import Lists

  /** Python's `s[:k]` for any integer `k`: a negative `k` counts from the end. */
  function SliceTo<T>(s: seq<T>, k: int): (r: seq<T>)
    ensures |r| <= |s| && r == s[..|r|]
    ensures 0 <= k <= |s| ==> |r| == k
    ensures k > |s| ==> r == s
    ensures -|s| <= k < 0 ==> |r| == |s| + k
    ensures k < -|s| ==> r == []
  {
    if k >= 0 then s[..if k < |s| then k else |s|]
    else s[..if |s| + k > 0 then |s| + k else 0]
  }

  /** `exclude_id and r.id == exclude_id`: the hit `suggest_related` skips. */
  predicate Skipped(h: SearchHit, excludeId: Option<string>) {
    excludeId.Some? && excludeId.value != "" && h.id == excludeId.value
  }

  /** The results `suggest_related` keeps before truncating: every hit that is
    * not skipped, and no skipped one. */
  function Excluding(results: seq<SearchHit>, excludeId: Option<string>): (r: seq<SearchHit>)
    ensures |r| <= |results|
    ensures forall x :: x in r <==> x in results && !Skipped(x, excludeId)
  {
    if results == [] then []
    else
      var rest := Excluding(results[1..], excludeId);
      assert forall x :: x in results <==> x == results[0] || x in results[1..];
      if Skipped(results[0], excludeId) then rest else [results[0]] + rest
  }

  /** What `Excluding` keeps is an order-preserving subsequence without the
    * excluded id, and everything when there is nothing to exclude. */
  lemma {:induction false} ExcludingProperties(results: seq<SearchHit>, excludeId: Option<string>)
    ensures Lists.IsSubsequence(Excluding(results, excludeId), results)
    ensures excludeId.Some? && excludeId.value != "" ==>
              forall x :: x in Excluding(results, excludeId) ==> x.id != excludeId.value
    ensures excludeId == None || excludeId == Some("") ==> Excluding(results, excludeId) == results
  {
    var r := Excluding(results, excludeId);
    if results != [] {
      var rest := Excluding(results[1..], excludeId);
      ExcludingProperties(results[1..], excludeId);
      if Skipped(results[0], excludeId) {
        assert r == rest;
        Lists.SubsequenceCons(rest, results[1..], results[0]);
        assert [results[0]] + results[1..] == results;
      } else {
        assert r == [results[0]] + rest;
        assert r[1..] == rest;
        assert excludeId == None || excludeId == Some("") ==> r == [results[0]] + results[1..] == results;
      }
    }
  }

  /** What `suggest_related` shows, for the search results `results`: an
    * order-preserving subsequence of them, without the excluded id, at most
    * `top_k` long, and just the first `top_k` results when nothing is
    * excluded. */
  lemma SuggestionsProperties(results: seq<SearchHit>, excludeId: Option<string>, topK: int)
    ensures Lists.IsSubsequence(SliceTo(Excluding(results, excludeId), topK), results)
    ensures excludeId.Some? && excludeId.value != "" ==>
              forall x :: x in SliceTo(Excluding(results, excludeId), topK) ==> x.id != excludeId.value
    ensures topK >= 0 ==> |SliceTo(Excluding(results, excludeId), topK)| <= topK
    ensures excludeId == None || excludeId == Some("") ==>
              SliceTo(Excluding(results, excludeId), topK) == SliceTo(results, topK)
  {
    var kept := Excluding(results, excludeId);
    var r := SliceTo(kept, topK);
    ExcludingProperties(results, excludeId);
    Lists.PrefixIsSubsequence(kept, |r|);
    Lists.SubsequenceTrans(r, kept, results);
    Lists.SubsequenceMembers(r, kept);
  }

  /** `suggest_related`: search with `f"{title}\n{content}"`, skip the hits
    * whose id is `exclude_id` (when given and non-empty), keep the first
    * `top_k`. */
  method SuggestRelated(title: string, content: string, excludeId: Option<string>, topK: int,
                        search: string -> seq<SearchHit>)
    returns (r: seq<SearchHit>)
    ensures r == SliceTo(Excluding(search(title + "\n" + content), excludeId), topK)
    ensures Lists.IsSubsequence(r, search(title + "\n" + content))
    ensures excludeId.Some? && excludeId.value != "" ==> forall x :: x in r ==> x.id != excludeId.value
    ensures topK >= 0 ==> |r| <= topK
    ensures excludeId == None || excludeId == Some("") ==> r == SliceTo(search(title + "\n" + content), topK)
  {
    var results := search(title + "\n" + content);
    var unique: seq<SearchHit> := [];
    var i := 0;
    while i < |results|
      invariant 0 <= i <= |results|
      invariant unique + Excluding(results[i..], excludeId) == Excluding(results, excludeId)
    {
      assert results[i..][1..] == results[i + 1..];
      if Skipped(results[i], excludeId) {
        i := i + 1;
        continue;
      }
      unique := unique + [results[i]];
      i := i + 1;
    }
    assert unique == Excluding(results, excludeId);
    r := SliceTo(unique, topK);
    SuggestionsProperties(results, excludeId, topK);
  }

  /** The pieces of a comma-split input, stripped, empty ones dropped: the
    * non-empty stripped pieces, each as often as it occurs, in input order. */
  function StrippedNonEmpty(pieces: seq<string>): (r: seq<string>)
    ensures |r| <= |pieces|
    ensures forall k :: 0 <= k < |r| ==> r[k] != "" && PyText.IsStripped(r[k])
    ensures Lists.IsSubsequence(r, PyText.StripAll(pieces))
    ensures forall t :: t != "" ==> multiset(r)[t] == multiset(PyText.StripAll(pieces))[t]
  {
    if pieces == [] then []
    else
      var t := PyText.Strip(pieces[0]);
      var rest := StrippedNonEmpty(pieces[1..]);
      assert PyText.StripAll(pieces) == [t] + PyText.StripAll(pieces[1..]);
      KeepNonEmptyStep(t, rest, PyText.StripAll(pieces[1..]));
      if t != "" then [t] + rest else rest
  }

  /** One step of `StrippedNonEmpty`: keeping a piece in front when it is not
    * empty, and dropping it otherwise, extends a selection of the non-empty
    * pieces of `tail` to one of `[t] + tail`. */
  lemma KeepNonEmptyStep(t: string, rest: seq<string>, tail: seq<string>)
    requires Lists.IsSubsequence(rest, tail)
    requires forall u :: u != "" ==> multiset(rest)[u] == multiset(tail)[u]
    ensures Lists.IsSubsequence(if t != "" then [t] + rest else rest, [t] + tail)
    ensures forall u :: u != "" ==>
              multiset(if t != "" then [t] + rest else rest)[u] == multiset([t] + tail)[u]
  {
    if t != "" {
      assert ([t] + rest)[1..] == rest;
      assert ([t] + tail)[1..] == tail;
    } else {
      Lists.SubsequenceCons(rest, tail, t);
    }
  }

  /** Stripping and dropping keeps pieces free of commas. */
  lemma {:induction false} StrippedNonEmptyCommaFree(pieces: seq<string>)
    requires forall k :: 0 <= k < |pieces| ==> ',' !in pieces[k]
    ensures forall k :: 0 <= k < |StrippedNonEmpty(pieces)| ==> ',' !in StrippedNonEmpty(pieces)[k]
  {
    if pieces != [] {
      StrippedNonEmptyCommaFree(pieces[1..]);
    }
  }

  /** `[t.strip() for t in s.split(",") if t.strip()]`: the tag list typed in
    * a text field. */
  function ParseTagList(s: string): (r: seq<string>)
    ensures forall k :: 0 <= k < |r| ==> r[k] != "" && PyText.IsStripped(r[k]) && ',' !in r[k]
    ensures Lists.IsSubsequence(r, PyText.StripAll(PyText.Split(s, ',')))
    ensures forall t :: t != "" ==> multiset(r)[t] == multiset(PyText.StripAll(PyText.Split(s, ',')))[t]
  {
    var r := StrippedNonEmpty(PyText.Split(s, ','));
    StrippedNonEmptyCommaFree(PyText.Split(s, ','));
    r
  }

  /** A tag list typed by a user survives being stored and read back by the
    * back end unchanged. */
  lemma ParsedTagsRoundTrip(s: string)
    ensures SplitTags(JoinTags(ParseTagList(s))) == ParseTagList(s)
  {
    var tags := ParseTagList(s);
    assert |tags| == 1 ==> tags[0] != "";
    TagsRoundTrip(tags);
  }

  /** The search page: the back end's results cut to the slider's value. */
  function SearchPage(results: seq<SearchHit>, topk: int): (r: seq<SearchHit>)
    requires 1 <= topk <= 20
    ensures |r| <= topk
    ensures Lists.IsSubsequence(r, results)
    ensures |r| <= |results| && r == results[..|r|]
    ensures |results| >= topk ==> |r| == topk
    ensures |results| < topk ==> r == results
  {
    var r := SliceTo(results, topk);
    Lists.PrefixIsSubsequence(results, |r|);
    r
  }

  /** The message shown when the LLM credentials are missing. */
  const DisabledMessage := "LLM выключен: не заданы YANDEX_OAUTH_TOKEN / YANDEX_FOLDER_ID."

  /** The prefix of an error message. */
  const ErrorPrefix := "Ошибка LLM: "

  /** The prefix of the message for an answer without usable text. */
  const ParseFailurePrefix := "Не удалось распарсить ответ LLM:\n\n"

  /** The fixed text before the article's title in the editor's request. */
  const RecommendationIntro: string :=
    "Ты – редактор и техписатель. Дай практичные рекомендации по улучшению статьи: "
    + "структура, ясность, недостающие разделы, теги. Пиши кратко и по пунктам.\n\n"
    + "Заголовок: "

  /** The fixed text after the article's text in the editor's request. */
  const RecommendationFormat: string :=
    "Ответ формируй в формате маркдаун-списка, каждый пункт начинай с одной из пометок: "
    + "[структура], [пробелы в фактах], [предложенные теги]."

  /** The editor's request for recommendations. */
  function RecommendationPrompt(title: string, content: string): (r: string)
    ensures |r| >= |RecommendationIntro| + |title| + |RecommendationFormat|
    ensures r[..|RecommendationIntro|] == RecommendationIntro
    ensures r[|RecommendationIntro|..][..|title|] == title
    ensures r[|r| - |RecommendationFormat|..] == RecommendationFormat
  {
    RecommendationIntro + title + "\n\n" + "Текст статьи:\n" + content + "\n\n" + RecommendationFormat
  }

  /** `alternatives[0].get("message", {}).get("text", "").strip()`. */
  function FirstText(alternatives: seq<Alternative>): (r: string)
    requires alternatives != []
    ensures PyText.IsStripped(r)
    ensures alternatives[0].message.None? ==> r == ""
    ensures alternatives[0].message.Some? ==> r == PyText.Strip(alternatives[0].message.value.text.GetOr(""))
  {
    match alternatives[0].message
    case None => ""
    case Some(m) => PyText.Strip(m.text.GetOr(""))
  }

  /** What `llm_recommendations` shows for the answer of its request: the
    * message for a failed request or a non-200 status, the first
    * alternative's stripped text when it is not empty, else the parse-failure
    * message with the JSON body. `None` stands for the exception `r.json()`
    * raises on a body that is not JSON, which is not caught. */
  function RecommendationText(reply: Reply): (r: Option<string>)
    ensures r.Some? ==> r.value != ""
  {
    match reply
    case Raised(e) => Some(ErrorPrefix + e)
    case Response(status, raw, body) =>
      if status != 200 then Some(ErrorPrefix + PyText.NatToString(status) + " " + raw)
      else
        match body
        case Unparseable => None
        case Parsed(alternatives, dump) =>
          if alternatives != [] && FirstText(alternatives) != "" then Some(FirstText(alternatives))
          else Some(ParseFailurePrefix + dump)
  }

  /** `llm_recommendations`: without credentials the disabled message and no
    * request; otherwise one request, and what its answer shows. */
  function LlmRecommendations(title: string, content: string, configured: bool, llm: string -> Reply)
    : (r: Option<string>)
    ensures r.Some? ==> r.value != ""
  {
    if !configured then Some(DisabledMessage)
    else RecommendationText(llm(RecommendationPrompt(title, content)))
  }

  /** Without credentials the answer is the disabled message whatever the
    * model would say: no request is made. */
  lemma RecommendationsDisabled(title: string, content: string, llm1: string -> Reply, llm2: string -> Reply)
    ensures LlmRecommendations(title, content, false, llm1) == Some(DisabledMessage)
    ensures LlmRecommendations(title, content, false, llm1) == LlmRecommendations(title, content, false, llm2)
  {
  }

  /** With credentials, a completed answer whose first alternative has
    * non-blank text shows that text, stripped, and the text alone decides. */
  lemma RecommendationsShowAnswer(title: string, content: string, llm: string -> Reply, text: string)
    requires llm(RecommendationPrompt(title, content)) == Response(200, text, Parsed([Alternative(Some(Message(Some(text))))], text))
    requires PyText.Strip(text) != ""
    ensures LlmRecommendations(title, content, true, llm) == Some(PyText.Strip(text))
  {
    RecommendationFromFirstAlternative(llm(RecommendationPrompt(title, content)), text);
  }

  /** A 200 answer whose first alternative has non-blank text shows that text,
    * stripped. */
  lemma RecommendationFromFirstAlternative(reply: Reply, text: string)
    requires reply.Response? && reply.status == 200 && reply.body.Parsed?
    requires reply.body.alternatives != [] && reply.body.alternatives[0].message == Some(Message(Some(text)))
    requires PyText.Strip(text) != ""
    ensures RecommendationText(reply) == Some(PyText.Strip(text))
    ensures PyText.IsStripped(RecommendationText(reply).value)
  {
  }

  /** Any other answer shows an error or parse-failure message, never blank
    * model text. */
  lemma RecommendationFallbacks(reply: Reply)
    requires reply.Response? && reply.status == 200 && reply.body.Parsed?
    requires reply.body.alternatives == [] || FirstText(reply.body.alternatives) == ""
    ensures RecommendationText(reply) == Some(ParseFailurePrefix + reply.body.dump)
  {
  }

  /** A failed request or a status other than 200 shows an error message. */
  lemma RecommendationErrors(reply: Reply)
    requires reply.Raised? || reply.status != 200
    ensures RecommendationText(reply).Some?
    ensures RecommendationText(reply).value[..|ErrorPrefix|] == ErrorPrefix
  {
  }
}
