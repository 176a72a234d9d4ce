# Knowledge-base wiki: article store, tenant-isolated vector search, LLM re-ranking

This project models the core of a small team wiki:

- A FastAPI back end stores articles per team, with soft deletion and a version history.
- An article's text is embedded and kept in a vector index.
- Search embeds the query, asks the index for its nearest points, keeps only articles that are live and belong to the caller's team, applies an optional tag filter, and lets a completion model re-rank the hits.
- A role check (`admin`, `author`, `reader`) guards every article endpoint.
- A Streamlit front end adds list and string helpers: related-article suggestions, comma-separated tag input, a cap on search results, and editing recommendations from the model.

The Dafny modules follow the source files:

| module | file | models |
|---|---|---|
| `VectorSearch` | `qdrant_utils.dfy` | `backend/qdrant_utils.py`: the index (a class over a map of points), `search_vector` as a function of the index's answer, and `rerank_with_llm` (a method whose prompt loop is a `while` loop, plus the pure reply handling) |
| `WikiApi` | `main_api.dfy` | `backend/main.py`: the article and version tables and the index as an `ArticleStore` class whose methods are the endpoints; the tag filter, listing and history as functions |
| `Auth` | `auth.dfy` | `backend/auth.py`: `require_roles`/`role_checker`, and the role and user tables as an `AuthStore` class with `init_roles` and `register` |
| `Frontend` | `frontend.dfy` | `frontend/streamlit_app.py`: `suggest_related` (a loop), tag parsing, the search page's cap, and `llm_recommendations` |
| `Schemas` | `schemas.dfy` | table rows and API shapes; tags stored as a comma-joined string |
| `LlmApi` | `llm_api.dfy` | the completion service's answer as the code reads it |
| `PyText` | `pytext.dfy` | the Python `str` operations used: `split()`, `split(",")`, `strip()`, `join`, `str(int)` |
| `Lists`, `Wrappers` | `lists.dfy`, `wrappers.dfy` | subsequences, `Option`, `Result` |

External services are parameters: the embedding service (`string -> Option<Vector>`, where `None` means it raised), the index's similarity search (`(points, vector, limit) -> Option<hits>`, where `None` means the call raised), the completion service (`string -> Reply`), the password hash, and the front end's call to the search endpoint. Whether credentials are configured is a `bool` parameter.

Main results:

- **Tenant isolation:** `search_vector` returns only articles that are not deleted and belong to the caller's team, whatever the index answers. Each comes at most once, with the score the index gave its id. Every such article the index named is included.
- **Fail-open re-ranking:** the re-ranker never returns anything but input hits. A failed call, an unexpected body or an answer naming no hit leaves the list unchanged. When some token of the answer names a hit, the answer dictates the list: repeats are kept and unnamed hits are dropped.
- **A JSON-array answer is ignored:** the prompt asks for a JSON array of ids, but the parser only recognises ids standing alone between whitespace. `JsonArrayAnswerIsIgnored` proves that the answer `["b", "a"]` leaves the hits in their original order.
- **Search endpoint:** the result holds only live, same-team hits carrying every requested tag, and equals the re-ranker applied to the filtered hits.
- **Store endpoints:** create, update and delete keep this invariant: the index holds vectors only of live articles, and every version belongs to an existing article. Deletion is soft; the row stays. A history lists the newest version first. Listing after a create or a delete changes by exactly that article.
- **Roles:** `init_roles` is idempotent and creates no duplicate codes. A freshly registered user holds only `reader`, so `require_roles(["author"])` refuses them.
- **Tags:** a tag list survives being stored and read back unless a tag holds a comma or the list is exactly `[""]`. Every list typed into the front end survives it.

The model follows the back end's code as written:

- The re-ranker does not de-duplicate repeated ids (`RerankKeepsRepeats`).
- Nothing re-sorts the results by score after the re-ranker.
- `ArticleCreate`/`ArticleUpdate` in `backend/schemas.py` as shown have no `group_id`, although `backend/main.py` reads it. The model follows `backend/main.py` and stores the group given with the request.
- `ArticleOut` and `ArticleSearchHit` have no `group_id` either. The `group_id=` keyword passed at backend/main.py:140 and backend/qdrant_utils.py:100 is dropped, so the API never returns a group. The model's `ArticleOut` and `SearchHit` carry no group.
- The test files assume a newer API, in which registering returns tokens and new users may write. The model follows `backend/auth.py`: `NewUserIsReaderOnly` shows that a new user may not write.
- `ArticleStore.Valid` and `AuthStore.Valid` are representation invariants: each constructor establishes its invariant and every method that changes the store preserves it. The source states no such invariant.

## Model

| member | source | states |
|---|---|---|
| Schemas.SplitTags | backend/main.py:106 | every tag read back is comma-free; a non-empty stored string gives at least one tag |
| Schemas.JoinTags | backend/main.py:122 | no tags are stored as ""; a non-empty list of comma-free tags is stored with `|tags| - 1` commas that split it back into exactly those tags |
| Schemas.TagsRoundTrip | backend/main.py:122-139 | joining tags with "," and splitting back returns the same list when no tag holds a comma and the list is not `[""]` |
| Schemas.SingleEmptyTagIsLost | backend/main.py:122-139 | the list `[""]` is stored as "" and reads back as `[]` |
| PyText.Tokens | backend/qdrant_utils.py:139 | `text.split()` yields non-empty tokens without whitespace |
| Auth.Admits | backend/auth.py:77-78 | the condition holds iff the user holds "admin" or the set of required roles is a subset of the user's roles |
| Auth.RoleChecker | backend/auth.py:75-82 | the user passes iff they hold "admin" or every required role; otherwise the answer is 403 "Not enough permissions" |
| Auth.AdminPassesEverything | backend/auth.py:78 | "admin" satisfies any requirement |
| Auth.NoRequirementAdmitsAll | backend/auth.py:78 | an empty requirement admits everyone |
| Auth.MissingRoleIsRefused | backend/auth.py:78-80 | a non-admin lacking one required role is refused |
| Auth.Missing | backend/auth.py:131-133 | the codes `init_roles` adds are exactly the seed codes not yet present |
| Auth.Seeded | backend/auth.py:128-136 | seeding keeps the existing roles in front and appends only seed codes that were absent; afterwards every seed code exists |
| Auth.SeededHasAll | backend/auth.py:128-136 | after seeding, "admin", "author" and "reader" all exist |
| Auth.SeededIdempotent | backend/auth.py:128-136 | seeding twice equals seeding once |
| Auth.SeededNoDup | backend/auth.py:128-136 | seeding a duplicate-free role table keeps it duplicate-free |
| Auth.AuthStore.InitRoles | backend/auth.py:128-136 | the loop appends each absent seed code in order; the new table is `Seeded(old)`, duplicate-free, users untouched |
| Auth.AuthStore.Register | backend/auth.py:85-100 | taken e-mail: 400 and nothing changes; taken id: 500 and nothing changes; else the user is appended with the hashed password and gets "reader" iff that role exists |
| Auth.NewUserIsReaderOnly | backend/auth.py:95-97 | after `init_roles`, a new user passes `require_roles(["reader"])` and fails `require_roles(["author"])` |
| VectorSearch.VectorIndex.Upsert | backend/qdrant_utils.py:49-53 | the point for the id is inserted or replaced; other points unchanged |
| VectorSearch.VectorIndex.Delete | backend/qdrant_utils.py:56-70 | the point for the id is removed; other points unchanged |
| VectorSearch.ScoreMap | backend/qdrant_utils.py:82 | every hit's id has a score, and only hit ids have one |
| VectorSearch.ScoreMapLast | backend/qdrant_utils.py:82 | an id's score is that of the last hit naming it |
| VectorSearch.LiveIds | backend/qdrant_utils.py:81-92 | the ids returned are hit ids whose article exists, is not deleted and is the team's, each once, and all such ids are returned |
| VectorSearch.SearchVector | backend/qdrant_utils.py:73-103 | at most as many results as hits; only the team's live articles; each result is the row with its id's score; no article twice |
| VectorSearch.SearchVectorComplete | backend/qdrant_utils.py:84-92 | every live article of the team that the index named is in the result |
| VectorSearch.SearchVectorScores | backend/qdrant_utils.py:82-98 | with distinct hit ids, a result's score is the score of the hit naming it |
| VectorSearch.SearchVectorWithinLimit | backend/qdrant_utils.py:73-77 | no more results than the index's limit |
| VectorSearch.BuildRerankPrompt | backend/qdrant_utils.py:116-123 | the loop builds the instruction, the query and one entry per hit numbered from 1 in input order, joined by blank lines |
| VectorSearch.KnownIds | backend/qdrant_utils.py:139 | the kept ids are an order-preserving subsequence of the input made of known ids only, and each known id is kept exactly as often as it occurs |
| VectorSearch.Mentions | backend/qdrant_utils.py:139 | the mentioned ids are an order-preserving subsequence of the stripped tokens, made of known ids only, and each known id occurs exactly as often as among the stripped tokens |
| VectorSearch.MentionsNamed | backend/qdrant_utils.py:139 | a hit id is in `order` iff some token of the answer, stripped, equals it |
| VectorSearch.IdToHit | backend/qdrant_utils.py:141 | every hit's id maps to a hit with that id taken from the input |
| VectorSearch.Reorder | backend/qdrant_utils.py:141-142 | one hit per named id, in the order of the names, each an input hit carrying that id |
| VectorSearch.PromptEntry | backend/qdrant_utils.py:118-119 | an entry opens with its number and ends with the hit's content |
| VectorSearch.RerankPrompt | backend/qdrant_utils.py:120-124 | the prompt opens with the fixed instruction, followed by the labelled query |
| VectorSearch.ReplyText | backend/qdrant_utils.py:133-138 | text is only taken from a 200 answer whose body has the expected shape; it is the first alternative's message text ("" when the text is missing), "" when there are no alternatives, and nothing when the first alternative has no message |
| VectorSearch.ApplyReply | backend/qdrant_utils.py:133-145 | the result holds only input hits, and a non-empty input never comes back empty |
| VectorSearch.RerankWithLlm | backend/qdrant_utils.py:105-145 | without credentials or hits the input comes back with no request; otherwise one prompt is sent and its answer applied; only input hits are ever returned |
| VectorSearch.RerankFailsOpen | backend/qdrant_utils.py:131-145 | a raised call, a status other than 200, a body of another shape or a first alternative without "message" leaves the hits unchanged |
| VectorSearch.RerankWithoutMentionKeepsInput | backend/qdrant_utils.py:139-145 | an answer in which no token names a hit leaves the hits unchanged |
| VectorSearch.RerankOnlyInputHits | backend/qdrant_utils.py:140-142 | the re-ranked list holds only input hits |
| VectorSearch.RerankFollowsMentions | backend/qdrant_utils.py:139-142 | once a token names a hit, the result has one hit per naming token, in token order, with that id |
| VectorSearch.RerankDropsUnmentioned | backend/qdrant_utils.py:139-142 | once a token names a hit, a hit that no token names is absent from the result |
| VectorSearch.RerankKeepsRepeats | backend/qdrant_utils.py:139-142 | for hits a, b, the answer "b a b" gives [b, a, b]: repeats are not removed |
| VectorSearch.JsonArrayAnswerIsIgnored | backend/qdrant_utils.py:120-139 | the JSON array the prompt asks for, `["b", "a"]`, names no hit, so the order stays [a, b] |
| WikiApi.KeepTagged | backend/main.py:277-279 | the kept hits are an ordered subsequence of the input, exactly the hits whose tags include every required tag, each as often as it occurs |
| WikiApi.TagFilter | backend/main.py:277-279 | no tags or an empty list keeps everything; otherwise a hit is kept iff it carries every listed tag (AND), order and repeats preserved |
| WikiApi.Listing | backend/main.py:93-110 | everything listed is a live article of the team shown as stored, and every such article is listed |
| WikiApi.ListingAfterDelete | backend/main.py:88-110 | soft-deleting a listed article removes exactly it from the listing |
| WikiApi.ListingAfterCreate | backend/main.py:113-128 | creating an article for the team adds exactly it to the listing |
| WikiApi.VersionsOf | backend/main.py:249-253 | exactly the versions of the given article |
| WikiApi.NewestFirst | backend/main.py:252-265 | the output lists the versions in reverse creation order |
| WikiApi.History | backend/main.py:249-265 | every entry belongs to the requested article |
| WikiApi.HistoryAfterSave | backend/main.py:284-292 | a new version of an article heads its history; other histories are unchanged |
| WikiApi.ArticleStore.SaveVersion | backend/main.py:284-292 | one snapshot of the article's title, content and tags is appended |
| WikiApi.ArticleStore.CreateArticle | backend/main.py:113-141 | non-author: 403, nothing changes; otherwise the row is stored with comma-joined tags and the caller's team; on embedding success the vector is upserted and one version saved, on failure 500 with the row kept |
| WikiApi.ArticleStore.UpdateArticle | backend/main.py:143-180 | 404 unless live for the caller's team; otherwise the fields are overwritten, the vector re-upserted and one version saved, or 500 with the fields kept |
| WikiApi.ArticleStore.GetArticle | backend/main.py:183-206 | the article iff it is live for the caller's team, else 404 |
| WikiApi.ArticleStore.DeleteArticle | backend/main.py:209-229 | 404 unless live for the caller's team; otherwise the row is only marked deleted and its vector removed; versions untouched |
| WikiApi.ArticleStore.ArticleHistory | backend/main.py:232-265 | 404 unless live for the caller's team; otherwise the article's versions, newest first |
| WikiApi.ArticleStore.ListArticles | backend/main.py:88-110 | exactly the caller's team's live articles |
| WikiApi.ArticleStore.SearchArticles | backend/main.py:269-281 | non-reader: 403; a failure of the embedding or of the index search: 500; otherwise only hits that are live, the team's and carry every requested tag, and exactly the re-ranker applied to the filtered hits |
| WikiApi.HistoryAfterCreateThenUpdate | tests/test_article_history.py:41-66 | creating "First" and updating to "Second" gives the history titles ["Second", "First"] |
| WikiApi.DeleteTwice | backend/main.py:209-229 | the first delete succeeds, the second is a 404; the row remains, the vector is gone |
| Frontend.SliceTo | frontend/streamlit_app.py:97 | Python's `s[:k]` is a prefix of `s`: `k` items when `0 <= k <= len(s)`, all of `s` for larger `k`, `len(s) + k` items for `-len(s) <= k < 0`, none below that |
| Frontend.Excluding | frontend/streamlit_app.py:92-96 | a hit is kept iff it is in the results and does not carry the excluded id; never more hits than results |
| Frontend.ExcludingProperties | frontend/streamlit_app.py:92-96 | skipping the excluded id keeps an ordered subsequence without it, and everything when the id is absent or empty |
| Frontend.SuggestionsProperties | frontend/streamlit_app.py:90-97 | suggestions are an ordered subsequence of the search results, at most `top_k`, never the excluded id, and the first `top_k` results when nothing is excluded |
| Frontend.SuggestRelated | frontend/streamlit_app.py:90-97 | the loop searches with title and content, skips the excluded id and keeps the first `top_k` |
| Frontend.StrippedNonEmpty | frontend/streamlit_app.py:274-278 | the kept pieces are an ordered subsequence of the stripped pieces, all non-empty, and each non-empty stripped piece is kept as often as it occurs |
| Frontend.ParseTagList | frontend/streamlit_app.py:274-278 | every parsed tag is non-empty, stripped and comma-free; the tags are, in order, the non-empty stripped comma-separated pieces, repeats kept |
| Frontend.ParsedTagsRoundTrip | frontend/streamlit_app.py:274-279 | a tag list typed into the form is stored and read back unchanged by the back end |
| Frontend.SearchPage | frontend/streamlit_app.py:369-373 | the first `topk` results: a prefix of the results, exactly `topk` long when there are enough, all of them otherwise |
| Frontend.RecommendationPrompt | frontend/streamlit_app.py:109-116 | the request opens with the fixed instruction, followed by the title, and ends with the fixed format instruction |
| Frontend.FirstText | frontend/streamlit_app.py:140 | the first alternative's message text, stripped; a missing message gives "" |
| Frontend.RecommendationText | frontend/streamlit_app.py:128-145 | whatever is shown is never empty |
| Frontend.LlmRecommendations | frontend/streamlit_app.py:99-145 | the message shown is never empty |
| Frontend.RecommendationsDisabled | frontend/streamlit_app.py:100-101 | without credentials the disabled message is shown, independently of the model |
| Frontend.RecommendationsShowAnswer | frontend/streamlit_app.py:137-143 | with credentials, a completed answer with non-blank text shows that text, stripped |
| Frontend.RecommendationFromFirstAlternative | frontend/streamlit_app.py:138-143 | a 200 answer whose first alternative has non-blank text shows that text stripped |
| Frontend.RecommendationFallbacks | frontend/streamlit_app.py:139-145 | no alternatives or blank text shows the parse-failure message followed by the JSON dump |
| Frontend.RecommendationErrors | frontend/streamlit_app.py:128-135 | a raised call or a status other than 200 shows a message starting with "Ошибка LLM: " |

## Left out

- The embedding service, the vector database's cosine similarity and floating-point scores are not modelled. Scores and vectors are opaque `real` values, and the index's answer is an input.
- Path ids are opaque strings. FastAPI answers 422 to an `article_id` that is not a UUID (backend/main.py:145,185,211,234) before the handler runs; the model answers 404 for every unknown id.
- Index ids are taken as given. `search_vector` parses each one with `UUID(...)`, which raises on a malformed id. Every id the code inserts is a UUID string.
- Failures of `insert_vector` and `delete_vector` (network errors) are not modelled. Both always succeed in the model.
- JWT tokens, bcrypt, `get_current_user` (401 answers), `login`, `refresh`, `is_active`, the clock, `created_at` and the version and user ids that the database generates are not modelled. The caller is an already authenticated `Principal`, and new ids are parameters.
- The rows of an SQL query without ORDER BY come in an unspecified order. `search_vector` lists rows in the order the index first named them. `list_articles` returns a set.
- `WikiApi.ArticleStore.ListArticles` returns a set rather than a list, because the query fixes no order. No article can appear twice, since the id is the primary key.
- `WikiApi.History` relies on the model's version list being in creation order. It stands for `ORDER BY created_at DESC`, and equal timestamps are not modelled.
- Group endpoints (`create_group`, `list_groups`), `ensure_columns`, `ensure_collection` and the database session set-up are not modelled. They hold no logic the core depends on.
- The completion request's payload beyond the prompt is not modelled: model URI, temperature, token limit, the system message and timeouts. The `llm` parameter receives the user prompt only.
- In the front end, the Streamlit pages, the debounced `schedule_llm` timer, `markdown_editor`, logging and the HTTP wrappers around the back end are not modelled. The back end's search is the `search` parameter.
- The repository's root prototype files (`main.py`, `models.py`, `schemas.py`, `qdrant_utils.py`, `embeddings.py`) are not part of this model.
