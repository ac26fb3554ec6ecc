# Hybrid query router and batched embedding build, in Dafny

This project models the two pieces of decision and partitioning logic in a
small retrieval-augmented question-answering system built on personal
documents:

* **Query routing** (`scripts/query_classifier.py`). A query is classified
  into one of three topical categories: interview, project or resume. The
  rule router lower-cases the query and scans three keyword lists in a fixed
  priority order. The first list with a hit wins, with the flat confidence
  0.9. Otherwise the result is "no category" with 0.0. The semantic router
  scores the query embedding against one precomputed vector per category. It
  keeps the best score, starting from -1 and replacing it only on a strictly
  greater score, so ties go to the category declared first. The classifier
  tries the rule router first and falls back to the semantic router. It tags
  the answer `Rule` or `Semantic`.
* **Embedding build** (`scripts/build_embeddings.py`). The chunk texts are
  cut into consecutive batches of at most 32. The provider is called once per
  batch, and the replies are concatenated in order. The build stops early,
  with no provider call and no file written, when there are no chunks.

The embedding provider and the inner product are parameters: `embed: string
-> V` and `dot: (V, V) -> real` for the router, and `embed: seq<string> ->
seq<V>` for the build. Vectors are an opaque type `V` and similarity scores
are abstract reals. The provider's order fidelity is a precondition of the
lemmas that need it (`Batching.OrderFaithful`). The code does not check it,
so the build method does not require it.

Files and modules:

| file | module | contents |
|---|---|---|
| `wrappers.dfy` | `Wrappers` | `Option` |
| `text.dfy` | `Text` | ASCII lower-casing, Python's `in` on strings |
| `query_classifier.dfy` | `QueryClassifier` | keyword lists, rule router, semantic router, classifier |
| `router_examples.dfy` | `RouterExamples` | the router on concrete queries |
| `batching.dfy` | `Batching` | batching, concatenation, accumulation of provider replies |
| `build_embeddings.dfy` | `BuildEmbeddings` | chunk texts, embedding generation, the build's main path |

Two edge cases of the code are kept as written:

* The semantic router starts from no category with best score -1 and
  replaces the best only on a strictly greater score
  (`scripts/query_classifier.py:72-81`). When no score exceeds -1 it
  returns `(None, -1)`. `QueryClassifier.SemanticRouter` states this case.
* `classify_query` returns whatever the semantic router returns, tagged
  `semantic` (`scripts/query_classifier.py:95-96`). So a query with no
  keyword hit and no score above -1 comes back as `(None, -1, "semantic")`,
  not as a separate "no answer" value. `QueryClassifier.ClassifyQuery`
  does the same.

## Model

| member | source | states |
|---|---|---|
| `Text.ContainsIffOccurs` | scripts/query_classifier.py:34 | The substring scan used for `word in q` is true exactly when the word occurs at some position of the text, in both directions. |
| `Text.LowerIdempotent` | scripts/query_classifier.py:16 | Lower-casing an already lower-cased query changes nothing. |
| `Text.Lower` | scripts/query_classifier.py:16 | `query.lower()` on ASCII: the result has the query's length, and each character is the lower-case form of the character at the same position. |
| `Text.Contains` | scripts/query_classifier.py:34 | `word in q`: the empty word is found in every text, and a word is found only in a text at least as long as the word. |
| `QueryClassifier.Keywords` | scripts/query_classifier.py:18-31 | The interview and project lists hold 8 keywords and the resume list holds 6. Every keyword is non-empty and has no upper-case ASCII letter, so it can match the lower-cased query. |
| `QueryClassifier.Description` | scripts/query_classifier.py:58-62 | Each category has a non-empty description text to embed. |
| `QueryClassifier.AnyKeywordIn` | scripts/query_classifier.py:33-43 | One keyword loop reports a hit exactly when some word of the list is found in the query. |
| `QueryClassifier.Scan` | scripts/query_classifier.py:75-79 | The strict-`>` loop never lowers the best score. It either keeps the starting best or ends on a category whose score is strictly above the starting best. |
| `QueryClassifier.CategoryVectors` | scripts/query_classifier.py:65-67 | The precomputed table has one entry per category in declaration order (interview, project, resume), and entry i holds the embedding of category i's description. |
| `Batching.Batches` | scripts/build_embeddings.py:40-41 | The slicing loop produces no batch exactly when there are no texts. |
| `Batching.EmbedAll` | scripts/build_embeddings.py:48-49 | When every reply has one vector per text of its batch, the gathered rows number exactly the texts sent. |
| `QueryClassifier.AnyKeywordInIffOccurs` | scripts/query_classifier.py:33-43 | The `for word in keywords: if word in q` loop finds a hit exactly when some keyword of the list occurs in the lowered query. |
| `QueryClassifier.RuleRouter` | scripts/query_classifier.py:15-45 | A category is returned exactly when some keyword of some list occurs in the lowered query. Interview wins whenever one of its keywords occurs. Project wins only when no interview keyword occurs. Resume wins only when neither other list matches. A hit has confidence 0.9 and a miss is `(None, 0.0)`. |
| `QueryClassifier.RuleRouterCaseInsensitive` | scripts/query_classifier.py:16 | A query and its lower-cased form are routed identically. |
| `QueryClassifier.ScanFindsFirstBest` | scripts/query_classifier.py:72-81 | The strict-`>` scan keeps its starting best when no score beats it. Otherwise it ends on the first position holding the maximal score, with that score. |
| `QueryClassifier.SemanticRouter` | scripts/query_classifier.py:69-81 | A category is returned exactly when some score exceeds -1. The returned category and score are those of the first table entry that reaches the maximum score. Otherwise the result is `(None, -1)`. |
| `QueryClassifier.ThreeWayChoice` | scripts/query_classifier.py:72-81 | On a three-entry table, an entry wins when its score exceeds -1, is at least every later score and is above every earlier score. If no score exceeds -1, the result is `(None, -1)`. |
| `QueryClassifier.DeployedSemanticChoice` | scripts/query_classifier.py:58-81 | With the deployed table built from the three descriptions in declaration order, a tie goes to interview over project over resume. |
| `QueryClassifier.ClassifyQuery` | scripts/query_classifier.py:87-96 | The answer is tagged `Rule` exactly when some keyword occurs in the lowered query. A rule answer is the rule router's category and confidence 0.9, and embeds nothing: the semantic router is not invoked. A semantic answer is the semantic router's category and score, and the query is the one text embedded. |
| `RouterExamples.ConflictQueryIsInterview` | scripts/query_classifier.py:18-35 | "Tell me about a time you had a conflict with a teammate" routes to interview with confidence 0.9. |
| `RouterExamples.GpaQueryIsResume` | scripts/query_classifier.py:18-43 | "What was your GPA?" routes to resume with confidence 0.9. Neither interview nor project keywords occur in it. |
| `RouterExamples.InterviewOutranksProject` | scripts/query_classifier.py:18-39 | A query holding both an interview keyword ("team") and a project keyword ("model") routes to interview. |
| `RouterExamples.KeywordFreeQueryIsSemantic` | scripts/query_classifier.py:87-96 | "Who are you?" holds no keyword, so it is answered by the semantic router, and the query is sent to the provider. |
| `Batching.FlattenBatches` | scripts/build_embeddings.py:40-41 | Concatenating the batches in order gives back the texts. |
| `Batching.BatchSizes` | scripts/build_embeddings.py:40-41 | Every batch is non-empty and holds at most the batch size. Every batch but the last holds exactly the batch size. |
| `Batching.BatchesAreSlices` | scripts/build_embeddings.py:40-41 | Batch k is the slice `texts[k*B : (k+1)*B]`, clipped at the end, and it starts inside the texts. |
| `Batching.BatchCount` | scripts/build_embeddings.py:40-46 | The number of batches, which is the number of provider calls, is ceil(N/B). It is zero exactly for empty input. |
| `Batching.EmbedAllAppend` | scripts/build_embeddings.py:48-49 | Handling one more batch appends that batch's reply, in order, to the rows gathered so far. |
| `Batching.EmbedAllFaithful` | scripts/build_embeddings.py:43-49 | With an order-faithful provider, the gathered rows are the per-text vectors of the concatenated batches, position by position. |
| `Batching.RowsMatchInputs` | scripts/build_embeddings.py:38-49 | With an order-faithful provider, batching and concatenating yield exactly one row per text, and row i is the vector of text i. |
| `BuildEmbeddings.Texts` | scripts/build_embeddings.py:37 | The texts have one entry per chunk, in chunk order, and entry i is chunk i's content. |
| `BuildEmbeddings.GenerateEmbeddings` | scripts/build_embeddings.py:36-49 | The stepping loop calls the provider on exactly the consecutive batches of the chunk texts, in order. Those batches are well sized and concatenate back to the texts. The result is the replies concatenated in call order. |
| `BuildEmbeddings.Build` | scripts/build_embeddings.py:75-93 | With no chunks, no provider call is made, nothing is embedded and no artifact is written. Otherwise all chunks are embedded in batches of 32, and the matrix and index are written. A provider call happens exactly when there are chunks. |
| `BuildEmbeddings.BuildRowsMatchChunks` | scripts/build_embeddings.py:37-49 | With an order-faithful provider, the build yields one row per chunk, and row i is the vector of chunk i's content. |
| `BuildEmbeddings.BuildCallCount` | scripts/build_embeddings.py:40-46 | With batch size 32, the build calls the provider ceil(N/32) times for N chunks. |

## Left out

- The OpenAI client and the API-key check at import time (scripts/query_classifier.py:8-12, scripts/build_embeddings.py:18-22) are environment and network set-up.
- `embed_text` and `faiss.normalize_L2` are floating-point normalisation in a foreign library. The query and category embeddings are opaque values produced by the `embed` parameter.
- `np.dot` and the float32 conversion are float numerics. A score is an abstract `real` from the `dot` parameter, so NaN and rounding are not modelled.
- The row-wise `faiss.normalize_L2` of the embedding matrix and the float32 cast in `generate_embeddings` (scripts/build_embeddings.py:51-54) are not modelled. The model's rows are the provider's replies as gathered. Two things are lost. First, the model does not state that every stored row has unit length. Second, on an empty chunk list the code builds a one-dimensional empty array, and `normalize_L2` then reads a second dimension it does not have, so `generate_embeddings([])` fails. `BuildEmbeddings.GenerateEmbeddings` instead returns no rows and no calls. Only the empty-input return in `main` (scripts/build_embeddings.py:79-81) keeps the code from reaching that case, and `BuildEmbeddings.Build` models that return.
- `build_faiss_index`, `faiss.write_index` and `np.save` are thin wrappers over FAISS and NumPy persistence. `BuildEmbeddings.Build` records only which artifacts are written.
- `load_chunks` (JSON file reading) and the `tqdm` progress bar are I/O and UI. The chunks are a parameter. A chunk without a `content` field, which raises `KeyError` in the code, is not modelled, because a `Chunk` always has content.
- Provider failures (network, authentication, malformed reply) abort the run in the code. Here the provider is a total function, so there is no failure path.
- Python's `str.lower` lowers all of Unicode, but `Text.Lower` lowers only ASCII letters. A few non-ASCII characters lower to ASCII ones (the Kelvin sign to `k`, for example), and the model does not see those hits.
- The printed progress messages in `main` are console output.
- `scripts/rag_answer.py` (argument handling, printing, writing the answer file) is left out. It delegates to `scripts.rag_core.answer_query`, which is not part of this model.
- BuildEmbeddings.GenerateEmbeddings: its own contract does not state the number of provider calls. The ceil(N/B) count is proved about the same batches by `Batching.BatchCount` and `BuildEmbeddings.BuildCallCount`. This keeps nonlinear arithmetic out of the loop proof.
