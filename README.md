# Resume matcher core, modelled in Dafny

The service scores a resume against a job description. It extracts the resume's text and cuts it into overlapping fixed-size chunks. It embeds the chunks and indexes them in an exact L2 nearest-neighbour index, which it is meant to cache under a hash of the resume text. As written, nothing is cached, and the search that follows fails with KeyError (see "## Findings"). On the intended path it retrieves the three chunks nearest to the job description's embedding from the cached index, and builds a prompt from them and the job text, each cut to a size limit. Finally it asks a language model (Groq, or a local stand-in) for a JSON verdict. The verdict is checked for its four keys and completed with defaults, or replaced by a fallback record when the reply is not usable.

Modules, one per source file of the core:

- `Chunker` (`chunker.dfy`): `chunk_text` as an imperative loop. It is proved equal to the reference sequence `Windows`. Lemmas cover the chunk count, chunk shape and overlap, and the reconstruction of the text from its chunks.
- `FlatL2` (`flat_l2.dfy`): `faiss.IndexFlatL2`'s exact search. Stored vectors are ranked by squared distance, ties go to the earlier id, and the labels are padded with -1.
- `Retriever` (`retriever.dfy`): `_INDEX_CACHE` as a class with a map field. It has `create_index` as written and as evidently intended, and `search` with Python's negative indexing of `chunks`.
- `Prompts` (`prompts.dfy`): the part of `str.format` the template relies on, and `PROMPT_TEMPLATE` character for character. Formatting always succeeds, inserts both arguments verbatim, adds 792 characters, and lists the four result keys in order.
- `Llm` (`llm.dfy`): `call_llm`'s three-way dispatch and `call_groq_llm`'s handling of the reply. The remote call is a parameter.
- `Pipeline` (`pipeline.dfy`): `analyze_resume` from the extracted text on. The embedding model is a parameter.
- `Wrappers` (`wrappers.dfy`): `Option`, `Result` and `Min`.

Inputs that come from outside the program are parameters:

- the extracted resume text;
- the embedding function (`Pipeline.Embedder`);
- the hash function (`Retriever.IndexCache.hashText`);
- the outcome of the Groq request (`groq: string -> Llm.ApiOutcome`);
- the environment configuration (`Llm.Config`).

## Model

| member | source | states |
|---|---|---|
| Chunker.Windows | backend/services/chunker.py:8-11 | The reference sequence of windows: window i is the slice starting at i*step, and no window is longer than `size`. |
| Chunker.ChunkText | backend/services/chunker.py:1-13 | Fails with the overlap error exactly when overlap >= size. Otherwise it returns every window `text[i*step : i*step+size]` for i = 0, 1, … while the start is inside the text, with step = size - overlap. |
| Chunker.ChunkCountIsCeiling | backend/services/chunker.py:8-11 | The windows cover the whole text. The last window starts inside it. Empty text gives no chunks and any other text gives at least one. |
| Chunker.ChunkShape | backend/services/chunker.py:9-10 | Chunk i starts at i*step inside the text. It is the slice up to i*step+size, cut at the end of the text. It is non-empty and at most `size` long. |
| Chunker.ConsecutiveChunksOverlap | backend/services/chunker.py:9-11 | A full chunk's last `overlap` characters are the first `overlap` characters of the next chunk. |
| Chunker.SeveralShortTrailingChunks | backend/services/chunker.py:8-11 | More than one trailing chunk can be short: "abcde" with size 4 and overlap 3 gives "abcd", "bcde", "cde", "de", "e". |
| Chunker.ReassembleChunks | backend/services/chunker.py:5-13 | Taking the first chunk, then each later chunk minus its first `overlap` characters, rebuilds the text exactly. No character is lost or duplicated. |
| FlatL2.SqDist | backend/services/retriever.py:17-18 | The L2 metric the index uses is non-negative, and zero exactly when the two vectors are equal. |
| FlatL2.Distances | backend/services/retriever.py:17-18 | One distance per stored vector. Each distance is non-negative, and zero exactly when that stored vector equals the query. |
| FlatL2.Insert | backend/services/retriever.py:29 | Inserting an id into a ranked id sequence keeps it ranked and adds exactly that id. |
| FlatL2.Rank | backend/services/retriever.py:29 | Ranking is a permutation of the ids in ascending (distance, id) order. |
| FlatL2.Nearest | backend/services/retriever.py:29 | The nearest ids are min(k, n) stored ids in ascending (distance, id) order. |
| FlatL2.SearchLabels | backend/services/retriever.py:29 | `index.search` returns exactly k labels. |
| FlatL2.NearestIsTopK | backend/services/retriever.py:29 | The labels before the padding are min(k, n) distinct stored ids in ascending (distance, id) order. Every id left out ranks after every id returned. |
| FlatL2.NearestByDistance | backend/services/retriever.py:29 | The returned vectors have non-decreasing distance to the query, and none is farther than a vector left out. |
| FlatL2.NearestUnique | backend/services/retriever.py:29 | The top-k answer is determined. Any ranked sequence of min(k, n) ids that every other id ranks after is the answer. |
| FlatL2.ThreeNearestOfFive | backend/services/retriever.py:29 | For five sample 2-D vectors and query (0, 0), the three nearest ids are 3, 0 and 4, in that order. |
| Retriever.IndexCache.constructor | backend/services/retriever.py:6 | The cache starts empty. |
| Retriever.IndexCache.CreateIndexAsWritten | backend/services/retriever.py:11-21 | Returns the key when the text is already cached. For any other text it returns None and leaves the cache unchanged. |
| Retriever.IndexCache.CreateIndex | backend/services/retriever.py:11-21 | Returns the text's hash. A cached key leaves the cache unchanged. A new key maps to the index over the vectors together with the chunks, and nothing else changes. |
| Retriever.IndexCache.Search | backend/services/retriever.py:23-31 | A None key or a key not in the cache fails with KeyError. A successful search returns exactly k chunk texts. |
| Retriever.PyIndex | backend/services/retriever.py:31 | Python's `chunks[i]` gives an element exactly when -n <= i < n, and -1 gives the last element. |
| Retriever.Project | backend/services/retriever.py:31 | The list comprehension succeeds exactly when every label is a valid Python index of `chunks`, giving one chunk per label. Otherwise it fails with IndexError. |
| Retriever.SearchIn | backend/services/retriever.py:23-31 | The same as `Search`, over a given cache content. |
| Retriever.SearchReturnsNearest | backend/services/retriever.py:29-31 | With at least k chunks, the search returns the chunks of the k nearest vectors, nearest first. None is farther than a chunk left out. |
| Retriever.SearchPadsWithLastChunk | backend/services/retriever.py:29-31 | With fewer than k chunks but at least one, the search returns every chunk nearest first, then copies of the last chunk. The -1 labels select `chunks[-1]`. |
| Retriever.SearchEmptyIndexFails | backend/services/retriever.py:29-31 | An index over no chunks answers -1, and `chunks[-1]` raises IndexError. |
| Retriever.SearchDimensionMismatch | backend/services/retriever.py:29 | A query whose dimension differs from the index's is refused. |
| Retriever.BuildTwiceIsBuildOnce | backend/services/retriever.py:12-14 | Creating the index twice for the same text leaves the same cache as creating it once, even with other vectors on the second call. |
| Retriever.FirstSearchFailsAsWritten | backend/services/retriever.py:11-31 | On a fresh cache the as-written `create_index` returns None, and the search after it fails with KeyError. |
| Prompts.Format | backend/services/pipeline.py:33-36 | `str.format` returns a text without braces unchanged. |
| Prompts.FormatPlainText | backend/models/prompts.py:2-24 | `str.format` copies text without braces unchanged. |
| Prompts.FormatField | backend/models/prompts.py:5 | A `{name}` field whose plain name (no `.`, `[`, `!` or `:`) is a keyword argument is replaced by that argument verbatim. The rest is formatted after it and the argument is not rescanned. |
| Prompts.FormatEscapes | backend/models/prompts.py:11 | `{{` and `}}` render as single braces. |
| Prompts.TemplatePiecesPlain | backend/models/prompts.py:2-24 | Outside `{resume}`, `{jd}` and the `{{`/`}}` pair, the template has no brace. |
| Prompts.FormatTemplate | backend/models/prompts.py:2-24 | Formatting the template with `resume` and `jd` succeeds for every pair of texts. It gives the template with both placeholders replaced verbatim and the escaped braces collapsed. |
| Prompts.TemplateLength | backend/models/prompts.py:2-24 | `PROMPT_TEMPLATE` is 806 characters long. |
| Prompts.RenderPlacesArguments | backend/models/prompts.py:4-8 | In the rendered prompt the resume occurs verbatim right after the fixed introduction, and the job description right after the resume and the fixed middle part. |
| Prompts.RenderedLength | backend/models/prompts.py:2-24 | The rendered prompt is exactly 792 characters plus the two arguments' lengths. |
| Prompts.RenderedKeysInOrder | backend/models/prompts.py:11-16 | The rendered prompt names "score", "missing_skills", "suggestions" and "rewritten_bullets", quoted, at increasing positions. |
| Llm.RequiredKeysChecked | backend/services/llm.py:40-41 | The membership check succeeds iff every one of the four required keys is present. |
| Llm.Record | backend/services/llm.py:46-51 | A fallback record has exactly the four required keys. |
| Llm.Validate | backend/services/llm.py:37-51 | Only a decoded JSON object passes. What passes always has the four keys. |
| Llm.ApiErrorReply | backend/services/llm.py:62-69 | The exception record has the four keys. |
| Llm.GroqReply | backend/services/llm.py:7-69 | Whatever the request does (an exception, text that is not JSON, any JSON value), the returned dictionary has the four keys. |
| Llm.CallLlm | backend/services/llm.py:84-91 | Raises exactly when SageMaker is configured. Otherwise it returns a dictionary with the four keys. |
| Llm.ValidatePassesThrough | backend/services/llm.py:40-43 | A dictionary with all four keys is returned unchanged, extra keys included. |
| Llm.ValidateFillsDefaults | backend/services/llm.py:44-51 | A dictionary missing a key becomes one with exactly the four keys. Present keys keep their values and missing ones get 0, [], ["Incomplete response from AI"], []. |
| Llm.ValidateRejectsNonObjects | backend/services/llm.py:41-51 | A string or list raises "object has no attribute 'get'". A number, boolean or null raises "is not iterable". |
| Llm.InvalidJsonFallback | backend/services/llm.py:53-61 | Text that is not JSON gives score 0, no skills, the single suggestion "AI generated invalid JSON response" and no bullets. |
| Llm.ApiErrorFallback | backend/services/llm.py:62-69 | An exception gives score 0, empty lists and one suggestion. The suggestion is "API Error: " and the message's first 100 characters, so at most 111 characters. |
| Llm.NonObjectFallsBack | backend/services/llm.py:37-69 | A decoded value that is not an object ends in the exception record carrying the raised message. |
| Llm.Dispatch | backend/services/llm.py:84-91 | SageMaker raises NotImplementedError. Otherwise a non-empty Groq key calls Groq, and an empty key uses the local stand-in. |
| Llm.LocalIgnoresPrompt | backend/services/llm.py:71-82 | Without SageMaker or a Groq key, every prompt gets the same fixed record and the Groq request is never consulted. |
| Llm.EveryReplyHasRequiredKeys | backend/services/llm.py:7-91 | Without SageMaker, `call_llm` never raises and always returns all four keys. |
| Pipeline.EmbedAll | backend/services/embeddings.py:7-12 | One vector of the model's dimension per chunk, in chunk order. |
| Pipeline.Truncate | backend/services/pipeline.py:29-30 | `s[:n]` is the prefix of s of length min(n, \|s\|). |
| Pipeline.JoinLinesLength | backend/services/pipeline.py:29 | `"\n".join(xs)` is as long as the pieces together plus one newline between each two. |
| Pipeline.JoinThree | backend/services/pipeline.py:29 | Three chunks are joined as first, newline, second, newline, third. |
| Pipeline.JoinLines | backend/services/pipeline.py:29 | `"\n".join` begins with the first chunk, which is the nearest one. |
| Pipeline.Context | backend/services/pipeline.py:29 | The context is at most 1500 characters and begins with the nearest chunk, or with its first 1500 characters. |
| Pipeline.FillTemplate | backend/services/pipeline.py:33-36 | Formatting the template with the context and the job text succeeds, and the prompt is 792 characters longer than the two together. |
| Pipeline.BuildPrompt | backend/services/pipeline.py:29-36 | The prompt is the template filled with the joined chunks cut to 1500 characters and the job text cut to 1000. It is never longer than 3292 characters. |
| Pipeline.PromptOf | backend/services/pipeline.py:25-36 | A missing key fails at the lookup with KeyError. A prompt that is built is at most 3292 characters. |
| Pipeline.Answer | backend/services/pipeline.py:25-43 | A failed search ends the request with that error. Once the prompt is built and SageMaker is off, the request succeeds with a dictionary holding the four keys. |
| Pipeline.AnswerOfPrompt | backend/services/pipeline.py:41-43 | Once its prompt is built, a request returns exactly what `call_llm` returned for that prompt. |
| Pipeline.PromptArguments | backend/services/pipeline.py:29-30 | The context is a prefix of the joined chunks of length min(1500, joined length). The job text argument is its prefix of length min(1000, its length). |
| Pipeline.ChunkingNeverFails | backend/services/pipeline.py:20 | With size 200 and overlap 30 the chunker's error cannot occur. Only an empty resume gives no chunks. |
| Pipeline.AnalyzeResume | backend/services/pipeline.py:14-43 | Under the corrected `create_index`, the cache gains the resume's chunks and their index unless its hash is present. The answer is the search for 3 chunks with the job text's embedding, then the prompt, then `call_llm`. |
| Pipeline.AnalyzeResumeAsWritten | backend/services/pipeline.py:14-43 | Under the as-written `create_index`, a resume already cached is answered as above. Any other resume fails with KeyError. |
| Pipeline.RepeatedRequestFailsAsWritten | backend/services/pipeline.py:14-43 | As written, a freshly started service fails a request and its repeat alike with KeyError. |
| Pipeline.RepeatedRequestIsAnswered | backend/services/pipeline.py:14-43 | Under the corrected `create_index`, a repeated request leaves the cache as the first request left it, holding just that resume. Both requests are answered from the same search and prompt, and only the model's own answer may differ between them. |
| Pipeline.FreshResumeIsAnswered | backend/services/pipeline.py:20-43 | For a non-empty resume whose index is cached and no SageMaker, the search yields exactly 3 chunks. The request succeeds with what `call_llm` returned for the prompt built from them. |
| Pipeline.FreshSearchSucceeds | backend/services/pipeline.py:26 | For a non-empty resume whose index is cached, the search for 3 chunks succeeds with exactly 3 chunks. |
| Pipeline.EmptyResumeFails | backend/services/pipeline.py:20-26 | An empty resume gives no chunks, and the search over its empty index fails with IndexError. |

## Left out

- Reading the upload and PDF extraction (`pipeline.py:16-17`, the parser module) are left out. The extracted text is an input.
- The sentence-transformer model is a parameter of the model (`Pipeline.Embedder`). Embeddings are integer vectors rather than float32, so the float rounding of faiss's distances is not modelled. Ties are broken by id, as the exact flat index does.
- `hash_text` is an abstract function chosen when the cache is created; MD5 is not modelled. Equal texts get equal keys. Two texts whose hashes collide share an entry, as in the source.
- The writes of the index and the chunks to disk (`retriever.py:20-21`) are left out. Nothing in the core reads them back.
- The `lru_cache` on `get_jd_embedding` (`pipeline.py:9-12`) has no effect on results for a deterministic embedder, so it is not modelled.
- `print` debugging output is left out.
- The Groq client, its model name, temperature, token limit and system message (`llm.py:11-31`) are left out. The request is a parameter that yields an exception message or decoded text. Two exceptions are outside the `try` and are not modelled: `from groq import Groq` failing because the package is missing (`llm.py:9`), and an error while creating the client (`llm.py:11`). Either would escape from `call_llm`, so `Llm.EveryReplyHasRequiredKeys` holds only for the modelled request.
- JSON numbers are integers; floats and dictionary key order are not modelled. `json.loads` is abstract: the reply either decodes to a value or is malformed.
- `str.format` conversions (`!r`), format specs (`:>10`), attribute and index fields, and positional fields are not modelled. The template uses none of them.
- Prompts.Format: takes everything between `{` and the next brace as one keyword name. So `"{a.b}"` looks up the key `a.b`, where CPython looks up `a` and then its attribute `b`. A `{` inside a field fails at once with `BraceInFieldName`, where CPython first counts nested braces to find the field's end: `"{a{b}"` then fails as an unclosed field, and `"{a:{w}}"` is a valid nested format spec. `Prompts.FormatField` and the lemmas built on it are stated only for plain names, which is all the template uses.
- Concurrency between requests sharing the cache, and the async framing, are not modelled.
- Pipeline.RepeatedRequestIsAnswered: does not promise that the two replies are equal. The service samples the model at temperature 0.3 (`llm.py:28`), so each request has its own Groq outcome; only the cache, the search and the prompt are shared.
- The default arguments `size=800, overlap=200` of `chunk_text` (`chunker.py:1`) and `k=5` of `search` (`retriever.py:23`) are not modelled as defaults. The pipeline always passes 200, 30 and 3, and the model takes the values as parameters.
- Retriever.SearchIn: requires k > 0 because faiss rejects k <= 0; the service always asks for 3.
- Retriever.IndexCache.Search: requires k > 0, for the same reason as `SearchIn`.
- Chunker.ChunkText: does not model a negative size with an overlap below it. Python would read those slice ends from the end of the text, and the service always chunks with size 200 and overlap 30.
- Pipeline.AnalyzeResume: on an empty resume the source raises at `retriever.py:16`, because `vectors.shape[1]` does not exist for an empty array, and it caches nothing. The corrected path in the model instead caches an entry over no chunks and then fails at `chunks[-1]` with IndexError (`Pipeline.EmptyResumeFails`). Either way the request fails, but the model's cache gains that entry.
- Pipeline.AnalyzeResumeAsWritten: on an empty resume not in the cache the model fails with KeyError at the lookup, where the source fails earlier, at `retriever.py:16`. Either way the request fails with an exception and nothing is cached.
- A query vector of the wrong dimension trips faiss's assertion. The model represents it as the `DimensionMismatch` error.
- A k larger than the number of chunks is not rejected: faiss pads the labels with -1, and `chunks[-1]` returns the last chunk in those places (`Retriever.SearchPadsWithLastChunk`).

## Findings

| source | as written | input that shows it | evidently intended | confidence | as-written member | corrected member |
|---|---|---|---|---|---|---|
| backend/services/retriever.py:11-21 | For a new key, `create_index` builds the index and writes it to disk but never stores `(index, chunks)` in `_INDEX_CACHE`. It also falls off its end, returning `None`. The `search` that follows then raises `KeyError` on `_INDEX_CACHE[None]`. | Any non-empty resume not already in the cache. Since nothing ever enters the cache, that is every request with a non-empty resume from a freshly started service. An empty resume fails earlier, at line 16. | Store `(index, chunks)` under the key and return the key, so the search finds the index and later requests for the same resume reuse it. | not executed | Retriever.IndexCache.CreateIndexAsWritten | Retriever.IndexCache.CreateIndex |
