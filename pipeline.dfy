/**
 * The deterministic part of `analyze_resume` (backend/services/pipeline.py):
 * chunk the resume text, index the chunks, retrieve the three nearest to the
 * job description, cut the context and the job text to size, fill the prompt
 * template and hand the prompt to the language model, whose answer is
 * returned as it is.
 *
 * Reading the upload, PDF extraction and the embedding model are outside the
 * model: the extracted text is an input and the embedding is a parameter.
 */
module Pipeline {
  import opened Wrappers
  import Chunker
  import FlatL2
  import Retriever
  import Prompts
  import Llm

  const ChunkSize: nat := 200
  const ChunkOverlap: nat := 30
  const TopK: nat := 3
  const ContextLimit: nat := 1500
  const JobTextLimit: nat := 1000

  /** The sentence-embedding model: every text is mapped to a vector of `dim` coordinates. */
  datatype Embedder = Embedder(dim: nat, embed: string -> FlatL2.Vector) {
    ghost predicate Valid() {
      forall s :: |embed(s)| == dim
    }
  }

  /** `embed_texts(chunks)`: one vector per chunk, in order. */
  function EmbedAll(e: Embedder, chunks: seq<string>): (vs: seq<FlatL2.Vector>)
    requires e.Valid()
    ensures |vs| == |chunks|
    ensures forall i :: 0 <= i < |vs| ==> vs[i] == e.embed(chunks[i]) && |vs[i]| == e.dim
  {
    seq(|chunks|, i requires 0 <= i < |chunks| => e.embed(chunks[i]))
  }

  /** The exception `analyze_resume` lets escape: from the search or from `call_llm`. */
  datatype PipelineError = SearchFailed(searchError: Retriever.SearchError) | LlmFailed(llmError: Llm.LlmError)

  /** Python's `s[:n]` for n >= 0. */
  function Truncate(s: string, n: nat): (t: string)
    ensures |t| == Min(n, |s|) && t == s[..|t|]
  {
    if |s| <= n then s else s[..n]
  }

  /** `"\n".join(xs)`: the first piece, the nearest chunk, comes first. */
  function JoinLines(xs: seq<string>): (s: string)
    ensures |xs| > 0 ==> |xs[0]| <= |s| && s[..|xs[0]|] == xs[0]
  {
    if |xs| == 0 then []
    else if |xs| == 1 then xs[0]
    else
      var init := JoinLines(xs[..|xs| - 1]);
      assert xs[..|xs| - 1][0] == xs[0];
      assert (init + "\n" + xs[|xs| - 1])[..|xs[0]|] == init[..|xs[0]|];
      init + "\n" + xs[|xs| - 1]
  }

  function TotalLength(xs: seq<string>): nat {
    if xs == [] then 0 else TotalLength(xs[..|xs| - 1]) + |xs[|xs| - 1]|
  }

  /** The joined text holds every piece and one newline between each two. */
  lemma {:induction false} JoinLinesLength(xs: seq<string>)
    requires xs != []
    ensures |JoinLines(xs)| == TotalLength(xs) + |xs| - 1
  {
    if |xs| == 1 {
      assert xs[..0] == [];
    } else {
      JoinLinesLength(xs[..|xs| - 1]);
    }
  }

  /** Three retrieved chunks are joined as first, newline, second, newline, third. */
  lemma JoinThree(a: string, b: string, c: string)
    ensures JoinLines([a, b, c]) == a + "\n" + b + "\n" + c
  {
    assert [a, b, c][..2] == [a, b];
    assert [a, b][..1] == [a];
    assert JoinLines([a, b]) == a + "\n" + b;
  }

  /**
   * `context`: the retrieved chunks, one per line, cut to 1500 characters. It
   * begins with the nearest chunk, or with its first 1500 characters.
   */
  function Context(topChunks: seq<string>): (c: string)
    ensures |c| <= ContextLimit
    ensures |topChunks| > 0 ==> var n := Min(|topChunks[0]|, ContextLimit);
      n <= |c| && c[..n] == topChunks[0][..n]
  {
    var joined := JoinLines(topChunks);
    assert |topChunks| > 0 ==> var n := Min(|topChunks[0]|, ContextLimit);
      joined[..n] == joined[..|topChunks[0]|][..n];
    Truncate(joined, ContextLimit)
  }

  /**
   * `PROMPT_TEMPLATE.format(resume=context, jd=jd)`: the call succeeds, both
   * arguments go in verbatim, and the template adds 792 characters of its own.
   */
  function FillTemplate(context: string, jd: string): (prompt: string)
    ensures Prompts.Format(Prompts.Template, Prompts.Arguments(context, jd)) == Success(prompt)
    ensures |prompt| == 792 + |context| + |jd|
  {
    Prompts.FormatTemplate(context, jd);
    Prompts.RenderedLength(context, jd);
    Prompts.Render(context, jd)
  }

  /**
   * The prompt of one request: the template filled with the joined chunks cut
   * to 1500 characters and the job text cut to 1000, so never longer than
   * 792 + 1500 + 1000 characters.
   */
  function BuildPrompt(topChunks: seq<string>, jobText: string): (prompt: string)
    ensures prompt == FillTemplate(Context(topChunks), Truncate(jobText, JobTextLimit))
    ensures |prompt| <= 792 + ContextLimit + JobTextLimit
  {
    var context := Context(topChunks);
    var jd := Truncate(jobText, JobTextLimit);
    assert |context| <= ContextLimit && |jd| <= JobTextLimit;
    FillTemplate(context, jd)
  }

  /**
   * What a request sends to the model: search the cache with the job
   * description's vector for three chunks and build the prompt from them. A
   * missing key fails at the lookup, and a prompt never exceeds 3292 characters.
   */
  function PromptOf(entries: map<Retriever.Key, Retriever.Entry>, key: Option<Retriever.Key>, query: FlatL2.Vector,
                    jobText: string): (r: Result<string, PipelineError>)
    ensures key.None? || key.value !in entries ==> r == Failure(SearchFailed(Retriever.KeyError))
    ensures r.Success? ==> |r.value| <= 792 + ContextLimit + JobTextLimit
  {
    match Retriever.SearchIn(entries, query, key, TopK)
    case Failure(e) => Failure(SearchFailed(e))
    case Success(top) => Success(BuildPrompt(top, jobText))
  }

  /**
   * Everything after indexing: the prompt of `PromptOf` goes to the model,
   * whose answer is returned untouched; an exception from the search or the
   * model ends the request. Without SageMaker every answer has the four keys.
   */
  function Answer(entries: map<Retriever.Key, Retriever.Entry>, key: Option<Retriever.Key>, query: FlatL2.Vector, jobText: string,
                  config: Llm.Config, groq: string -> Llm.ApiOutcome): (r: Result<Llm.Reply, PipelineError>)
    ensures PromptOf(entries, key, query, jobText).Failure? ==> r == Failure(PromptOf(entries, key, query, jobText).error)
    ensures PromptOf(entries, key, query, jobText).Success? && !config.useSagemaker ==>
      r.Success? && Llm.HasRequiredKeys(r.value)
  {
    match PromptOf(entries, key, query, jobText)
    case Failure(e) => Failure(e)
    case Success(prompt) =>
      match Llm.CallLlm(config, groq, prompt)
      case Failure(e) => Failure(LlmFailed(e))
      case Success(reply) => Success(reply)
  }

  /**
   * `analyze_resume` on the extracted resume text, with `create_index` as
   * evidently intended: the cache gains the resume's index unless it already
   * holds one under the same hash, and the answer is `Answer` on the new cache.
   */
  method AnalyzeResume(cache: Retriever.IndexCache, embedder: Embedder, config: Llm.Config,
                       groq: string -> Llm.ApiOutcome, resumeText: string, jobText: string)
    returns (r: Result<Llm.Reply, PipelineError>)
    requires embedder.Valid()
    modifies cache
    ensures var key := cache.hashText(resumeText);
      var chunks := Chunker.Windows(resumeText, ChunkSize, ChunkSize - ChunkOverlap);
      && (key in old(cache.entries) ==> cache.entries == old(cache.entries))
      && (key !in old(cache.entries) ==>
            cache.entries == old(cache.entries)[key := Retriever.Entry(FlatL2.FlatIndex(embedder.dim, EmbedAll(embedder, chunks)), chunks)])
      && r == Answer(cache.entries, Some(key), embedder.embed(jobText), jobText, config, groq)
  {
    var chunked := Chunker.ChunkText(resumeText, ChunkSize, ChunkOverlap);
    var chunks := chunked.value;
    var vectors := EmbedAll(embedder, chunks);
    var key := cache.CreateIndex(vectors, embedder.dim, chunks, resumeText);
    var query := embedder.embed(jobText);
    r := Answer(cache.entries, Some(key), query, jobText, config, groq);
  }

  /**
   * `analyze_resume` with `create_index` as written: a resume already in the
   * cache is answered as above, but for any other resume `create_index`
   * returns `None` without caching anything, and the search raises `KeyError`.
   */
  method AnalyzeResumeAsWritten(cache: Retriever.IndexCache, embedder: Embedder, config: Llm.Config,
                                groq: string -> Llm.ApiOutcome, resumeText: string, jobText: string)
    returns (r: Result<Llm.Reply, PipelineError>)
    requires embedder.Valid()
    ensures var key := cache.hashText(resumeText);
      && (key in cache.entries ==> r == Answer(cache.entries, Some(key), embedder.embed(jobText), jobText, config, groq))
      && (key !in cache.entries ==> r == Failure(SearchFailed(Retriever.KeyError)))
  {
    var chunked := Chunker.ChunkText(resumeText, ChunkSize, ChunkOverlap);
    var chunks := chunked.value;
    var vectors := EmbedAll(embedder, chunks);
    var key := cache.CreateIndexAsWritten(vectors, embedder.dim, chunks, resumeText);
    var query := embedder.embed(jobText);
    r := Answer(cache.entries, key, query, jobText, config, groq);
  }

  /**
   * As written, a freshly started service fails every request, the first and
   * any repeat of it alike: nothing ever enters the cache.
   */
  method RepeatedRequestFailsAsWritten(hashText: string -> Retriever.Key, embedder: Embedder, config: Llm.Config,
                                       groq: string -> Llm.ApiOutcome, resumeText: string, jobText: string)
    returns (first: Result<Llm.Reply, PipelineError>, second: Result<Llm.Reply, PipelineError>)
    requires embedder.Valid()
    ensures first == second == Failure(SearchFailed(Retriever.KeyError))
  {
    var cache := new Retriever.IndexCache(hashText);
    first := AnalyzeResumeAsWritten(cache, embedder, config, groq, resumeText, jobText);
    second := AnalyzeResumeAsWritten(cache, embedder, config, groq, resumeText, jobText);
  }

  /**
   * With `create_index` corrected, a repeated request finds the index the
   * first one cached: the cache is left as the first request left it, and both
   * requests send the model the same prompt. The model samples its answer, so
   * each request has its own outcome of the Groq call (`groq1`, `groq2`).
   */
  method RepeatedRequestIsAnswered(hashText: string -> Retriever.Key, embedder: Embedder, config: Llm.Config,
                                   groq1: string -> Llm.ApiOutcome, groq2: string -> Llm.ApiOutcome,
                                   resumeText: string, jobText: string)
    returns (first: Result<Llm.Reply, PipelineError>, second: Result<Llm.Reply, PipelineError>,
             afterFirst: map<Retriever.Key, Retriever.Entry>, afterSecond: map<Retriever.Key, Retriever.Entry>)
    requires embedder.Valid()
    ensures var chunks := Chunker.Windows(resumeText, ChunkSize, ChunkSize - ChunkOverlap);
      afterFirst == afterSecond
        == map[hashText(resumeText) := Retriever.Entry(FlatL2.FlatIndex(embedder.dim, EmbedAll(embedder, chunks)), chunks)]
    ensures first == Answer(afterFirst, Some(hashText(resumeText)), embedder.embed(jobText), jobText, config, groq1)
    ensures second == Answer(afterFirst, Some(hashText(resumeText)), embedder.embed(jobText), jobText, config, groq2)
  {
    var cache := new Retriever.IndexCache(hashText);
    first := AnalyzeResume(cache, embedder, config, groq1, resumeText, jobText);
    afterFirst := cache.entries;
    second := AnalyzeResume(cache, embedder, config, groq2, resumeText, jobText);
    afterSecond := cache.entries;
  }

  // ---------------------------------------------------------------------------
  // Properties of a request

  /** 30 < 200: the chunker's overlap error cannot fire on this path, and the chunks are its windows. */
  lemma {:induction false} ChunkingNeverFails(resumeText: string)
    ensures ChunkOverlap < ChunkSize
    ensures |Chunker.Windows(resumeText, ChunkSize, ChunkSize - ChunkOverlap)| == 0 <==> resumeText == []
  {
    Chunker.ChunkCountIsCeiling(resumeText, ChunkSize, ChunkSize - ChunkOverlap);
  }

  /** The context is a prefix of the joined chunks, of length min(1500, joined length); likewise the job text with 1000. */
  lemma PromptArguments(topChunks: seq<string>, jobText: string)
    ensures var joined := JoinLines(topChunks);
      |Context(topChunks)| == Min(ContextLimit, |joined|) && Context(topChunks) == joined[..|Context(topChunks)|]
    ensures |Truncate(jobText, JobTextLimit)| == Min(JobTextLimit, |jobText|)
    ensures Truncate(jobText, JobTextLimit) == jobText[..|Truncate(jobText, JobTextLimit)|]
  {}

  /**
   * A resume with some text whose index is in the cache, and a configuration without
   * SageMaker: the search returns three chunks (padded with the last chunk
   * when there are fewer), and the answer is exactly what the model returned
   * for the prompt built from them, a record with the four result keys.
   */
  lemma {:induction false} FreshResumeIsAnswered(entries: map<Retriever.Key, Retriever.Entry>, key: Retriever.Key,
                                                  embedder: Embedder, resumeText: string, jobText: string,
                                                  config: Llm.Config, groq: string -> Llm.ApiOutcome)
    requires embedder.Valid() && resumeText != [] && !config.useSagemaker
    requires var chunks := Chunker.Windows(resumeText, ChunkSize, ChunkSize - ChunkOverlap);
      key in entries && entries[key] == Retriever.Entry(FlatL2.FlatIndex(embedder.dim, EmbedAll(embedder, chunks)), chunks)
    ensures var top := Retriever.SearchIn(entries, embedder.embed(jobText), Some(key), TopK);
      top.Success? && |top.value| == TopK
    ensures var prompt := PromptOf(entries, Some(key), embedder.embed(jobText), jobText);
      var r := Answer(entries, Some(key), embedder.embed(jobText), jobText, config, groq);
      && prompt.Success? && r.Success?
      && Success(r.value) == Llm.CallLlm(config, groq, prompt.value)
  {
    var query := embedder.embed(jobText);
    FreshSearchSucceeds(entries, key, embedder, resumeText, query);
    assert PromptOf(entries, Some(key), query, jobText).Success?;
    AnswerOfPrompt(entries, Some(key), query, jobText, config, groq);
  }

  /** A request whose prompt was built is answered with what the model returned for that prompt. */
  lemma AnswerOfPrompt(entries: map<Retriever.Key, Retriever.Entry>, key: Option<Retriever.Key>, query: FlatL2.Vector,
                       jobText: string, config: Llm.Config, groq: string -> Llm.ApiOutcome)
    requires PromptOf(entries, key, query, jobText).Success? && !config.useSagemaker
    ensures var r := Answer(entries, key, query, jobText, config, groq);
      r.Success? && Success(r.value) == Llm.CallLlm(config, groq, PromptOf(entries, key, query, jobText).value)
  {}

  /** The search half of `FreshResumeIsAnswered`: three chunks come back, padded when there are fewer. */
  lemma {:induction false} FreshSearchSucceeds(entries: map<Retriever.Key, Retriever.Entry>, key: Retriever.Key,
                                               embedder: Embedder, resumeText: string, query: FlatL2.Vector)
    requires embedder.Valid() && resumeText != [] && |query| == embedder.dim
    requires var chunks := Chunker.Windows(resumeText, ChunkSize, ChunkSize - ChunkOverlap);
      key in entries && entries[key] == Retriever.Entry(FlatL2.FlatIndex(embedder.dim, EmbedAll(embedder, chunks)), chunks)
    ensures var top := Retriever.SearchIn(entries, query, Some(key), TopK);
      top.Success? && |top.value| == TopK
  {
    var chunks := Chunker.Windows(resumeText, ChunkSize, ChunkSize - ChunkOverlap);
    ChunkingNeverFails(resumeText);
    if TopK <= |chunks| {
      Retriever.SearchReturnsNearest(entries, query, key, TopK);
    } else {
      Retriever.SearchPadsWithLastChunk(entries, query, key, TopK);
    }
  }

  /** Empty resume text gives no chunks, and the search over an empty index fails with `IndexError`. */
  lemma {:induction false} EmptyResumeFails(entries: map<Retriever.Key, Retriever.Entry>, key: Retriever.Key,
                                            embedder: Embedder, jobText: string,
                                            config: Llm.Config, groq: string -> Llm.ApiOutcome)
    requires embedder.Valid()
    requires var chunks := Chunker.Windows([], ChunkSize, ChunkSize - ChunkOverlap);
      key in entries && entries[key] == Retriever.Entry(FlatL2.FlatIndex(embedder.dim, EmbedAll(embedder, chunks)), chunks)
    ensures Answer(entries, Some(key), embedder.embed(jobText), jobText, config, groq) == Failure(SearchFailed(Retriever.IndexError))
  {
    ChunkingNeverFails([]);
    Retriever.SearchEmptyIndexFails(entries, embedder.embed(jobText), key, TopK);
  }
}
