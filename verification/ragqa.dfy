/** The command-line pipeline (rag_qa.py): the corpus and the index are
    loaded once at import, `retrieve` keeps every search position without a
    bounds filter and without distances, the citation lines end with a
    single newline, and `answer_question` checks the key before anything
    else and returns the model's text as it is. */
module RagQa {
  import opened Wrappers
  import opened Strings
  import opened Pipeline
  import opened Credentials

  // ---------------------------------------------------------------------
  // Retrieval: `retrieve`

  /** What `retrieve` returns for the search `s` over the corpus loaded at
      import: one passage per search position, or IndexError when some
      position's index is out of range for `texts` or `metadatas`. */
  function RetrieveSpec(texts: seq<string>, metas: seq<Metadata>, s: Search): Result<seq<Passage>, Exc> {
    if forall r :: 0 <= r < |s.I| ==> Fetchable(texts, metas, s.I[r]) then
      Success(PassagesAt(texts, metas, s.I))
    else
      Failure(IndexError)
  }

  /** The passages at the indices `I`, in order. */
  function PassagesAt(texts: seq<string>, metas: seq<Metadata>, I: seq<int>): (ps: seq<Passage>)
    requires forall r :: 0 <= r < |I| ==> Fetchable(texts, metas, I[r])
    ensures |ps| == |I|
    ensures forall r :: 0 <= r < |I| ==> ps[r] == PassageAt(texts, metas, I[r])
  {
    seq(|I|, r requires 0 <= r < |I| => PassageAt(texts, metas, I[r]))
  }

  /** `retrieve(query, k)`: the `append` loop over `I[0]`. */
  method Retrieve(texts: seq<string>, metas: seq<Metadata>, s: Search) returns (r: Result<seq<Passage>, Exc>)
    ensures r == RetrieveSpec(texts, metas, s)
  {
    var results: seq<Passage> := [];
    var i := 0;
    while i < |s.I|
      invariant 0 <= i <= |s.I| && |results| == i
      invariant forall q :: 0 <= q < i ==> Fetchable(texts, metas, s.I[q]) && results[q] == PassageAt(texts, metas, s.I[q])
    {
      var text := PyIndex(texts, s.I[i]);
      if text.Failure? {
        return Failure(text.error);
      }
      var meta := PyIndex(metas, s.I[i]);
      if meta.Failure? {
        return Failure(meta.error);
      }
      results := results + [Passage(text.value, meta.value)];
      i := i + 1;
    }
    assert results == PassagesAt(texts, metas, s.I);
    return Success(results);
  }

  /** There is no filter: a successful retrieval has exactly one passage per
      search position, in search order, and it fails exactly when some
      position cannot be read, such as `-1` on an empty corpus or any index
      past the end. */
  lemma RetrieveOnePerPosition(texts: seq<string>, metas: seq<Metadata>, s: Search)
    ensures var r := RetrieveSpec(texts, metas, s);
      && (r.Success? ==>
            (|r.value| == |s.I|
             && forall q :: 0 <= q < |s.I| ==> Fetchable(texts, metas, s.I[q]) && r.value[q] == PassageAt(texts, metas, s.I[q])))
      && (r.Failure? <==> exists q :: 0 <= q < |s.I| && !Fetchable(texts, metas, s.I[q]))
      && (r.Failure? ==> r.error == IndexError)
  {
  }

  /** An index past the end of the corpus makes the whole retrieval fail,
      where the filtered versions of app.py and backend/main.py skip it. */
  lemma RetrievePastEndFails(texts: seq<string>, metas: seq<Metadata>, s: Search, q: nat)
    requires q < |s.I| && s.I[q] >= |texts|
    ensures RetrieveSpec(texts, metas, s) == Failure(IndexError)
    ensures q !in KeptRanks(s.I, |texts|)
  {
    assert !Fetchable(texts, metas, s.I[q]);
    KeptRanksExact(s.I, |texts|);
  }

  // ---------------------------------------------------------------------
  // The prompt

  const RagInstruction := "Answer the following question using ONLY the provided context. "
  const RagCiteRule := "For every fact, cite the source page in the format [Source p.X].\n\n"

  /** Everything the prompt puts before the context. */
  const RagPromptHead := RagInstruction + RagCiteRule + "Context:\n"
  const QuestionTag := "\n\nQuestion: "
  const AnswerTag := "\nAnswer: "

  /** The prompt of rag_qa.py. */
  function Prompt(context: string, query: string): string {
    RagPromptHead + context + QuestionTag + query + AnswerTag
  }

  /** The prompt carries the context and then the question verbatim, and ends
      with the answer cue. */
  lemma PromptCarries(context: string, query: string)
    ensures OccursAt(Prompt(context, query), context, |RagPromptHead|)
    ensures OccursAt(Prompt(context, query), query, |RagPromptHead| + |context| + |QuestionTag|)
    ensures var p := Prompt(context, query); p[|p| - |AnswerTag|..] == AnswerTag
  {
    OccursInFrame(RagPromptHead, context, QuestionTag, query, AnswerTag);
  }

  // ---------------------------------------------------------------------
  // Answering: `answer_question`

  /** A call of `generate_content` after `genai.configure(api_key=key)`. */
  datatype Call = Call(key: string, prompt: string)

  /** The result of `answer_question` (the text, or the exception it raises)
      and the calls it makes to the model. */
  datatype Outcome = Outcome(result: Result<string, Exc>, calls: seq<Call>)

  /** `answer_question(query, api_key)` with `env` the environment's key,
      `s` the search for the query and `reply` what the model returns. */
  function AnswerSpec(texts: seq<string>, metas: seq<Metadata>, query: string, apiKey: Option<string>,
                      env: Option<string>, s: Search, reply: GenOutcome): Outcome
  {
    match SelectKey(apiKey, env)
    case Failure(e) => Outcome(Failure(e), [])
    case Success(key) =>
      match RetrieveSpec(texts, metas, s)
      case Failure(e) => Outcome(Failure(e), [])
      case Success(ps) =>
        var call := Call(key, Prompt(Context(ps, "\n"), query));
        match reply
        case Raised(e) => Outcome(Failure(e), [call])
        case Text(t) => Outcome(Success(t), [call])
  }

  /** The key is settled before anything else: a bad key raises its error
      whatever the corpus, the search and the model would do; otherwise the
      model is called at most once, with the checked key and the prompt for
      the retrieved context, and its text is returned unchecked. */
  lemma AnswerOutcomes(texts: seq<string>, metas: seq<Metadata>, query: string, apiKey: Option<string>,
                       env: Option<string>, s: Search, reply: GenOutcome,
                       texts': seq<string>, metas': seq<Metadata>, s': Search, reply': GenOutcome)
    ensures var o := AnswerSpec(texts, metas, query, apiKey, env, s, reply);
      && (SelectKey(apiKey, env).Failure? ==>
            o == Outcome(Failure(SelectKey(apiKey, env).error), [])
            && o == AnswerSpec(texts', metas', query, apiKey, env, s', reply'))
      && (SelectKey(apiKey, env).Success? && RetrieveSpec(texts, metas, s).Failure? ==>
            o == Outcome(Failure(IndexError), []))
      && |o.calls| <= 1
      && (o.calls != [] ==>
            SelectKey(apiKey, env).Success? && RetrieveSpec(texts, metas, s).Success?
            && o.calls[0] == Call(SelectKey(apiKey, env).value, Prompt(Context(RetrieveSpec(texts, metas, s).value, "\n"), query)))
      && (o.result.Success? <==> o.calls != [] && reply.Text?)
      && (o.result.Success? ==> reply == Text(o.result.value))
  {
    RetrieveOnePerPosition(texts, metas, s);
  }

  /** `answer_question`; the ghost output records the calls to the model. */
  method AnswerQuestion(texts: seq<string>, metas: seq<Metadata>, query: string, apiKey: Option<string>,
                        env: Option<string>, s: Search, reply: GenOutcome)
    returns (r: Result<string, Exc>, ghost calls: seq<Call>)
    ensures Outcome(r, calls) == AnswerSpec(texts, metas, query, apiKey, env, s, reply)
  {
    var key := SelectKey(apiKey, env);
    if key.Failure? {
      return Failure(key.error), [];
    }
    var retrieved := Retrieve(texts, metas, s);
    if retrieved.Failure? {
      return Failure(retrieved.error), [];
    }
    var context := FormatContextWithCitations(retrieved.value, "\n");
    var prompt := RagPromptHead + context + QuestionTag + query + AnswerTag;
    calls := [Call(key.value, prompt)];
    match reply
    case Raised(e) =>
      r := Failure(e);
    case Text(t) =>
      r := Success(t);
  }
}
