/** The Gradio application's `CottonRAGSystem` (app.py): start-up, retrieval
    that takes each hit's distance from the output position, and the
    retry loop around generation. Its methods read and write the module
    globals, given here as a `Globals` object. */
module App {
  import opened Wrappers
  import opened Strings
  import opened Pipeline
  import opened Credentials
  import opened Startup

  // ---------------------------------------------------------------------
  // Start-up: `initialize_system`

  const InitOk := "\U{2705} System initialized successfully!"
  const ChunksMissing := Exc("FileNotFoundError", "chunks.pkl not found. Please run chunk_and_embed.py first")
  const IndexMissing := Exc("FileNotFoundError", "faiss_index.bin not found. Please run chunk_and_embed.py first")

  function InitError(e: Exc): string {
    "\U{274C} Initialization Error: " + e.message
  }

  /** `initialize_system`: checks the key, creates the model handle, checks
      the two files, then loads the corpus, the index and the embedder,
      assigning each global as soon as its step returns. The first
      exception ends it with its message, and the globals assigned before
      it stay assigned. */
  method InitializeSystem(g: Globals, io: Inputs) returns (ok: bool, msg: string)
    requires g.Valid()
    modifies g
    ensures g.Valid()
    ensures g.State() == Initialize(old(g.State()), io, ChunksMissing, IndexMissing).globals
    ensures var err := Initialize(old(g.State()), io, ChunksMissing, IndexMissing).error;
      && (ok <==> err.None?)
      && msg == (if ok then InitOk else InitError(err.value))
  {
    var key := CheckEnvKey(io.apiKey);
    if key.Failure? {
      return false, InitError(key.error);
    }
    g.model := true;
    if !io.chunksExist {
      return false, InitError(ChunksMissing);
    }
    if !io.indexExists {
      return false, InitError(IndexMissing);
    }
    if io.pickled.Failure? {
      return false, InitError(io.pickled.error);
    }
    var chunkData := io.pickled.value;
    if chunkData.texts.None? {
      return false, InitError(KeyError("texts"));
    }
    g.texts := chunkData.texts;
    if chunkData.metadatas.None? {
      return false, InitError(KeyError("metadatas"));
    }
    g.metadatas := chunkData.metadatas;
    if io.readIndex.Fails? {
      return false, InitError(io.readIndex.error);
    }
    g.index := true;
    if io.loadEmbedder.Fails? {
      return false, InitError(io.loadEmbedder.error);
    }
    g.embedder := true;
    return true, InitOk;
  }

  // ---------------------------------------------------------------------
  // Retrieval: `retrieve`

  const NotInitialized := Exc("RuntimeError", "System not initialized properly")

  /** The hits for the kept ranks `ks`: the j-th carries the chunk at its own
      rank's index but the distance `D[j]` of the OUTPUT position
      (`D[0][len(results)]`). */
  function HitsByOutputPosition(texts: seq<string>, metas: seq<Metadata>, s: Search, ks: seq<nat>): (hs: seq<Hit>)
    requires |ks| <= |s.D|
    requires forall j :: 0 <= j < |ks| ==> ks[j] < |s.I| && Fetchable(texts, metas, s.I[ks[j]])
    ensures |hs| == |ks|
  {
    seq(|ks|, j requires 0 <= j < |ks| => Hit(PassageAt(texts, metas, s.I[ks[j]]), s.D[j]))
  }

  /** What the loop over `I[0]` returns on a loaded system: IndexError if
      some index that passes `idx < len(texts)` is below `-len(texts)` (or
      outside `metadatas`), else the hits of the kept ranks in search order. */
  function RetrieveHits(texts: seq<string>, metas: seq<Metadata>, s: Search): Result<seq<Hit>, Exc>
    requires Paired(s)
  {
    var ks := KeptRanks(s.I, |texts|);
    if forall j :: 0 <= j < |ks| ==> Fetchable(texts, metas, s.I[ks[j]]) then
      Success(HitsByOutputPosition(texts, metas, s, ks))
    else
      Failure(IndexError)
  }

  function RetrieveSpec(st: Store, s: Search): Result<seq<Hit>, Exc>
    requires Paired(s)
  {
    if !st.searchReady then Failure(NotInitialized) else RetrieveHits(st.texts, st.metas, s)
  }

  /** One more kept rank adds its hit at the next output position. */
  lemma HitsByOutputPositionSnoc(texts: seq<string>, metas: seq<Metadata>, s: Search, ks: seq<nat>, r: nat)
    requires |ks| < |s.D|
    requires forall j :: 0 <= j < |ks| ==> ks[j] < |s.I| && Fetchable(texts, metas, s.I[ks[j]])
    requires r < |s.I| && Fetchable(texts, metas, s.I[r])
    ensures HitsByOutputPosition(texts, metas, s, ks + [r])
      == HitsByOutputPosition(texts, metas, s, ks) + [Hit(PassageAt(texts, metas, s.I[r]), s.D[|ks|])]
  {
  }

  /** `retrieve(query, k)`, with `s` the search for the query. */
  method Retrieve(g: Globals, s: Search) returns (r: Result<seq<Hit>, Exc>)
    requires g.Valid() && Paired(s)
    ensures r == RetrieveSpec(g.Snapshot(), s)
  {
    if !g.embedder || !g.index {
      return Failure(NotInitialized);
    }
    var texts, metas := g.texts.value, g.metadatas.value;
    var results: seq<Hit> := [];
    ghost var ks: seq<nat> := [];
    var pos := 0;
    while pos < |s.I|
      invariant 0 <= pos <= |s.I|
      invariant ks == KeptRanks(s.I[..pos], |texts|)
      invariant |ks| <= pos && forall j :: 0 <= j < |ks| ==> ks[j] < pos
      invariant forall j :: 0 <= j < |ks| ==> Fetchable(texts, metas, s.I[ks[j]])
      invariant results == HitsByOutputPosition(texts, metas, s, ks)
    {
      var idx := s.I[pos];
      KeptRanksSnoc(s.I, |texts|, pos);
      if idx < |texts| {
        var text := PyIndex(texts, idx);
        if text.Failure? {
          RankKept(s.I, |texts|, pos);
          return Failure(text.error);
        }
        var meta := PyIndex(metas, idx);
        if meta.Failure? {
          RankKept(s.I, |texts|, pos);
          return Failure(meta.error);
        }
        HitsByOutputPositionSnoc(texts, metas, s, ks, pos);
        results := results + [Hit(Passage(text.value, meta.value), s.D[|results|])];
        ks := ks + [pos];
      }
      pos := pos + 1;
    }
    assert s.I[..pos] == s.I;
    return Success(results);
  }

  /** The hits are the chunks at the kept ranks in search order, at most one
      per search position; their distances are `D[0][:len(hits)]`, and a
      hit's distance belongs to its own search rank exactly when no earlier
      rank was skipped: otherwise it is that of a rank the number of skipped
      ranks earlier. */
  lemma RetrieveDistanceDrift(texts: seq<string>, metas: seq<Metadata>, s: Search, j: nat)
    requires Paired(s) && RetrieveHits(texts, metas, s).Success?
    requires j < |RetrieveHits(texts, metas, s).value|
    ensures var hs := RetrieveHits(texts, metas, s).value; var r := KeptRanks(s.I, |texts|)[j];
      && |hs| <= |s.I|
      && s.I[r] < |texts| && hs[j].passage == PassageAt(texts, metas, s.I[r])
      && hs[j].distance == s.D[j]
      && r == j + Skipped(s.I[..r], |texts|)
      && (r == j <==> forall q :: 0 <= q < r ==> s.I[q] < |texts|)
  {
    var ks := KeptRanks(s.I, |texts|);
    var r := ks[j];
    assert s.I[r] < |texts| by {
      KeptRanksExact(s.I, |texts|);
    }
    assert r == j + Skipped(s.I[..r], |texts|) by {
      KeptRankOffset(s.I, |texts|, j);
    }
    assert (r == j <==> forall q :: 0 <= q < r ==> s.I[q] < |texts|) by {
      SkippedNone(s.I[..r], |texts|);
      assert forall q :: 0 <= q < r ==> s.I[..r][q] == s.I[q];
    }
  }

  /** The drift happens: when the first position is out of range, the chunk
      found at rank 1 is reported at rank 0's distance. */
  lemma RetrieveDistanceDriftExample(text: string, meta: Metadata)
    ensures var s := Search([0.5, 0.9], [7, 0]);
      RetrieveHits([text], [meta], s) == Success([Hit(Passage(text, meta), 0.5)])
  {
    var s := Search([0.5, 0.9], [7, 0]);
    KeptRanksSnoc(s.I, 1, 0);
    KeptRanksSnoc(s.I, 1, 1);
    assert s.I[..0] == [] && s.I[..2] == s.I;
    assert KeptRanks(s.I, 1) == [1];
    assert HitsByOutputPosition([text], [meta], s, [1]) == [Hit(Passage(text, meta), 0.5)];
  }

  // ---------------------------------------------------------------------
  // Answering: `answer_question`

  const PleaseEnter := "\U{26A0}\U{FE0F} Please enter a question about cotton pest and disease management."
  const NoInfo := "\U{26A0}\U{FE0F} No relevant information found in the knowledge base. Please try rephrasing your question."
  const MaxRetriesReached := "\U{274C} Maximum retry attempts reached. Please try again later."
  const ModelMissing := Exc("RuntimeError", "Gemini model not initialized")
  const AnswerTooShort := Exc("ValueError", "Generated answer too short or empty")

  /** The shortest answer accepted, after stripping. */
  const MinAnswerLength := 10

  /** The advice that closes the final error message. */
  const RetryAdvice := "\n\n" + "Please try again or contact support if the issue persists."

  /** The message returned when the last attempt fails. */
  function FinalError(e: Exc): string {
    "\U{274C} Error: " + e.typeName + " - " + e.message + RetryAdvice
  }

  /** The final failure message names the exception's type and text, in
      that order. */
  lemma FinalErrorNamesError(e: Exc)
    ensures OccursAt(FinalError(e), e.typeName, |"\U{274C} Error: "|)
    ensures Contains(FinalError(e), e.typeName) && Contains(FinalError(e), e.message)
  {
    OccursInFrame("\U{274C} Error: ", e.typeName, " - ", e.message, RetryAdvice);
  }

  const AppPersona := "You are a Cotton Pest and Disease Management expert assistant. "
  const AppInstruction := "Answer the following question using ONLY the provided context from the ICAR-CICR Advisory document.\n"

  /** Everything the app.py prompt puts before the context. */
  const AppPromptHead := AppPersona + AppInstruction + "\n" + Guidelines + "\n" + "Context:\n"

  /** The generation prompt of app.py: the instructions, the guidelines, then
      the context and the question, each after a blank line. */
  function Prompt(context: string, query: string): string {
    AppPromptHead + context + "\n\nQuestion: " + query + "\n\nAnswer:"
  }

  /** The prompt carries the context and then the question verbatim. */
  lemma PromptCarries(context: string, query: string)
    ensures OccursAt(Prompt(context, query), context, |AppPromptHead|)
    ensures OccursAt(Prompt(context, query), query, |AppPromptHead| + |context| + |"\n\nQuestion: "|)
  {
    OccursInFrame(AppPromptHead, context, "\n\nQuestion: ", query, "\n\nAnswer:");
  }

  /** 2 ** n. */
  function Pow2(n: nat): nat {
    if n == 0 then 1 else 2 * Pow2(n - 1)
  }

  /** What one attempt sees: the search for the query and the model's reply
      (consulted only if the attempt gets that far). */
  datatype Attempt = Attempt(search: Search, reply: GenOutcome)

  predicate AllPaired(attempts: seq<Attempt>) {
    forall i :: 0 <= i < |attempts| ==> Paired(attempts[i].search)
  }

  /** How one pass through the `try` block ends: a `return`, or an exception
      for the `except` clause. */
  datatype Step = Returned(answer: string, success: bool) | Thrown(error: Exc)

  /** A call of `model.generate_content` with the prompt
      `Prompt(context, query)`. */
  datatype Request = Request(context: string, query: string)

  /** One pass through the `try` block: how it ends and the requests it made
      to the model (none or one). */
  datatype Pass = Pass(step: Step, sent: seq<Request>)

  function TryOnce(st: Store, query: string, at: Attempt): Pass
    requires Paired(at.search)
  {
    match RetrieveSpec(st, at.search)
    case Failure(e) => Pass(Thrown(e), [])
    case Success(hits) =>
      if hits == [] then Pass(Returned(NoInfo, false), [])
      else
        var request := Request(Context(Passages(hits), "\n\n"), query);
        if !st.modelReady then Pass(Thrown(ModelMissing), [])
        else
          match at.reply
          case Raised(e) => Pass(Thrown(e), [request])
          case Text(t) =>
            if |Strip(Python, t)| < MinAnswerLength then Pass(Thrown(AnswerTooShort), [request])
            else Pass(Returned(t, true), [request])
  }

  /** The pass each attempt makes when it is reached. */
  function Passes(st: Store, query: string, attempts: seq<Attempt>): (ps: seq<Pass>)
    requires AllPaired(attempts)
    ensures |ps| == |attempts|
  {
    if attempts == [] then []
    else Passes(st, query, attempts[..|attempts| - 1]) + [TryOnce(st, query, attempts[|attempts| - 1])]
  }

  /** Attempt `t` makes the pass `TryOnce` gives for what it sees. */
  lemma {:induction false} PassesAt(st: Store, query: string, attempts: seq<Attempt>, t: nat)
    requires AllPaired(attempts) && t < |attempts|
    ensures Passes(st, query, attempts)[t] == TryOnce(st, query, attempts[t])
  {
    var pre := attempts[..|attempts| - 1];
    if t < |pre| {
      PassesAt(st, query, pre, t);
    }
  }

  /** The observable course of `answer_question`: the result, the delays
      passed to `time.sleep`, the requests made to the model and the number of
      attempts made. */
  datatype Run = Run(answer: string, success: bool, sleeps: seq<nat>, requests: seq<Request>, tries: nat)

  /** The `for attempt in range(max_retries)` loop from attempt `a` on, where
      attempt `t` makes the pass `ps[t]`. */
  function RetryFrom(ps: seq<Pass>, maxRetries: int, a: nat): Run
    requires maxRetries <= |ps|
    decreases maxRetries - a
  {
    if a >= maxRetries then Run(MaxRetriesReached, false, [], [], 0)
    else
      match ps[a].step
      case Returned(answer, ok) => Run(answer, ok, [], ps[a].sent, 1)
      case Thrown(e) =>
        if a < maxRetries - 1 then
          var rest := RetryFrom(ps, maxRetries, a + 1);
          Run(rest.answer, rest.success, [Pow2(a)] + rest.sleeps, ps[a].sent + rest.requests, 1 + rest.tries)
        else
          Run(FinalError(e), false, [], ps[a].sent, 1)
  }

  function AnswerSpec(st: Store, query: string, maxRetries: int, attempts: seq<Attempt>): Run
    requires maxRetries <= |attempts| && AllPaired(attempts)
  {
    if Strip(Python, query) == "" then Run(PleaseEnter, false, [], [], 0)
    else RetryFrom(Passes(st, query, attempts), maxRetries, 0)
  }

  /** The requests made by a sequence of passes, in order. */
  function SentRequests(ps: seq<Pass>): seq<Request> {
    if ps == [] then [] else ps[0].sent + SentRequests(ps[1..])
  }

  /** The retry loop from attempt `a` makes between 1 and the remaining
      number of attempts; every attempt but the last raised; the last
      attempt's `return` is the result, or, when that attempt raised too, it
      was attempt `max_retries - 1` and the result is the error message for
      its exception. */
  lemma {:induction false} RetryShape(ps: seq<Pass>, maxRetries: int, a: nat)
    requires maxRetries <= |ps| && a < maxRetries
    decreases maxRetries - a
    ensures var run := RetryFrom(ps, maxRetries, a);
      && 1 <= run.tries <= maxRetries - a
      && (forall t :: a <= t < a + run.tries - 1 ==> ps[t].step.Thrown?)
      && var last := ps[a + run.tries - 1].step;
         && (last.Returned? ==> run.answer == last.answer && run.success == last.success)
         && (last.Thrown? ==> a + run.tries == maxRetries && run.answer == FinalError(last.error) && !run.success)
  {
    if ps[a].step.Thrown? && a < maxRetries - 1 {
      RetryShape(ps, maxRetries, a + 1);
    }
  }

  /** The loop sleeps `2 ** t` after each failed attempt `t` except the last
      one it makes. */
  lemma {:induction false} RetrySleeps(ps: seq<Pass>, maxRetries: int, a: nat)
    requires maxRetries <= |ps|
    decreases maxRetries - a
    ensures var run := RetryFrom(ps, maxRetries, a);
      && |run.sleeps| == (if run.tries == 0 then 0 else run.tries - 1)
      && (forall i :: 0 <= i < |run.sleeps| ==> run.sleeps[i] == Pow2(a + i))
  {
    if a < maxRetries && ps[a].step.Thrown? && a < maxRetries - 1 {
      RetrySleeps(ps, maxRetries, a + 1);
    }
  }

  /** The requests the loop makes are those of the attempts it makes, in
      order. */
  lemma {:induction false} RetryRequests(ps: seq<Pass>, maxRetries: int, a: nat)
    requires maxRetries <= |ps| && a <= maxRetries
    decreases maxRetries - a
    ensures var run := RetryFrom(ps, maxRetries, a);
      a + run.tries <= maxRetries && run.requests == SentRequests(ps[a..a + run.tries])
  {
    var run := RetryFrom(ps, maxRetries, a);
    if a < maxRetries {
      assert ps[a..a + 1] == [ps[a]] && ps[a..a + 1][1..] == [];
      if ps[a].step.Thrown? && a < maxRetries - 1 {
        RetryRequests(ps, maxRetries, a + 1);
        var rest := RetryFrom(ps, maxRetries, a + 1);
        assert ps[a..a + run.tries][1..] == ps[a + 1..a + 1 + rest.tries];
      }
    } else {
      assert ps[a..a] == [];
    }
  }

  /** A pass that returns with success returned the model's reply, of at
      least ten characters after stripping; a pass whose retrieval is empty
      returns the no-information message without calling the model; a pass
      sends at most one prompt, and none unless the model is loaded. */
  lemma TryOnceOutcomes(st: Store, query: string, at: Attempt)
    requires Paired(at.search)
    ensures var p := TryOnce(st, query, at);
      && (p.step.Returned? && p.step.success ==> |Strip(Python, p.step.answer)| >= MinAnswerLength && at.reply == Text(p.step.answer))
      && (p.step.Returned? && !p.step.success ==> p.step.answer == NoInfo && p.sent == [])
      && (RetrieveSpec(st, at.search) == Success([]) ==> p == Pass(Returned(NoInfo, false), []))
      && |p.sent| <= 1 && (!st.modelReady ==> p.sent == [])
  {
  }

  /** `answer_question`: a blank query is refused before any retrieval; a
      non-positive `max_retries` gives the maximum-retries message; at most
      `max_retries` attempts are made; a successful answer is the reply of
      the last attempt and has at least ten characters after stripping. */
  lemma AnswerOutcomes(st: Store, query: string, maxRetries: int, attempts: seq<Attempt>)
    requires maxRetries <= |attempts| && AllPaired(attempts)
    ensures var run := AnswerSpec(st, query, maxRetries, attempts);
      && (Strip(Python, query) == "" ==> run == Run(PleaseEnter, false, [], [], 0))
      && (Strip(Python, query) != "" && maxRetries <= 0 ==> run == Run(MaxRetriesReached, false, [], [], 0))
      && (maxRetries > 0 ==> run.tries <= maxRetries)
      && (run.success ==> 1 <= run.tries <= |attempts| && attempts[run.tries - 1].reply == Text(run.answer)
                          && |Strip(Python, run.answer)| >= MinAnswerLength)
  {
    if Strip(Python, query) != "" && maxRetries > 0 {
      var ps := Passes(st, query, attempts);
      var run := RetryFrom(ps, maxRetries, 0);
      RetryShape(ps, maxRetries, 0);
      PassesAt(st, query, attempts, run.tries - 1);
      TryOnceOutcomes(st, query, attempts[run.tries - 1]);
    }
  }

  /** An empty retrieval on the first attempt ends the call at once with the
      no-information message, without generation and without sleeping. */
  lemma EmptyRetrievalEndsAnswer(st: Store, query: string, maxRetries: int, attempts: seq<Attempt>)
    requires maxRetries <= |attempts| && AllPaired(attempts)
    requires Strip(Python, query) != "" && maxRetries > 0 && RetrieveSpec(st, attempts[0].search) == Success([])
    ensures AnswerSpec(st, query, maxRetries, attempts) == Run(NoInfo, false, [], [], 1)
  {
    PassesAt(st, query, attempts, 0);
    TryOnceOutcomes(st, query, attempts[0]);
  }

  /** Two failed attempts and a good third reply: the third reply is the
      answer, after sleeping 1 and then 2 seconds. */
  lemma SucceedsOnThirdAttempt(ps: seq<Pass>, answer: string)
    requires |ps| == 3 && ps[0].step.Thrown? && ps[1].step.Thrown? && ps[2].step == Returned(answer, true)
    ensures var run := RetryFrom(ps, 3, 0);
      run.answer == answer && run.success && run.sleeps == [1, 2] && run.tries == 3
  {
    RetryShape(ps, 3, 0);
    RetrySleeps(ps, 3, 0);
    assert Pow2(1) == 2;
  }

  /** Three failed attempts: the result is the failure message for the third
      attempt's exception, after sleeping 1 and then 2 seconds. */
  lemma FailsAfterThreeAttempts(ps: seq<Pass>)
    requires |ps| == 3 && forall t :: 0 <= t < 3 ==> ps[t].step.Thrown?
    ensures var run := RetryFrom(ps, 3, 0);
      && run.answer == FinalError(ps[2].step.error)
      && !run.success && run.sleeps == [1, 2] && run.tries == 3
  {
    RetryShape(ps, 3, 0);
    RetrySleeps(ps, 3, 0);
    assert Pow2(1) == 2;
  }

  /** One pass through the `try` block, by attempt `t`; `sent` records the
      call of `generate_content`, if the pass gets that far. */
  method TryAttempt(g: Globals, query: string, attempts: seq<Attempt>, t: nat) returns (step: Step, ghost sent: seq<Request>)
    requires g.Valid() && AllPaired(attempts) && t < |attempts|
    ensures Pass(step, sent) == Passes(g.Snapshot(), query, attempts)[t]
  {
    var at := attempts[t];
    PassesAt(g.Snapshot(), query, attempts, t);
    var retrieved := Retrieve(g, at.search);
    if retrieved.Failure? {
      return Thrown(retrieved.error), [];
    }
    if retrieved.value == [] {
      return Returned(NoInfo, false), [];
    }
    var context := FormatContextWithCitations(Passages(retrieved.value), "\n\n");
    if !g.model {
      return Thrown(ModelMissing), [];
    }
    sent := [Request(context, query)];
    match at.reply
    case Raised(e) =>
      step := Thrown(e);
    case Text(answer) =>
      if |Strip(Python, answer)| < MinAnswerLength {
        step := Thrown(AnswerTooShort);
      } else {
        step := Returned(answer, true);
      }
  }

  /** The course of the whole loop when the attempts before `a` slept
      `sleeps` and made `requests` and the loop goes on as `rest`. */
  function After(sleeps: seq<nat>, requests: seq<Request>, a: nat, rest: Run): Run {
    Run(rest.answer, rest.success, sleeps + rest.sleeps, requests + rest.requests, a + rest.tries)
  }

  /** One turn of the loop: a failed attempt that is not the last adds its
      sleep and its requests and moves on; any other attempt ends the loop. */
  lemma RetryLoopStep(ps: seq<Pass>, maxRetries: int, a: nat, sleeps: seq<nat>, requests: seq<Request>)
    requires maxRetries <= |ps| && a < maxRetries
    ensures var here := After(sleeps, requests, a, RetryFrom(ps, maxRetries, a));
      if ps[a].step.Thrown? && a < maxRetries - 1 then
        here == After(sleeps + [Pow2(a)], requests + ps[a].sent, a + 1, RetryFrom(ps, maxRetries, a + 1))
      else
        here == Run(RetryFrom(ps, maxRetries, a).answer, RetryFrom(ps, maxRetries, a).success,
                    sleeps, requests + ps[a].sent, a + 1)
  {
    var rest := RetryFrom(ps, maxRetries, a + 1);
    if ps[a].step.Thrown? && a < maxRetries - 1 {
      assert sleeps + ([Pow2(a)] + rest.sleeps) == (sleeps + [Pow2(a)]) + rest.sleeps;
      assert requests + (ps[a].sent + rest.requests) == (requests + ps[a].sent) + rest.requests;
    } else {
      assert sleeps + [] == sleeps;
    }
  }

  /** `answer_question(query, max_retries)`, with `attempts[t]` what attempt
      `t` sees. The ghost outputs record the sleeps, the requests made to
      the model and the attempts made. */
  method AnswerQuestion(g: Globals, query: string, maxRetries: int, attempts: seq<Attempt>)
    returns (answer: string, success: bool, ghost sleeps: seq<nat>, ghost requests: seq<Request>, ghost tries: nat)
    requires g.Valid() && maxRetries <= |attempts| && AllPaired(attempts)
    ensures AnswerSpec(g.Snapshot(), query, maxRetries, attempts) == Run(answer, success, sleeps, requests, tries)
  {
    if Strip(Python, query) == "" {
      return PleaseEnter, false, [], [], 0;
    }
    ghost var ps := Passes(g.Snapshot(), query, attempts);
    sleeps, requests, tries := [], [], 0;
    assert After([], [], 0, RetryFrom(ps, maxRetries, 0)) == RetryFrom(ps, maxRetries, 0);
    var attempt := 0;
    while attempt < maxRetries
      invariant 0 <= attempt && tries == attempt
      invariant RetryFrom(ps, maxRetries, 0) == After(sleeps, requests, attempt, RetryFrom(ps, maxRetries, attempt))
    {
      var step, sent := TryAttempt(g, query, attempts, attempt);
      RetryLoopStep(ps, maxRetries, attempt, sleeps, requests);
      requests, tries := requests + sent, tries + 1;
      match step
      case Returned(a, ok) =>
        return a, ok, sleeps, requests, tries;
      case Thrown(e) =>
        if attempt < maxRetries - 1 {
          sleeps := sleeps + [Pow2(attempt)];
          attempt := attempt + 1;
        } else {
          return FinalError(e), false, sleeps, requests, tries;
        }
    }
    assert sleeps + [] == sleeps && requests + [] == requests;
    return MaxRetriesReached, false, sleeps, requests, tries;
  }
}
