/** The FastAPI back end (backend/main.py): start-up, retrieval that pairs
    each hit with its own search rank's distance, the single-shot answer
    pipeline with conversation history, the ordered error classifier, and
    the `/api/status` and `/api/chat` responses. The module globals are a
    `Globals` object. */
module Backend {
  import opened Wrappers
  import opened Strings
  import opened Pipeline
  import opened Credentials
  import opened Startup

  // ---------------------------------------------------------------------
  // Start-up: `initialize_system`

  /** What `get_status` reports. */
  datatype SystemStatus = SystemStatus(status: string, message: string, modelLoaded: bool,
                                       indexLoaded: bool, chunksCount: nat)

  /** `get_status()` on the globals `s`: healthy exactly when the model
      handle is loaded. */
  function GetStatus(s: GlobalState): SystemStatus {
    SystemStatus(if s.model then "healthy" else "unhealthy",
                 if s.model then "System operational" else "System not initialized",
                 s.model, s.index, if s.texts.Some? then |s.texts.value| else 0)
  }

  /** `get_status` is healthy exactly when the model is loaded, reports the
      index as loaded exactly when it is, and counts the loaded chunks. */
  lemma StatusReports(s: GlobalState)
    ensures var r := GetStatus(s);
      && (r.status == "healthy" <==> s.model)
      && (r.message == "System operational" <==> s.model)
      && r.modelLoaded == s.model && r.indexLoaded == s.index
      && (s.texts.None? ==> r.chunksCount == 0)
      && (s.texts.Some? ==> r.chunksCount == |s.texts.value|)
  {
  }

  const ChunksMissing := Exc("FileNotFoundError", "chunks.pkl not found")
  const IndexMissing := Exc("FileNotFoundError", "faiss_index.bin not found")

  /** `initialize_system`: checks the key, creates the model handle, checks
      the two files, then loads the corpus, the index and the embedder,
      assigning each global as soon as its step returns; any exception is
      printed and gives `False`, leaving the globals assigned before it. */
  method InitializeSystem(g: Globals, io: Inputs) returns (ok: bool)
    requires g.Valid()
    modifies g
    ensures g.Valid()
    ensures g.State() == Initialize(old(g.State()), io, ChunksMissing, IndexMissing).globals
    ensures ok <==> Initialize(old(g.State()), io, ChunksMissing, IndexMissing).error.None?
  {
    var key := CheckEnvKey(io.apiKey);
    if key.Failure? {
      return false;
    }
    g.model := true;
    if !io.chunksExist || !io.indexExists {
      return false;
    }
    if io.pickled.Failure? || io.pickled.value.texts.None? {
      return false;
    }
    g.texts := io.pickled.value.texts;
    if io.pickled.value.metadatas.None? {
      return false;
    }
    g.metadatas := io.pickled.value.metadatas;
    if io.readIndex.Fails? {
      return false;
    }
    g.index := true;
    if io.loadEmbedder.Fails? {
      return false;
    }
    g.embedder := true;
    return true;
  }

  /** Because the model handle is created before the files are checked, a
      good key makes the status healthy whatever happens next; a full
      start-up reports everything loaded with the chunk count. */
  lemma InitializeReports(s: GlobalState, io: Inputs)
    requires s.Valid()
    ensures var r := Initialize(s, io, ChunksMissing, IndexMissing);
      && (CheckEnvKey(io.apiKey).Success? ==> GetStatus(r.globals).status == "healthy")
      && (CheckEnvKey(io.apiKey).Failure? ==> GetStatus(r.globals) == GetStatus(s))
      && (r.error.None? ==>
            GetStatus(r.globals) == SystemStatus("healthy", "System operational", true, true,
                                                 |io.pickled.value.texts.value|))
  {
    InitializeOutcome(s, io, ChunksMissing, IndexMissing);
  }

  /** When only the embedder fails to load on a fresh start, `/api/status`
      reports a healthy system with its index and chunks loaded, yet
      `retrieve` raises "System not initialized" for every search. */
  lemma EmbedderFailureLooksLoaded(io: Inputs, texts: seq<string>, metas: seq<Metadata>, e: Exc, search: Search)
    requires CheckEnvKey(io.apiKey).Success? && io.chunksExist && io.indexExists
    requires io.pickled == Success(ChunkData(Some(texts), Some(metas)))
    requires io.readIndex == Done && io.loadEmbedder == Fails(e)
    requires Paired(search)
    ensures var r := Initialize(GlobalState(false, false, None, None, false), io, ChunksMissing, IndexMissing);
      && r.error == Some(e)
      && GetStatus(r.globals) == SystemStatus("healthy", "System operational", true, true, |texts|)
      && RetrieveSpec(r.globals.Snapshot(), search) == Failure(NotInitialized)
  {
    EmbedderFailureKeepsIndex(GlobalState(false, false, None, None, false), io, ChunksMissing, IndexMissing,
                              texts, metas, e);
  }

  // ---------------------------------------------------------------------
  // Retrieval: `retrieve`

  const NotInitialized := Exc("RuntimeError", "System not initialized")

  /** The hits for the kept ranks `ks`: each carries the chunk at its rank's
      index and the distance `D[0][idx_pos]` of that same rank. */
  function HitsByRank(texts: seq<string>, metas: seq<Metadata>, s: Search, ks: seq<nat>): (hs: seq<Hit>)
    requires Paired(s)
    requires forall j :: 0 <= j < |ks| ==> ks[j] < |s.I| && Fetchable(texts, metas, s.I[ks[j]])
    ensures |hs| == |ks|
  {
    seq(|ks|, j requires 0 <= j < |ks| => Hit(PassageAt(texts, metas, s.I[ks[j]]), s.D[ks[j]]))
  }

  /** What the loop over `I[0]` returns on a loaded system: IndexError if
      some index that passes `idx < len(texts)` is below `-len(texts)` (or
      outside `metadatas`), else the hits of the kept ranks in search order. */
  function RetrieveHits(texts: seq<string>, metas: seq<Metadata>, s: Search): Result<seq<Hit>, Exc>
    requires Paired(s)
  {
    var ks := KeptRanks(s.I, |texts|);
    if forall j :: 0 <= j < |ks| ==> Fetchable(texts, metas, s.I[ks[j]]) then
      Success(HitsByRank(texts, metas, s, ks))
    else
      Failure(IndexError)
  }

  function RetrieveSpec(st: Store, s: Search): Result<seq<Hit>, Exc>
    requires Paired(s)
  {
    if !st.searchReady then Failure(NotInitialized) else RetrieveHits(st.texts, st.metas, s)
  }

  /** One more kept rank adds its own hit at the end. */
  lemma HitsByRankSnoc(texts: seq<string>, metas: seq<Metadata>, s: Search, ks: seq<nat>, r: nat)
    requires Paired(s)
    requires forall j :: 0 <= j < |ks| ==> ks[j] < |s.I| && Fetchable(texts, metas, s.I[ks[j]])
    requires r < |s.I| && Fetchable(texts, metas, s.I[r])
    ensures HitsByRank(texts, metas, s, ks + [r])
      == HitsByRank(texts, metas, s, ks) + [Hit(PassageAt(texts, metas, s.I[r]), s.D[r])]
  {
  }

  /** `retrieve(query, k)`, with `s` the search for the query; an exception
      is printed and raised again. */
  method Retrieve(g: Globals, s: Search) returns (r: Result<seq<Hit>, Exc>)
    requires g.Valid() && Paired(s)
    ensures r == RetrieveSpec(g.Snapshot(), s)
  {
    if !g.embedder || !g.index {
      return Failure(NotInitialized);
    }
    var texts, metas := g.texts.value, g.metadatas.value;
    var results: seq<Hit> := [];
    ghost var ks: seq<nat> := [];
    var idxPos := 0;
    while idxPos < |s.I|
      invariant 0 <= idxPos <= |s.I|
      invariant ks == KeptRanks(s.I[..idxPos], |texts|)
      invariant forall j :: 0 <= j < |ks| ==> ks[j] < idxPos
      invariant forall j :: 0 <= j < |ks| ==> Fetchable(texts, metas, s.I[ks[j]])
      invariant results == HitsByRank(texts, metas, s, ks)
    {
      var idx := s.I[idxPos];
      KeptRanksSnoc(s.I, |texts|, idxPos);
      if idx < |texts| {
        var text := PyIndex(texts, idx);
        if text.Failure? {
          RankKept(s.I, |texts|, idxPos);
          return Failure(text.error);
        }
        var meta := PyIndex(metas, idx);
        if meta.Failure? {
          RankKept(s.I, |texts|, idxPos);
          return Failure(meta.error);
        }
        HitsByRankSnoc(texts, metas, s, ks, idxPos);
        results := results + [Hit(Passage(text.value, meta.value), s.D[idxPos])];
        ks := ks + [idxPos];
      }
      idxPos := idxPos + 1;
    }
    assert s.I[..idxPos] == s.I;
    return Success(results);
  }

  /** Each hit comes from a search rank whose index passes the filter and
      carries that chunk and that rank's own distance; the ranks increase
      strictly, and every rank that passes the filter contributes a hit. */
  lemma RetrievePairsRanks(texts: seq<string>, metas: seq<Metadata>, s: Search)
    requires Paired(s) && RetrieveHits(texts, metas, s).Success?
    ensures var hs := RetrieveHits(texts, metas, s).value; var ks := KeptRanks(s.I, |texts|);
      && |hs| == |ks| <= |s.I|
      && (forall j :: 0 <= j < |hs| ==>
            (s.I[ks[j]] < |texts| && hs[j].passage == PassageAt(texts, metas, s.I[ks[j]])
             && hs[j].distance == s.D[ks[j]]))
      && (forall j, j' :: 0 <= j < j' < |ks| ==> ks[j] < ks[j'])
      && (forall r :: 0 <= r < |s.I| && s.I[r] < |texts| ==> r in ks)
  {
    KeptRanksExact(s.I, |texts|);
  }

  /** When FAISS returns the distances in non-decreasing order, so are the
      distances of the hits. */
  lemma RetrieveKeepsDistanceOrder(texts: seq<string>, metas: seq<Metadata>, s: Search)
    requires Paired(s) && RetrieveHits(texts, metas, s).Success?
    requires forall a, b :: 0 <= a < b < |s.D| ==> s.D[a] <= s.D[b]
    ensures var hs := RetrieveHits(texts, metas, s).value;
      forall j, j' :: 0 <= j < j' < |hs| ==> hs[j].distance <= hs[j'].distance
  {
    var hs := RetrieveHits(texts, metas, s).value;
    var ks := KeptRanks(s.I, |texts|);
    KeptRanksExact(s.I, |texts|);
    forall j, j' | 0 <= j < j' < |hs|
      ensures hs[j].distance <= hs[j'].distance
    {
      assert ks[j] < ks[j'];
    }
  }

  // ---------------------------------------------------------------------
  // Conversation history

  /** The value under one key of a `context` entry: absent, a string, or
      any other JSON value (`null`, a number, a boolean, a list, an object),
      given by its Python type name and by what `str` shows for it. */
  datatype Field = Missing | Str(s: string) | Other(typeName: string, shown: string)

  /** JSON `null`, which arrives as Python's `None`. */
  const Null := Other("NoneType", "None")

  /** One entry of the request's `context`: its `role` and `content` keys. */
  datatype Turn = Turn(role: Field, content: Field)

  /** What an f-string shows for a field, `default` standing in when the key
      is absent. */
  function Shown(f: Field, default: string): string {
    match f
    case Missing => default
    case Str(s) => s
    case Other(_, shown) => shown
  }

  /** Only a string role (or the default) has an `upper` method. */
  predicate HasTextRole(t: Turn) {
    !t.role.Other?
  }

  predicate TextRoles(ts: seq<Turn>) {
    forall i :: 0 <= i < |ts| ==> HasTextRole(ts[i])
  }

  /** `f"{role.upper()}: {content}\n"`, the role defaulting to `user` and the
      content to the empty string. */
  function LineOf(t: Turn): string
    requires HasTextRole(t)
  {
    Upper(Shown(t.role, "user")) + ": " + Shown(t.content, "") + "\n"
  }

  /** The `AttributeError` that `.upper()` raises on a value of another
      type. */
  function UpperError(typeName: string): Exc {
    Exc("AttributeError", "'" + typeName + "' object has no attribute 'upper'")
  }

  /** The lines of the turns, in order, or the error of the first turn whose
      role is not a string. */
  function TurnLines(ts: seq<Turn>): Result<string, Exc> {
    if |ts| == 0 then Success("")
    else
      match TurnLines(ts[..|ts| - 1])
      case Failure(e) => Failure(e)
      case Success(p) =>
        var t := ts[|ts| - 1];
        if t.role.Other? then Failure(UpperError(t.role.typeName)) else Success(p + LineOf(t))
  }

  /** The lines come out exactly when every role is text. */
  lemma {:induction false} TurnLinesSucceed(ts: seq<Turn>)
    ensures TurnLines(ts).Success? <==> TextRoles(ts)
  {
    if |ts| > 0 {
      var p := ts[..|ts| - 1];
      TurnLinesSucceed(p);
      if TextRoles(ts) {
        assert TextRoles(p) by {
          forall i | 0 <= i < |p| ensures HasTextRole(p[i]) {
            assert p[i] == ts[i];
          }
        }
      } else if TextRoles(p) {
        assert !HasTextRole(ts[|ts| - 1]) by {
          forall i | 0 <= i < |ts| - 1 ensures HasTextRole(ts[i]) {
            assert p[i] == ts[i];
          }
        }
      }
    }
  }

  /** The first turn whose role is not text decides the error. */
  lemma {:induction false} TurnLinesFailAtFirst(ts: seq<Turn>, i: nat)
    requires i < |ts| && !HasTextRole(ts[i]) && TextRoles(ts[..i])
    ensures TurnLines(ts) == Failure(UpperError(ts[i].role.typeName))
  {
    var p := ts[..|ts| - 1];
    if i == |ts| - 1 {
      TurnLinesSucceed(p);
    } else {
      assert p[..i] == ts[..i];
      TurnLinesFailAtFirst(p, i);
    }
  }

  const HistoryHeading := "\n\nPrevious conversation:\n"

  /** The history block: nothing for a missing or empty context, else the
      heading and the lines of the last three turns, or the error raised
      while building them. */
  function History(context: Option<seq<Turn>>): Result<string, Exc> {
    if context.None? || |context.value| == 0 then Success("")
    else
      match TurnLines(Last(context.value, 3))
      case Failure(e) => Failure(e)
      case Success(lines) => Success(HistoryHeading + lines)
  }

  /** The lines of one, two or three turns with text roles. */
  lemma TurnLinesUpToThree(l: seq<Turn>)
    requires 1 <= |l| <= 3 && TextRoles(l)
    ensures |l| == 1 ==> TurnLines(l) == Success(LineOf(l[0]))
    ensures |l| == 2 ==> TurnLines(l) == Success(LineOf(l[0]) + LineOf(l[1]))
    ensures |l| == 3 ==> TurnLines(l) == Success(LineOf(l[0]) + LineOf(l[1]) + LineOf(l[2]))
  {
    var p := l[..|l| - 1];
    assert TextRoles(p) by {
      forall i | 0 <= i < |p| ensures HasTextRole(p[i]) {
        assert p[i] == l[i];
      }
    }
    TurnLinesSucceed(p);
    assert TurnLines(l) == Success(TurnLines(p).value + LineOf(l[|l| - 1]));
    if |l| >= 2 {
      var q := p[..|p| - 1];
      TurnLinesSucceed(q);
      assert TurnLines(p) == Success(TurnLines(q).value + LineOf(l[|l| - 2]));
      if |l| == 3 {
        TurnLinesSucceed(q[..0]);
        assert TurnLines(q) == Success(TurnLines(q[..0]).value + LineOf(l[0]));
        assert TurnLines(q[..0]) == Success("");
      } else {
        assert TurnLines(q) == Success("");
      }
    } else {
      assert TurnLines(p) == Success("");
      assert "" + LineOf(l[0]) == LineOf(l[0]);
    }
  }

  /** The history block is empty exactly when there is no context; it is
      built exactly when the last three roles are text, and then it is the
      heading followed by one line for each of the last `min(3, n)` turns,
      oldest first. */
  lemma HistoryShape(context: Option<seq<Turn>>)
    ensures History(context) == Success("") <==> context.None? || context.value == []
    ensures context.Some? ==> (History(context).Success? <==> TextRoles(Last(context.value, 3)))
    ensures context.Some? && |context.value| == 1 && HasTextRole(context.value[0]) ==>
      History(context) == Success(HistoryHeading + LineOf(context.value[0]))
    ensures context.Some? && |context.value| == 2 && TextRoles(context.value) ==>
      History(context) == Success(HistoryHeading + (LineOf(context.value[0]) + LineOf(context.value[1])))
    ensures context.Some? && |context.value| >= 3 && TextRoles(Last(context.value, 3)) ==> var c := context.value; var n := |c|;
      History(context) == Success(HistoryHeading + (LineOf(c[n - 3]) + LineOf(c[n - 2]) + LineOf(c[n - 1])))
  {
    if context.Some? && |context.value| > 0 {
      var c := context.value;
      var n := |c|;
      var l := Last(c, 3);
      HistoryOfContext(c);
      if TextRoles(l) {
        TurnLinesUpToThree(l);
        if n == 1 {
          assert l[0] == c[0];
        } else if n == 2 {
          assert l[0] == c[0] && l[1] == c[1];
        } else {
          assert l[0] == c[n - 3] && l[1] == c[n - 2] && l[2] == c[n - 1];
        }
      }
    }
  }

  /** A non-empty context gives the heading and the lines of its last three
      turns, or their error. */
  lemma HistoryOfContext(c: seq<Turn>)
    requires |c| > 0
    ensures History(Some(c)).Success? <==> TextRoles(Last(c, 3))
    ensures TextRoles(Last(c, 3)) ==> History(Some(c)) == Success(HistoryHeading + TurnLines(Last(c, 3)).value)
    ensures History(Some(c)) != Success("")
  {
    TurnLinesSucceed(Last(c, 3));
    assert |HistoryHeading| > 0;
  }

  /** Among the last three turns, the first whose role is not a string makes
      building the history raise its `AttributeError`. */
  lemma HistoryFailsAtFirstBadRole(c: seq<Turn>, i: nat)
    requires |c| - 3 <= i < |c| && !HasTextRole(c[i])
    requires forall j :: |c| - 3 <= j < i && 0 <= j ==> HasTextRole(c[j])
    ensures History(Some(c)) == Failure(UpperError(c[i].role.typeName))
  {
    var l := Last(c, 3);
    var d := |c| - |l|;
    var k := i - d;
    assert TurnLines(l) == Failure(UpperError(c[i].role.typeName)) by {
      assert l[k] == c[i];
      var prefix := l[..k];
      forall j | 0 <= j < k ensures HasTextRole(prefix[j]) {
        assert prefix[j] == c[d + j];
      }
      TurnLinesFailAtFirst(l, k);
    }
  }

  /** A `null` role among the last three turns raises, whatever its content,
      whatever text roles come before it among those three, and whatever
      the turns before those three and after it hold. */
  lemma NullRoleFails(older: seq<Turn>, before: seq<Turn>, content: Field, after: seq<Turn>)
    requires |before| + |after| <= 2 && (|before| + |after| == 2 || older == [])
    requires TextRoles(before)
    ensures History(Some(older + before + [Turn(Null, content)] + after)) == Failure(UpperError("NoneType"))
  {
    var c := older + before + [Turn(Null, content)] + after;
    var i := |older| + |before|;
    assert c[i] == Turn(Null, content);
    forall j | |c| - 3 <= j < i && 0 <= j ensures HasTextRole(c[j]) {
      assert c[j] == before[j - |older|];
    }
    HistoryFailsAtFirstBadRole(c, i);
  }

  /** A `null` content is shown as `None`. */
  lemma NullContentShowsNone()
    ensures LineOf(Turn(Str("user"), Null)) == "USER: None\n"
  {
    assert Upper("user") == "USER";
  }

  /** A turn without a role is shown as the user's. */
  lemma TurnLineDefaultsToUser(content: Field)
    ensures StartsWith(LineOf(Turn(Missing, content)), "USER: ")
  {
    assert Upper("user") == "USER";
  }

  /** The `conversation_history +=` loop, which stops at the first role
      that has no `upper`. */
  method BuildHistory(context: Option<seq<Turn>>) returns (history: Result<string, Exc>)
    ensures history == History(context)
  {
    if context.None? || |context.value| == 0 {
      return Success("");
    }
    var text := HistoryHeading;
    var recent := Last(context.value, 3);
    var i := 0;
    while i < |recent|
      invariant 0 <= i <= |recent|
      invariant TurnLines(recent[..i]).Success?
      invariant text == HistoryHeading + TurnLines(recent[..i]).value
    {
      var t := recent[i];
      if t.role.Other? {
        TurnLinesSucceed(recent[..i]);
        TurnLinesFailAtFirst(recent, i);
        return Failure(UpperError(t.role.typeName));
      }
      var before := TurnLines(recent[..i]).value;
      assert TurnLines(recent[..i + 1]) == Success(before + LineOf(t)) by {
        assert recent[..i + 1][..i] == recent[..i];
      }
      assert (HistoryHeading + before) + LineOf(t) == HistoryHeading + (before + LineOf(t));
      text := text + LineOf(t);
      i := i + 1;
    }
    assert recent[..i] == recent;
    return Success(text);
  }

  // ---------------------------------------------------------------------
  // The prompt

  const BackendPersona := "You are a Cotton Pest and Disease Management expert assistant. "
  const BackendInstruction := "Answer the following question using the provided context from the ICAR-CICR Advisory document.\n"
  const HistoryGuideline := "- Consider the conversation history to provide contextually relevant answers\n"

  /** What precedes the history, and what lies between it and the context. */
  const PromptHead := BackendPersona + BackendInstruction
  const PromptMiddle := "\n" + Guidelines + HistoryGuideline + "\n" + "Context:\n"
  const QuestionTag := "\n\nQuestion: "
  const AnswerTag := "\n\nAnswer:"

  /** A call of `model.generate_content` with the prompt
      `Prompt(history, context, query)`. */
  datatype Request = Request(history: string, context: string, query: string)

  function Prompt(r: Request): string {
    PromptHead + r.history + PromptMiddle + r.context + QuestionTag + r.query + AnswerTag
  }

  /** The prompt carries the history after the instruction, and the context
      and the question after the guidelines. */
  lemma PromptCarries(r: Request)
    ensures OccursAt(Prompt(r), r.history, |PromptHead|)
    ensures OccursAt(Prompt(r), r.context, |PromptHead| + |r.history| + |PromptMiddle|)
    ensures OccursAt(Prompt(r), r.query, |PromptHead| + |r.history| + |PromptMiddle| + |r.context| + |QuestionTag|)
  {
    OccursInFrame7(PromptHead, r.history, PromptMiddle, r.context, QuestionTag, r.query, AnswerTag);
  }

  // ---------------------------------------------------------------------
  // Sources

  /** One entry of the response's `sources`. */
  datatype Source = Source(page: string, text: string)

  /** `{'page': metadata.get('page', '?'), 'text': text[:200] + '...'}`: the
      page is read from the `page` key only. */
  function SourceOf(p: Passage): Source {
    Source(p.metadata.page.GetOr("?"), Take(p.text, 200) + "...")
  }

  /** The sources of the first three hits, in order. */
  function Sources(hits: seq<Hit>): (ss: seq<Source>)
    ensures |ss| == if |hits| < 3 then |hits| else 3
  {
    seq(if |hits| < 3 then |hits| else 3, i requires 0 <= i < |hits| && i < 3 => SourceOf(hits[i].passage))
  }

  /** The sources are the first `min(3, n)` hits in order; each shows the
      `page` key (or `?`) and at most the first 200 characters of the text,
      marked as cut with `...`. */
  lemma SourcesShape(hits: seq<Hit>)
    ensures var ss := Sources(hits);
      && (|hits| > 0 <==> |ss| > 0)
      && forall i :: 0 <= i < |ss| ==>
        var p := hits[i].passage;
        && ss[i].page == (if p.metadata.page.Some? then p.metadata.page.value else "?")
        && |ss[i].text| == (if |p.text| < 200 then |p.text| else 200) + 3
        && ss[i].text == p.text[..|ss[i].text| - 3] + "..."
  {
    var ss := Sources(hits);
    forall i | 0 <= i < |ss|
      ensures var t := hits[i].passage.text;
        && |ss[i].text| == (if |t| < 200 then |t| else 200) + 3
        && ss[i].text == t[..|ss[i].text| - 3] + "..."
    {
      var t := hits[i].passage.text;
      assert ss[i].text == Take(t, 200) + "...";
    }
  }

  /** Unlike the citation context, the sources ignore `page_label`. */
  lemma SourcePageIgnoresLabel(text: string)
    ensures var p := Passage(text, Metadata(Some("iv"), Some("4")));
      SourceOf(p).page == "4" && PageOf(p.metadata) == "iv"
  {
  }

  // ---------------------------------------------------------------------
  // Error classification

  const Unavailable := "\U{E2}\U{161}\U{A0}\U{EF}\U{B8} The AI service is temporarily unavailable. Our team has been notified. Please try again in a few moments."
  const Busy := "\U{E2}\U{B3} Service is currently busy. Please wait a moment and try again."
  const TimedOut := "\U{E2}\U{B1}\U{EF}\U{B8} Request timed out. Please try a shorter question or try again."
  const ConfigIssue := "\U{F0}\U{178}\U{201D}\U{2018} Service configuration issue. Please contact support."
  const Generic := "\U{E2}\U{152} Unable to process your request right now. Please try rephrasing your question."

  /** The user message for an exception whose `str` is `errorStr`: the first
      rule that matches wins; every rule but `404` looks at the lower-cased
      text. */
  function UserMessage(errorStr: string): string {
    var lowered := Lower(errorStr);
    if Contains(errorStr, "404") || Contains(lowered, "not found") then Unavailable
    else if Contains(lowered, "quota") || Contains(lowered, "rate limit") then Busy
    else if Contains(lowered, "timeout") then TimedOut
    else if Contains(lowered, "api key") then ConfigIssue
    else Generic
  }

  predicate IsUserMessage(m: string) {
    m == Unavailable || m == Busy || m == TimedOut || m == ConfigIssue || m == Generic
  }

  /** Each message is given exactly when its rule is the first that matches,
      so the message never depends on the error text beyond these tests. */
  lemma UserMessageFirstMatch(errorStr: string)
    ensures var m := UserMessage(errorStr); var l := Lower(errorStr);
      && IsUserMessage(m)
      && (m == Unavailable <==> Contains(errorStr, "404") || Contains(l, "not found"))
      && (m == Busy <==> !(Contains(errorStr, "404") || Contains(l, "not found"))
                         && (Contains(l, "quota") || Contains(l, "rate limit")))
      && (m == TimedOut <==> !(Contains(errorStr, "404") || Contains(l, "not found"))
                             && !(Contains(l, "quota") || Contains(l, "rate limit")) && Contains(l, "timeout"))
      && (m == ConfigIssue <==> !(Contains(errorStr, "404") || Contains(l, "not found"))
                                && !(Contains(l, "quota") || Contains(l, "rate limit"))
                                && !Contains(l, "timeout") && Contains(l, "api key"))
  {
    assert |Unavailable| != |Busy| && |Unavailable| != |TimedOut| && |Unavailable| != |ConfigIssue|;
    assert |Unavailable| != |Generic| && |Busy| != |TimedOut| && |Busy| != |ConfigIssue| && |Busy| != |Generic|;
    assert |TimedOut| != |ConfigIssue| && |TimedOut| != |Generic| && |ConfigIssue| != |Generic|;
  }

  /** Apart from the `404` test, letter case does not matter. */
  lemma UserMessageIgnoresCase(e1: string, e2: string)
    requires !Contains(e1, "404") && !Contains(e2, "404") && Lower(e1) == Lower(e2)
    ensures UserMessage(e1) == UserMessage(e2)
  {
  }

  /** The first rule wins: an error with `404` in it is reported as the
      service being unavailable even when it also mentions the API key. */
  lemma UserMessage404BeforeApiKey(rest: string)
    ensures UserMessage("404 " + rest) == Unavailable
  {
    assert OccursAt("404 " + rest, "404", 0);
  }

  // ---------------------------------------------------------------------
  // Answering: `answer_question`

  const PleaseEnter := "\U{E2}\U{161}\U{A0}\U{EF}\U{B8} Please enter a question."
  const NoInfo := "\U{E2}\U{161}\U{A0}\U{EF}\U{B8} No relevant information found."
  const ModelMissing := Exc("RuntimeError", "Model not initialized")
  const AnswerTooShort := Exc("ValueError", "Generated answer too short")

  /** The shortest answer accepted, after stripping. */
  const MinAnswerLength := 10

  /** `(answer, success, sources)` and the requests made to the model. */
  datatype Outcome = Outcome(answer: string, success: bool, sources: seq<Source>, sent: seq<Request>)

  /** What the `except` clause returns for an exception. */
  function Failed(e: Exc, sent: seq<Request>): Outcome {
    Outcome(UserMessage(e.message), false, [], sent)
  }

  /** `answer_question(query, conversation)` on the globals `st`, with `s`
      the search for the query and `reply` what the model returns. */
  function AnswerSpec(st: Store, query: string, conversation: Option<seq<Turn>>, s: Search, reply: GenOutcome): Outcome
    requires Paired(s)
  {
    if Strip(Python, query) == "" then Outcome(PleaseEnter, false, [], [])
    else
      match RetrieveSpec(st, s)
      case Failure(e) => Failed(e, [])
      case Success(hits) =>
        if hits == [] then Outcome(NoInfo, false, [], [])
        else
          match History(conversation)
          case Failure(e) => Failed(e, [])
          case Success(history) =>
            if !st.modelReady then Failed(ModelMissing, [])
            else
              var request := Request(history, Context(Passages(hits), "\n\n"), query);
              match reply
              case Raised(e) => Failed(e, [request])
              case Text(t) =>
                if |Strip(Python, t)| < MinAnswerLength then Failed(AnswerTooShort, [request])
                else Outcome(t, true, Sources(hits), [request])
  }

  /** A blank query is refused and an empty retrieval ends the call, both
      without generation; success means the model's reply, of at least ten
      characters after stripping, with the sources of the first hits; a
      failure carries no sources and one of the fixed messages, never the
      error text; the model is asked at most once, with the history, the
      citation context and the query. */
  lemma AnswerOutcomes(st: Store, query: string, conversation: Option<seq<Turn>>, s: Search, reply: GenOutcome)
    requires Paired(s)
    ensures var o := AnswerSpec(st, query, conversation, s, reply);
      && (Strip(Python, query) == "" ==> o == Outcome(PleaseEnter, false, [], []))
      && (Strip(Python, query) != "" && RetrieveSpec(st, s) == Success([]) ==> o == Outcome(NoInfo, false, [], []))
      && ((Strip(Python, query) != "" && RetrieveSpec(st, s).Success? && RetrieveSpec(st, s).value != []
           && History(conversation).Failure?) ==> o == Failed(History(conversation).error, []))
      && (o.success ==> RetrieveSpec(st, s).Success? && reply == Text(o.answer)
                        && |Strip(Python, o.answer)| >= MinAnswerLength
                        && o.sources == Sources(RetrieveSpec(st, s).value) && o.sources != [])
      && (!o.success ==> o.sources == [] && (o.answer == PleaseEnter || o.answer == NoInfo || IsUserMessage(o.answer)))
      && |o.sent| <= 1
      && (o.sent != [] ==>
            (st.modelReady && RetrieveSpec(st, s).Success? && History(conversation).Success?
             && o.sent[0] == Request(History(conversation).value, Context(Passages(RetrieveSpec(st, s).value), "\n\n"), query)))
  {
    var o := AnswerSpec(st, query, conversation, s, reply);
    if !o.success && o.answer != PleaseEnter && o.answer != NoInfo {
      var r := RetrieveSpec(st, s);
      if r.Failure? {
        UserMessageFirstMatch(r.error.message);
      } else if History(conversation).Failure? {
        UserMessageFirstMatch(History(conversation).error.message);
      } else if !st.modelReady {
        UserMessageFirstMatch(ModelMissing.message);
      } else if reply.Raised? {
        UserMessageFirstMatch(reply.error.message);
      } else {
        UserMessageFirstMatch(AnswerTooShort.message);
      }
    }
    if o.success {
      SourcesShape(RetrieveSpec(st, s).value);
    }
  }

  /** `answer_question`, with `s` the search for the query and `reply` what
      the model returns; the ghost output records the request made to the
      model. */
  method AnswerQuestion(g: Globals, query: string, conversation: Option<seq<Turn>>, s: Search, reply: GenOutcome)
    returns (answer: string, success: bool, sources: seq<Source>, ghost sent: seq<Request>)
    requires g.Valid() && Paired(s)
    ensures Outcome(answer, success, sources, sent) == AnswerSpec(g.Snapshot(), query, conversation, s, reply)
  {
    if Strip(Python, query) == "" {
      return PleaseEnter, false, [], [];
    }
    var retrieved := Retrieve(g, s);
    if retrieved.Failure? {
      return UserMessage(retrieved.error.message), false, [], [];
    }
    if retrieved.value == [] {
      return NoInfo, false, [], [];
    }
    var context := FormatContextWithCitations(Passages(retrieved.value), "\n\n");
    var history := BuildHistory(conversation);
    if history.Failure? {
      return UserMessage(history.error.message), false, [], [];
    }
    if !g.model {
      return UserMessage(ModelMissing.message), false, [], [];
    }
    sent := [Request(history.value, context, query)];
    match reply
    case Raised(e) =>
      return UserMessage(e.message), false, [], sent;
    case Text(t) =>
      if |Strip(Python, t)| < MinAnswerLength {
        return UserMessage(AnswerTooShort.message), false, [], sent;
      }
      return t, true, Sources(retrieved.value), sent;
  }

  // ---------------------------------------------------------------------
  // The `/api/chat` endpoint

  /** A `ChatResponse`, or the `HTTPException` the endpoint raises. */
  datatype ChatResult = ChatResponse(answer: string, success: bool, sources: Option<seq<Source>>)
                      | HttpError(statusCode: nat, detail: string)

  /** The 503 raised for a missing model is caught by the endpoint's own
      `except Exception` and raised again as a 500 whose detail is
      `"Internal server error: " + str(e)`, with `str` of an HTTP exception
      being `"<status>: <detail>"`. */
  const NotReadyDetail := "Internal server error: " + "503: " + "System not initialized. Please check server logs."

  function ChatSpec(st: Store, message: string, conversation: Option<seq<Turn>>, s: Search, reply: GenOutcome): ChatResult
    requires Paired(s)
  {
    if !st.modelReady then HttpError(500, NotReadyDetail)
    else
      var o := AnswerSpec(st, message, conversation, s, reply);
      ChatResponse(o.answer, o.success, if o.sources == [] then None else Some(o.sources))
  }

  /** Without a model the endpoint answers 500; otherwise it always answers,
      and it lists sources exactly when the answer succeeded. */
  lemma ChatOutcomes(st: Store, message: string, conversation: Option<seq<Turn>>, s: Search, reply: GenOutcome)
    requires Paired(s)
    ensures var r := ChatSpec(st, message, conversation, s, reply);
      && (!st.modelReady <==> r == HttpError(500, NotReadyDetail))
      && (r.ChatResponse? ==> (r.sources.Some? <==> r.success) && (r.sources.Some? ==> r.sources.value != []))
      && (r.ChatResponse? ==> r.answer == AnswerSpec(st, message, conversation, s, reply).answer)
  {
    if st.modelReady {
      AnswerOutcomes(st, message, conversation, s, reply);
    }
  }

  /** `chat(request)`: the ghost output records the request made to the
      model. */
  method Chat(g: Globals, message: string, conversation: Option<seq<Turn>>, s: Search, reply: GenOutcome)
    returns (r: ChatResult, ghost sent: seq<Request>)
    requires g.Valid() && Paired(s)
    ensures r == ChatSpec(g.Snapshot(), message, conversation, s, reply)
    ensures sent == if g.model then AnswerSpec(g.Snapshot(), message, conversation, s, reply).sent else []
  {
    if !g.model {
      return HttpError(500, NotReadyDetail), [];
    }
    var answer, success, sources;
    answer, success, sources, sent := AnswerQuestion(g, message, conversation, s, reply);
    r := ChatResponse(answer, success, if sources == [] then None else Some(sources));
  }
}
