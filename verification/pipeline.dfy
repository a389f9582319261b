/** What the three retrieval pipelines (app.py, backend/main.py, rag_qa.py)
    share: the corpus and its metadata, one FAISS search result, a reply
    from the generation model, Python's list indexing, the bounds filter
    on search positions, the citation context, and the module globals that
    `initialize_system` fills in. */
module Pipeline {
  import opened Wrappers
  import opened Strings

  /** A raised Python exception: `type(e).__name__` and `str(e)`. */
  datatype Exc = Exc(typeName: string, message: string)

  /** What `texts[i]` raises when `i` is outside `-len(texts) .. len(texts) - 1`. */
  const IndexError := Exc("IndexError", "list index out of range")

  /** A chunk's metadata mapping, reduced to the two keys the pipeline reads;
      a present value is given as `str` renders it. */
  datatype Metadata = Metadata(pageLabel: Option<string>, page: Option<string>)

  /** A corpus chunk as the retrievers hand it on: `{'text', 'metadata'}`. */
  datatype Passage = Passage(text: string, metadata: Metadata)

  /** A retrieved chunk with the distance it is reported at. Distances are
      only compared, never computed with. */
  datatype Hit = Hit(passage: Passage, distance: real)

  /** Row 0 of `D, I = index.search(query_emb, k)`: the embedder and the FAISS
      index applied to one query. FAISS pads `I` with -1 when the index holds
      fewer than k vectors. */
  datatype Search = Search(D: seq<real>, I: seq<int>)

  /** `D` and `I` come from one search and have the same length. */
  predicate Paired(s: Search) {
    |s.D| == |s.I|
  }

  /** One call of `model.generate_content(prompt).text`: the text, or the
      exception it raised. */
  datatype GenOutcome = Text(text: string) | Raised(error: Exc)

  function Passages(hs: seq<Hit>): (ps: seq<Passage>)
    ensures |ps| == |hs|
    ensures forall i :: 0 <= i < |hs| ==> ps[i] == hs[i].passage
  {
    seq(|hs|, i requires 0 <= i < |hs| => hs[i].passage)
  }

  // ---------------------------------------------------------------------
  // Python list indexing

  /** `s[i]` does not raise: negative `i` counts from the end. */
  predicate PyValid<T>(s: seq<T>, i: int) {
    -|s| <= i < |s|
  }

  /** `s[i]` for a valid Python index. */
  function PyAt<T>(s: seq<T>, i: int): (x: T)
    requires PyValid(s, i)
    ensures i >= 0 ==> x == s[i]
    ensures i < 0 ==> x == s[|s| + i]
  {
    if i >= 0 then s[i] else s[|s| + i]
  }

  /** `s[i]`, raising IndexError outside the valid range. */
  function PyIndex<T>(s: seq<T>, i: int): (r: Result<T, Exc>)
    ensures r.Success? <==> PyValid(s, i)
    ensures r.Success? ==> r.value == PyAt(s, i)
    ensures r.Failure? ==> r.error == IndexError
  {
    if PyValid(s, i) then Success(PyAt(s, i)) else Failure(IndexError)
  }

  /** Both `texts[i]` and `metadatas[i]` succeed. */
  predicate Fetchable(texts: seq<string>, metas: seq<Metadata>, i: int) {
    PyValid(texts, i) && PyValid(metas, i)
  }

  function PassageAt(texts: seq<string>, metas: seq<Metadata>, i: int): Passage
    requires Fetchable(texts, metas, i)
  {
    Passage(PyAt(texts, i), PyAt(metas, i))
  }

  /** The position `-1` that FAISS reports for a missing neighbour passes the
      filter `idx < len(texts)` and reads the LAST chunk, as Python does. */
  lemma MinusOneReadsLastChunk(texts: seq<string>, metas: seq<Metadata>)
    requires |texts| > 0 && |metas| == |texts|
    ensures -1 < |texts| && Fetchable(texts, metas, -1)
    ensures PassageAt(texts, metas, -1) == Passage(texts[|texts| - 1], metas[|metas| - 1])
  {
  }

  // ---------------------------------------------------------------------
  // The bounds filter `if idx < len(texts)` over the search positions

  /** The search ranks (positions in `I`) whose index passes `idx < n`, in
      search order. */
  function KeptRanks(I: seq<int>, n: int): (ks: seq<nat>)
    ensures |ks| <= |I|
    ensures forall j :: 0 <= j < |ks| ==> ks[j] < |I|
  {
    if |I| == 0 then []
    else
      var ks := KeptRanks(I[..|I| - 1], n);
      ks + (if I[|I| - 1] < n then [|I| - 1] else [])
  }

  /** The kept ranks are exactly the ranks whose index passes the filter,
      each once, in increasing order. */
  lemma {:induction false} KeptRanksExact(I: seq<int>, n: int)
    ensures var ks := KeptRanks(I, n);
      && (forall j :: 0 <= j < |ks| ==> I[ks[j]] < n)
      && (forall j, j' :: 0 <= j < j' < |ks| ==> ks[j] < ks[j'])
      && (forall r :: 0 <= r < |I| && I[r] < n ==> r in ks)
  {
    if |I| > 0 {
      var I' := I[..|I| - 1];
      KeptRanksExact(I', n);
      var ks' := KeptRanks(I', n);
      assert forall j :: 0 <= j < |ks'| ==> I'[ks'[j]] == I[ks'[j]];
      assert forall r :: 0 <= r < |I'| ==> I'[r] == I[r];
    }
  }

  /** A rank whose index passes the filter is kept. */
  lemma RankKept(I: seq<int>, n: int, r: nat)
    requires r < |I| && I[r] < n
    ensures r in KeptRanks(I, n)
  {
    KeptRanksExact(I, n);
  }

  /** The number of search ranks the filter `idx < n` skips. */
  function Skipped(I: seq<int>, n: int): nat
  {
    if |I| == 0 then 0
    else Skipped(I[..|I| - 1], n) + (if I[|I| - 1] < n then 0 else 1)
  }

  /** Extending the searched prefix by one position keeps that position
      exactly when its index passes the filter. */
  lemma KeptRanksSnoc(I: seq<int>, n: int, pos: nat)
    requires pos < |I|
    ensures KeptRanks(I[..pos + 1], n) == KeptRanks(I[..pos], n) + (if I[pos] < n then [pos] else [])
  {
    assert I[..pos + 1][..pos] == I[..pos];
  }

  /** No rank is skipped exactly when every index passes the filter. */
  lemma {:induction false} SkippedNone(I: seq<int>, n: int)
    ensures Skipped(I, n) == 0 <==> forall r :: 0 <= r < |I| ==> I[r] < n
  {
    if |I| > 0 {
      var I' := I[..|I| - 1];
      SkippedNone(I', n);
      assert forall r :: 0 <= r < |I'| ==> I'[r] == I[r];
    }
  }

  /** Every rank is either kept or skipped. */
  lemma {:induction false} KeptPlusSkipped(I: seq<int>, n: int)
    ensures |KeptRanks(I, n)| + Skipped(I, n) == |I|
  {
    if |I| > 0 {
      KeptPlusSkipped(I[..|I| - 1], n);
    }
  }

  /** Filtering a prefix of the search gives a prefix of the filtered ranks. */
  lemma {:induction false} KeptRanksOfPrefix(I: seq<int>, n: int, m: nat)
    requires m <= |I|
    ensures var pre := KeptRanks(I[..m], n);
      |pre| <= |KeptRanks(I, n)| && pre == KeptRanks(I, n)[..|pre|]
  {
    if m < |I| {
      var I' := I[..|I| - 1];
      assert I'[..m] == I[..m];
      KeptRanksOfPrefix(I', n, m);
    } else {
      assert I[..m] == I;
    }
  }

  /** The j-th kept rank lies exactly as many places after j as there are
      skipped ranks before it. */
  lemma KeptRankOffset(I: seq<int>, n: int, j: nat)
    requires j < |KeptRanks(I, n)|
    ensures var r := KeptRanks(I, n)[j]; r < |I| && r == j + Skipped(I[..r], n)
  {
    var ks := KeptRanks(I, n);
    var r := ks[j];
    assert r < |I| && I[r] < n by {
      KeptRanksExact(I, n);
    }
    var before := KeptRanks(I[..r], n);
    assert |before| < |ks| && ks[|before|] == r by {
      KeptRanksOfPrefix(I, n, r + 1);
      KeptRanksSnoc(I, n, r);
    }
    assert |before| == j by {
      KeptRanksExact(I, n);
      RankPositionUnique(ks, |before|, j);
    }
    KeptPlusSkipped(I[..r], n);
  }

  /** In a strictly increasing sequence each value sits at one position. */
  lemma RankPositionUnique(ks: seq<nat>, a: nat, b: nat)
    requires forall j, j' :: 0 <= j < j' < |ks| ==> ks[j] < ks[j']
    requires a < |ks| && b < |ks| && ks[a] == ks[b]
    ensures a == b
  {
  }

  // ---------------------------------------------------------------------
  // Citation context: `format_context_with_citations`

  /** `metadata.get('page_label', metadata.get('page', '?'))`. */
  function PageOf(m: Metadata): (page: string)
    ensures m.pageLabel.Some? ==> page == m.pageLabel.value
    ensures m.pageLabel.None? && m.page.Some? ==> page == m.page.value
    ensures m.pageLabel.None? && m.page.None? ==> page == "?"
  {
    m.pageLabel.GetOr(m.page.GetOr("?"))
  }

  /** `f"[Source p.{page}] {text}"` followed by the separator. */
  function CitationLine(p: Passage, sep: string): string {
    "[Source p." + PageOf(p.metadata) + "] " + p.text + sep
  }

  /** The citation lines of the passages, concatenated in order. */
  function Context(ps: seq<Passage>, sep: string): string {
    if |ps| == 0 then "" else Context(ps[..|ps| - 1], sep) + CitationLine(ps[|ps| - 1], sep)
  }

  /** The context of a concatenation is the concatenation of the contexts. */
  lemma {:induction false} ContextConcat(a: seq<Passage>, b: seq<Passage>, sep: string)
    ensures Context(a + b, sep) == Context(a, sep) + Context(b, sep)
  {
    if |b| > 0 {
      var b' := b[..|b| - 1];
      assert (a + b)[..|a + b| - 1] == a + b';
      ContextConcat(a, b', sep);
    } else {
      assert a + b == a;
    }
  }

  /** The j-th passage's citation line sits between the lines of the passages
      before it and those after it: one line per passage, in input order. */
  lemma ContextSplitsAt(ps: seq<Passage>, sep: string, j: nat)
    requires j < |ps|
    ensures Context(ps, sep) == Context(ps[..j], sep) + CitationLine(ps[j], sep) + Context(ps[j + 1..], sep)
  {
    assert ps == ps[..j] + [ps[j]] + ps[j + 1..];
    ContextConcat(ps[..j] + [ps[j]], ps[j + 1..], sep);
    ContextConcat(ps[..j], [ps[j]], sep);
    assert [ps[j]][..0] == [];
  }

  /** The `for r in results: context += ...` loop. app.py and backend/main.py
      end each line with a blank line (`sep == "\n\n"`), rag_qa.py with a
      single newline. */
  method FormatContextWithCitations(ps: seq<Passage>, sep: string) returns (context: string)
    ensures context == Context(ps, sep)
    ensures ps == [] ==> context == ""
  {
    context := "";
    var i := 0;
    while i < |ps|
      invariant 0 <= i <= |ps|
      invariant context == Context(ps[..i], sep)
    {
      assert ps[..i + 1][..i] == ps[..i];
      context := context + CitationLine(ps[i], sep);
      i := i + 1;
    }
    assert ps[..|ps|] == ps;
  }

  // ---------------------------------------------------------------------
  // The guideline lines shared by the prompts of app.py and backend/main.py

  const GuidelineActionable := "- Provide accurate, actionable information for cotton farmers\n"
  const GuidelineCite := "- Cite sources using [Source p.X] format for every fact\n"
  const GuidelineAbsent := "- If the context doesn't contain the answer, clearly state that\n"
  const GuidelineConcise := "- Be concise but comprehensive\n"
  const GuidelineBullets := "- Use bullet points for multiple items\n"
  const GuidelinePractical := "- Focus on practical recommendations\n"

  /** The six guideline lines, in order, under the `Guidelines:` heading. */
  const Guidelines := "Guidelines:\n" + GuidelineActionable + GuidelineCite + GuidelineAbsent
    + GuidelineConcise + GuidelineBullets + GuidelinePractical

  // ---------------------------------------------------------------------
  // Module globals of app.py and backend/main.py

  /** What `retrieve` and `answer_question` read from the globals. */
  datatype Store = Store(searchReady: bool, modelReady: bool, texts: seq<string>, metas: seq<Metadata>)

  /** The values of the module globals `embedder, index, texts, metadatas,
      model`; a loaded handle is `true`, `None` is `false`. */
  datatype GlobalState = GlobalState(embedder: bool, index: bool, texts: Option<seq<string>>,
                                     metadatas: Option<seq<Metadata>>, model: bool)
  {
    /** `initialize_system` loads the corpus before the index. */
    predicate Valid() {
      index ==> texts.Some? && metadatas.Some?
    }

    /** Retrieval needs the embedder and the index; generation needs the
        model. */
    function Snapshot(): (st: Store)
      requires Valid()
      ensures st.searchReady <==> embedder && index
      ensures st.modelReady == model
      ensures st.searchReady ==> st.texts == texts.value && st.metas == metadatas.value
    {
      if embedder && index then Store(true, model, texts.value, metadatas.value)
      else Store(false, model, [], [])
    }
  }

  /** The module globals, which `initialize_system` assigns one by one. */
  class Globals {
    var embedder: bool
    var index: bool
    var texts: Option<seq<string>>
    var metadatas: Option<seq<Metadata>>
    var model: bool

    function State(): GlobalState
      reads this
    {
      GlobalState(embedder, index, texts, metadatas, model)
    }

    ghost predicate Valid()
      reads this
    {
      State().Valid()
    }

    /** The globals at import time: everything `None`. */
    constructor ()
      ensures Valid()
      ensures !embedder && !index && !model && texts.None? && metadatas.None?
    {
      embedder, index, model := false, false, false;
      texts, metadatas := None, None;
    }

    function Snapshot(): (st: Store)
      reads this
      requires Valid()
      ensures st.searchReady <==> embedder && index
      ensures st.modelReady == model
      ensures st.searchReady ==> st.texts == texts.value && st.metas == metadatas.value
    {
      State().Snapshot()
    }
  }
}
