/** `initialize_system` as app.py and backend/main.py both write it: the key
    checks, the model handle, the two file checks, then the loads of the
    corpus, the index and the embedder, each assigning its global as soon
    as it returns. The first exception ends the start-up and leaves the
    globals assigned before it in place. */
module Startup {
  import opened Wrappers
  import opened Pipeline
  import opened Credentials

  /** What `pickle.load` gives for `chunks.pkl`: its `texts` and `metadatas`
      entries, either of which may be missing. */
  datatype ChunkData = ChunkData(texts: Option<seq<string>>, metadatas: Option<seq<Metadata>>)

  /** A load step either returns or raises. */
  datatype Step = Done | Fails(error: Exc)

  /** What the environment and the file system give the start-up: the
      `GEMINI_API_KEY` variable, whether `chunks.pkl` and `faiss_index.bin`
      exist, what unpickling the corpus returns or raises, and whether
      `faiss.read_index` and the `SentenceTransformer` constructor raise. */
  datatype Inputs = Inputs(apiKey: Option<string>, chunksExist: bool, indexExists: bool,
                           pickled: Result<ChunkData, Exc>, readIndex: Step, loadEmbedder: Step)

  /** What `d[key]` raises for a missing key: `str` of a `KeyError` quotes
      the key. */
  function KeyError(key: string): Exc {
    Exc("KeyError", "'" + key + "'")
  }

  /** Every load after the file checks returns. */
  predicate LoadsSucceed(io: Inputs) {
    && io.pickled.Success? && io.pickled.value.texts.Some? && io.pickled.value.metadatas.Some?
    && io.readIndex.Done? && io.loadEmbedder.Done?
  }

  /** The globals after the start-up and the exception that ended it, if
      any. */
  datatype Started = Started(globals: GlobalState, error: Option<Exc>)

  /** `initialize_system` from the globals `s`; the two programs differ only
      in the text of their `FileNotFoundError`s. */
  function Initialize(s: GlobalState, io: Inputs, chunksMissing: Exc, indexMissing: Exc): Started {
    match CheckEnvKey(io.apiKey)
    case Failure(e) => Started(s, Some(e))
    case Success(_) =>
      var withModel := s.(model := true);
      if !io.chunksExist then Started(withModel, Some(chunksMissing))
      else if !io.indexExists then Started(withModel, Some(indexMissing))
      else
        match io.pickled
        case Failure(e) => Started(withModel, Some(e))
        case Success(d) =>
          if d.texts.None? then Started(withModel, Some(KeyError("texts")))
          else
            var withTexts := withModel.(texts := d.texts);
            if d.metadatas.None? then Started(withTexts, Some(KeyError("metadatas")))
            else
              var withCorpus := withTexts.(metadatas := d.metadatas);
              match io.readIndex
              case Fails(e) => Started(withCorpus, Some(e))
              case Done =>
                var withIndex := withCorpus.(index := true);
                match io.loadEmbedder
                case Fails(e) => Started(withIndex, Some(e))
                case Done => Started(withIndex.(embedder := true), None)
  }

  /** The start-up succeeds exactly when the key is good, both files exist
      and every load returns; a bad key changes nothing; a good key always
      creates the model handle; success loads everything. The globals stay
      consistent either way. */
  lemma InitializeOutcome(s: GlobalState, io: Inputs, chunksMissing: Exc, indexMissing: Exc)
    requires s.Valid()
    ensures var r := Initialize(s, io, chunksMissing, indexMissing);
      && r.globals.Valid()
      && (r.error.None? <==> CheckEnvKey(io.apiKey).Success? && io.chunksExist && io.indexExists && LoadsSucceed(io))
      && (CheckEnvKey(io.apiKey).Failure? ==> r == Started(s, Some(CheckEnvKey(io.apiKey).error)))
      && (CheckEnvKey(io.apiKey).Success? ==> r.globals.model)
      && (r.error.None? ==>
            r.globals == GlobalState(true, true, io.pickled.value.texts, io.pickled.value.metadatas, true))
  {
  }

  /** The steps run in order and the first one that raises decides the
      error. */
  lemma InitializeFirstError(s: GlobalState, io: Inputs, chunksMissing: Exc, indexMissing: Exc)
    requires CheckEnvKey(io.apiKey).Success?
    ensures var err := Initialize(s, io, chunksMissing, indexMissing).error;
      && (!io.chunksExist ==> err == Some(chunksMissing))
      && (io.chunksExist && !io.indexExists ==> err == Some(indexMissing))
      && (io.chunksExist && io.indexExists ==>
            && (io.pickled.Failure? ==> err == Some(io.pickled.error))
            && (io.pickled.Success? && io.pickled.value.texts.None? ==> err == Some(KeyError("texts")))
            && (io.pickled.Success? && io.pickled.value.texts.Some? && io.pickled.value.metadatas.None? ==>
                  err == Some(KeyError("metadatas")))
            && (io.pickled.Success? && io.pickled.value.texts.Some? && io.pickled.value.metadatas.Some? ==>
                  && (io.readIndex.Fails? ==> err == Some(io.readIndex.error))
                  && (io.readIndex.Done? && io.loadEmbedder.Fails? ==> err == Some(io.loadEmbedder.error))))
  {
  }

  /** Each global is assigned exactly when its step is reached and returns,
      and otherwise keeps its old value; in particular a failed load keeps
      whatever an earlier start-up loaded. */
  lemma InitializeAssigns(s: GlobalState, io: Inputs, chunksMissing: Exc, indexMissing: Exc)
    ensures var t := Initialize(s, io, chunksMissing, indexMissing).globals;
      var keyOk := CheckEnvKey(io.apiKey).Success?;
      var unpickled := keyOk && io.chunksExist && io.indexExists && io.pickled.Success?;
      var textsRead := unpickled && io.pickled.value.texts.Some?;
      var corpusRead := textsRead && io.pickled.value.metadatas.Some?;
      var indexRead := corpusRead && io.readIndex.Done?;
      && t.model == (s.model || keyOk)
      && t.texts == (if textsRead then io.pickled.value.texts else s.texts)
      && t.metadatas == (if corpusRead then io.pickled.value.metadatas else s.metadatas)
      && t.index == (s.index || indexRead)
      && t.embedder == (s.embedder || (indexRead && io.loadEmbedder.Done?))
  {
  }

  /** A failing embedder load leaves the model handle, the corpus and the
      index of that start-up assigned, with the embedder as it was. */
  lemma EmbedderFailureKeepsIndex(s: GlobalState, io: Inputs, chunksMissing: Exc, indexMissing: Exc,
                                  texts: seq<string>, metas: seq<Metadata>, e: Exc)
    requires CheckEnvKey(io.apiKey).Success? && io.chunksExist && io.indexExists
    requires io.pickled == Success(ChunkData(Some(texts), Some(metas)))
    requires io.readIndex == Done && io.loadEmbedder == Fails(e)
    ensures Initialize(s, io, chunksMissing, indexMissing)
         == Started(GlobalState(s.embedder, true, Some(texts), Some(metas), true), Some(e))
  {
  }
}
