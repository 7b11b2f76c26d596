/** The retrieval service of the backend: building the vector store from
    uploaded PDFs, and answering a question with chat history. Loading and
    splitting a PDF, building the store (embeddings) and running the
    retrieval chain (the language model) are represented by parameters. */
module Rag {
  import opened Strings

  /** What a Python call does: return a value, or raise an exception whose
      `str(e)` is `message`. */
  datatype Py<+T> = Value(value: T) | Raise(message: string)

  /** A call made for its effect only. */
  datatype Attempt = Done | Fails(message: string)

  type Bytes = seq<bv8>

  /** A piece of a PDF's text, as the splitter cuts it. */
  datatype Chunk = Chunk(pageContent: string)

  /** An in-memory vector store: the documents it was built from. */
  datatype Store = Store(documents: seq<Chunk>)

  /** LangChain's chat history messages. */
  datatype LcMessage = HumanMessage(content: string) | AIMessage(content: string)

  const UploadFirst := "Por favor, sube documentos primero para inicializar el conocimiento."

  // ---------------------------------------------------------------------------
  // process_pdfs
  // ---------------------------------------------------------------------------

  /** The chunks of all files in file order, `load` being "write to a temp
      file, load it, split it"; the first file whose loading raises makes the
      whole call raise. */
  function SplitAll(files: seq<Bytes>, load: Bytes -> Py<seq<Chunk>>): (r: Py<seq<Chunk>>)
    ensures r.Raise? ==> exists i | 0 <= i < |files| :: load(files[i]) == r
  {
    if files == [] then Value([])
    else match SplitAll(files[..|files| - 1], load)
      case Raise(m) => Raise(m)
      case Value(front) =>
        match load(files[|files| - 1])
        case Raise(m) => Raise(m)
        case Value(chunks) => Value(front + chunks)
  }

  /** The number of chunks each file splits into, summed over the files. */
  function ChunkTotal(files: seq<Bytes>, load: Bytes -> Py<seq<Chunk>>): nat {
    if files == [] then 0
    else
      var last := match load(files[|files| - 1]) case Value(chunks) => |chunks| case Raise(_) => 0;
      ChunkTotal(files[..|files| - 1], load) + last
  }

  /** Splitting succeeds exactly when every file loads, and then yields the
      sum over files of each file's chunk count. */
  lemma {:induction false} SplitAllCount(files: seq<Bytes>, load: Bytes -> Py<seq<Chunk>>)
    ensures SplitAll(files, load).Value? <==> forall i | 0 <= i < |files| :: load(files[i]).Value?
    ensures SplitAll(files, load).Value? ==> |SplitAll(files, load).value| == ChunkTotal(files, load)
    decreases |files|
  {
    if files != [] {
      var front := files[..|files| - 1];
      SplitAllCount(front, load);
      assert forall i | 0 <= i < |front| :: front[i] == files[i];
    }
  }

  /** Once a prefix of the files raises, the whole call raises the same way:
      later files are never loaded. */
  lemma {:induction false} SplitAllRaiseStops(files: seq<Bytes>, k: nat, load: Bytes -> Py<seq<Chunk>>)
    requires k <= |files| && SplitAll(files[..k], load).Raise?
    ensures SplitAll(files, load) == SplitAll(files[..k], load)
    decreases |files| - k
  {
    if k < |files| {
      var next := files[..k + 1];
      assert next[..k] == files[..k];
      SplitAllRaiseStops(files, k + 1, load);
    } else {
      assert files[..k] == files;
    }
  }

  // ---------------------------------------------------------------------------
  // get_answer: history conversion
  // ---------------------------------------------------------------------------

  /** What one `(role, content)` pair becomes: a human message for "user", an
      AI message for "assistant", nothing for any other role. */
  function Converted(entry: (string, string)): (ms: seq<LcMessage>)
    ensures entry.0 == "user" ==> ms == [HumanMessage(entry.1)]
    ensures entry.0 == "assistant" ==> ms == [AIMessage(entry.1)]
    ensures entry.0 != "user" && entry.0 != "assistant" ==> ms == []
  {
    if entry.0 == "user" then [HumanMessage(entry.1)]
    else if entry.0 == "assistant" then [AIMessage(entry.1)]
    else []
  }

  /** The LangChain history built from the pairs, in order. */
  function LcHistory(history: seq<(string, string)>): (lc: seq<LcMessage>)
    ensures |lc| <= |history|
  {
    if history == [] then []
    else LcHistory(history[..|history| - 1]) + Converted(history[|history| - 1])
  }

  /** The conversion works pair by pair, so it keeps the order of the pairs
      it keeps. */
  lemma {:induction false} LcHistoryAppend(a: seq<(string, string)>, b: seq<(string, string)>)
    ensures LcHistory(a + b) == LcHistory(a) + LcHistory(b)
    decreases |b|
  {
    if b == [] {
      assert a + b == a;
    } else {
      var front := b[..|b| - 1];
      assert (a + b)[..|a + b| - 1] == a + front;
      LcHistoryAppend(a, front);
    }
  }

  /** With every role "user" or "assistant" nothing is dropped: the i-th pair
      becomes the i-th message. */
  lemma {:induction false} LcHistoryKnownRoles(history: seq<(string, string)>)
    requires forall i | 0 <= i < |history| :: history[i].0 == "user" || history[i].0 == "assistant"
    ensures |LcHistory(history)| == |history|
    ensures forall i | 0 <= i < |history| :: LcHistory(history)[i] == Converted(history[i])[0]
    decreases |history|
  {
    if history != [] {
      var front := history[..|history| - 1];
      LcHistoryKnownRoles(front);
    }
  }

  /** `for role, content in chat_history: … lc_history.append(…)`. */
  method ToLcHistory(chatHistory: seq<(string, string)>) returns (lc: seq<LcMessage>)
    ensures lc == LcHistory(chatHistory)
  {
    lc := [];
    var i := 0;
    while i < |chatHistory|
      invariant 0 <= i <= |chatHistory|
      invariant lc == LcHistory(chatHistory[..i])
    {
      assert chatHistory[..i + 1][..i] == chatHistory[..i];
      var (role, content) := chatHistory[i];
      if role == "user" {
        lc := lc + [HumanMessage(content)];
      } else if role == "assistant" {
        lc := lc + [AIMessage(content)];
      }
      i := i + 1;
    }
    assert chatHistory[..|chatHistory|] == chatHistory;
  }

  class RAGService {
    var vectorStore: Option<Store>

    constructor ()
      ensures vectorStore == None
    {
      vectorStore := None;
    }

    /** `process_pdfs`: splits every file in order and, when that produced
        chunks, reassigns the store to the one built from those chunks
        (`index` says whether building it raised) and returns their number.
        With no chunks it returns 0 and keeps the store. A raise leaves the
        store as it was. */
    method ProcessPdfs(files: seq<Bytes>, load: Bytes -> Py<seq<Chunk>>, index: Attempt) returns (r: Py<nat>)
      modifies this`vectorStore
      ensures SplitAll(files, load).Raise? ==>
        r == Raise(SplitAll(files, load).message) && vectorStore == old(vectorStore)
      ensures SplitAll(files, load) == Value([]) ==>
        r == Value(0) && vectorStore == old(vectorStore)
      ensures SplitAll(files, load).Value? && SplitAll(files, load).value != [] && index.Fails? ==>
        r == Raise(index.message) && vectorStore == old(vectorStore)
      ensures SplitAll(files, load).Value? && SplitAll(files, load).value != [] && index.Done? ==>
        r == Value(|SplitAll(files, load).value|) && vectorStore == Some(Store(SplitAll(files, load).value))
    {
      var allChunks: seq<Chunk> := [];
      var i := 0;
      while i < |files|
        invariant 0 <= i <= |files|
        invariant SplitAll(files[..i], load) == Value(allChunks)
      {
        assert files[..i + 1][..i] == files[..i];
        match load(files[i]) {
          case Raise(m) =>
            SplitAllRaiseStops(files, i + 1, load);
            return Raise(m);
          case Value(chunks) =>
            allChunks := allChunks + chunks;
        }
        i := i + 1;
      }
      assert files[..|files|] == files;
      if allChunks != [] {
        match index {
          case Fails(m) =>
            return Raise(m);
          case Done =>
            vectorStore := Some(Store(allChunks));
            return Value(|allChunks|);
        }
      }
      return Value(0);
    }

    /** `get_answer`: without a store, the fixed request to upload documents,
        whatever the question and history; otherwise what the retrieval chain
        makes of the store, the question and the converted history. The
        history defaults to empty. */
    method GetAnswer(chain: (Store, string, seq<LcMessage>) -> Py<string>, question: string,
                     chatHistory: seq<(string, string)> := [])
      returns (answer: Py<string>)
      ensures vectorStore.None? ==> answer == Value(UploadFirst)
      ensures vectorStore.Some? ==> answer == chain(vectorStore.value, question, LcHistory(chatHistory))
    {
      if vectorStore.None? {
        return Value(UploadFirst);
      }
      var lcHistory := ToLcHistory(chatHistory);
      answer := chain(vectorStore.value, question, lcHistory);
    }
  }
}
