/** The backend's HTTP endpoints: `/upload` and `/chat`. Any exception inside
    either becomes an HTTP 500 whose detail is the exception's text. */
module Api {
  import opened Strings
  import opened Rag

  /** `str(e)` of the IndexError raised by indexing past a list's end. */
  const IndexErrorText := "list index out of range"

  datatype HttpError = HttpError(statusCode: nat, detail: string)

  /** An endpoint's answer: the response body, or an HTTPException. */
  datatype Reply<+T> = Ok(body: T) | Error(error: HttpError)

  /** `except Exception as e: raise HTTPException(status_code=500, detail=str(e))`. */
  function ToHttp<T>(r: Py<T>): (reply: Reply<T>)
    ensures r.Value? ==> reply == Ok(r.value)
    ensures r.Raise? ==> reply == Error(HttpError(500, r.message))
  {
    match r
    case Value(v) => Ok(v)
    case Raise(m) => Error(HttpError(500, m))
  }

  // ---------------------------------------------------------------------------
  // /chat
  // ---------------------------------------------------------------------------

  /** The `/chat` body; `history` is `None` when the key was omitted. */
  datatype ChatBody = ChatBody(question: string, history: Option<seq<seq<string>>>)

  /** The request's history, the empty list when omitted. */
  function HistoryOf(request: ChatBody): (h: seq<seq<string>>)
    ensures request.history.None? ==> h == []
    ensures request.history.Some? ==> h == request.history.value
  {
    match request.history
    case None => []
    case Some(h) => h
  }

  /** `[(msg[0], msg[1]) for msg in request.history]`: one pair per entry, in
      order, extra elements dropped; an entry with fewer than two elements
      raises IndexError. */
  function FormatHistory(history: seq<seq<string>>): (r: Py<seq<(string, string)>>)
    ensures r.Value? <==> forall i | 0 <= i < |history| :: |history[i]| >= 2
    ensures r.Value? ==> |r.value| == |history|
    ensures r.Value? ==> forall i | 0 <= i < |history| :: r.value[i] == (history[i][0], history[i][1])
    ensures r.Raise? ==> r.message == IndexErrorText
  {
    if history == [] then Value([])
    else if |history[0]| < 2 then Raise(IndexErrorText)
    else match FormatHistory(history[1..])
      case Raise(m) => Raise(m)
      case Value(rest) => Value([(history[0][0], history[0][1])] + rest)
  }

  /** `chat`: a malformed history entry gives a 500 with the IndexError's
      text; otherwise the answer of `get_answer` on the converted history, an
      exception there again becoming a 500. */
  method Chat(service: RAGService, request: ChatBody, chain: (Store, string, seq<LcMessage>) -> Py<string>)
    returns (reply: Reply<string>)
    ensures FormatHistory(HistoryOf(request)).Raise? ==>
      reply == Error(HttpError(500, IndexErrorText))
    ensures FormatHistory(HistoryOf(request)).Value? && service.vectorStore.None? ==>
      reply == Ok(UploadFirst)
    ensures FormatHistory(HistoryOf(request)).Value? && service.vectorStore.Some? ==>
      reply == ToHttp(chain(service.vectorStore.value, request.question,
                            LcHistory(FormatHistory(HistoryOf(request)).value)))
  {
    var formatted := FormatHistory(HistoryOf(request));
    if formatted.Raise? {
      return Error(HttpError(500, formatted.message));
    }
    var answer := service.GetAnswer(chain, request.question, formatted.value);
    reply := ToHttp(answer);
  }

  // ---------------------------------------------------------------------------
  // /upload
  // ---------------------------------------------------------------------------

  /** An uploaded file: its name and its bytes. */
  datatype UploadFile = UploadFile(filename: string, content: Bytes)

  const UploadPrefix := "Procesados exitosamente "
  const UploadSuffix := " fragmentos."

  /** The success message. Both counts can be read back from it: the file
      count right after the opening words, the chunk count right before the
      closing one. */
  function UploadMessage(fileCount: nat, chunkCount: nat): (m: string)
    ensures var files := NatToString(fileCount); var chunks := NatToString(chunkCount);
      && |UploadPrefix| + |files| + |chunks| + |UploadSuffix| <= |m|
      && AllDigits(m[|UploadPrefix|..|UploadPrefix| + |files|])
      && ParseNat(m[|UploadPrefix|..|UploadPrefix| + |files|]) == fileCount
      && AllDigits(m[|m| - |UploadSuffix| - |chunks|..|m| - |UploadSuffix|])
      && ParseNat(m[|m| - |UploadSuffix| - |chunks|..|m| - |UploadSuffix|]) == chunkCount
  {
    var files, chunks := NatToString(fileCount), NatToString(chunkCount);
    ParseNatToString(fileCount);
    ParseNatToString(chunkCount);
    var m := UploadPrefix + files + " archivos en " + chunks + UploadSuffix;
    assert m[|UploadPrefix|..|UploadPrefix| + |files|] == files;
    assert m[|m| - |UploadSuffix| - |chunks|..|m| - |UploadSuffix|] == chunks;
    m
  }

  /** The bytes of the files, in upload order. */
  function Contents(files: seq<UploadFile>): (contents: seq<Bytes>)
    ensures |contents| == |files|
    ensures forall i | 0 <= i < |files| :: contents[i] == files[i].content
  {
    seq(|files|, i requires 0 <= i < |files| => files[i].content)
  }

  /** `upload_documents`: reads every file in order, one entry each, hands
      them to `process_pdfs`, and reports the number of files and of chunks;
      an exception becomes a 500. */
  method UploadDocuments(service: RAGService, files: seq<UploadFile>, load: Bytes -> Py<seq<Chunk>>, index: Attempt)
    returns (reply: Reply<string>)
    modifies service
    ensures var split := SplitAll(Contents(files), load);
      && (split.Raise? ==> reply == Error(HttpError(500, split.message)) && service.vectorStore == old(service.vectorStore))
      && (split == Value([]) ==> reply == Ok(UploadMessage(|files|, 0)) && service.vectorStore == old(service.vectorStore))
      && (split.Value? && split.value != [] && index.Fails? ==>
            reply == Error(HttpError(500, index.message)) && service.vectorStore == old(service.vectorStore))
      && (split.Value? && split.value != [] && index.Done? ==>
            reply == Ok(UploadMessage(|files|, |split.value|)) && service.vectorStore == Some(Store(split.value)))
  {
    var fileContents: seq<Bytes> := [];
    var i := 0;
    while i < |files|
      invariant 0 <= i <= |files|
      invariant fileContents == Contents(files[..i])
    {
      fileContents := fileContents + [files[i].content];
      i := i + 1;
    }
    assert files[..|files|] == files;
    var chunkCount := service.ProcessPdfs(fileContents, load, index);
    match chunkCount {
      case Value(n) => reply := Ok(UploadMessage(|files|, n));
      case Raise(m) => reply := Error(HttpError(500, m));
    }
  }
}
