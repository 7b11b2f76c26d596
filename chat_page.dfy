/** The chat page component as a state machine: the transcript and the flags
    its handlers set and reset. Each handler runs to completion before the
    next event; what the network and the browser answer is a parameter. */
module ChatPage {
  import opened Strings
  import opened ChatModel

  const PdfUploadingStatus := "Subiendo y procesando PDFs..."
  const PdfRejectedStatus := "❌ Error al subir archivos PDF."
  const PdfConnectionError := "❌ Error de conexión."

  /** What the PDF upload yields: the body's `message`, a non-ok response, or
      an exception. */
  datatype UploadOutcome = Uploaded(message: string) | UploadRejected | UploadUnreachable

  /** The status line the PDF upload leaves. */
  function PdfStatus(outcome: UploadOutcome): (status: string)
    ensures outcome.Uploaded? ==> status == "✅ " + outcome.message
    ensures outcome.UploadRejected? ==> status == PdfRejectedStatus
    ensures outcome.UploadUnreachable? ==> status == PdfConnectionError
  {
    match outcome
    case Uploaded(message) => "✅ " + message
    case UploadRejected => PdfRejectedStatus
    case UploadUnreachable => PdfConnectionError
  }

  class ChatSession {
    var messages: seq<Message>
    var input: string
    var pdfFiles: Option<seq<File>>     // None: no FileList chosen
    var imageFiles: Option<seq<File>>
    var uploading: bool
    var processing: bool
    var uploadStatus: string
    var useInternetSearch: bool
    var forceInternetSearch: bool       // no handler ever sets it
    var isDragActive: bool

    /** The transcript is never empty and always opens with the greeting. */
    predicate Valid()
      reads this
    {
      |messages| >= 1 && messages[0] == Greeting
    }

    constructor ()
      ensures Valid()
      ensures messages == [Greeting] && input == ""
      ensures pdfFiles == None && imageFiles == None
      ensures !uploading && !processing && uploadStatus == ""
      ensures !useInternetSearch && !forceInternetSearch && !isDragActive
    {
      messages := [Greeting];
      input := "";
      pdfFiles, imageFiles := None, None;
      uploading, processing := false, false;
      uploadStatus := "";
      useInternetSearch, forceInternetSearch := false, false;
      isDragActive := false;
    }

    /** The text box's `onChange`, and the recorder's `onTranscription`. */
    method SetInput(text: string)
      modifies this`input
      ensures input == text
    {
      input := text;
    }

    /** The internet-search checkbox. */
    method SetUseInternetSearch(on: bool)
      modifies this`useInternetSearch
      ensures useInternetSearch == on
    {
      useInternetSearch := on;
    }

    /** The file pickers' `onChange`. */
    method SelectPdfFiles(files: Option<seq<File>>)
      modifies this`pdfFiles
      ensures pdfFiles == files
    {
      pdfFiles := files;
    }

    method SelectImageFiles(files: Option<seq<File>>)
      modifies this`imageFiles
      ensures imageFiles == files
    {
      imageFiles := files;
    }

    /** Submitting the chat form. An input that trims to nothing (a blank one,
        by `TrimEmptyIffBlank`) changes nothing. Otherwise the
        input is cleared, the untrimmed text is appended as a user message,
        the request carries the last six messages from before that append, and
        exactly one assistant message follows: the answer or the fixed error.
        `processing` ends false. Returns the request posted, if any. */
    method HandleSend(outcome: ChatOutcome) returns (sent: Option<ChatRequest>)
      requires Valid()
      modifies this`messages, this`input, this`processing
      ensures Valid()
      ensures Trim(old(input)) == [] ==>
        sent == None && messages == old(messages) && input == old(input) && processing == old(processing)
      ensures Trim(old(input)) != [] ==>
        && input == ""
        && !processing
        && messages == old(messages) + [Message(User, old(input)), Message(Assistant, ReplyText(outcome))]
        && sent == Some(BuildRequest(old(input), HistoryWindow(old(messages)), useInternetSearch, forceInternetSearch))
    {
      if Trim(input) == [] {
        return None;
      }
      var userMessage, snapshot := input, messages;
      input := "";
      var withQuestion := snapshot + [Message(User, userMessage)];
      messages := withQuestion;
      processing := true;
      sent := Some(BuildRequest(userMessage, HistoryWindow(snapshot), useInternetSearch, forceInternetSearch));
      // the try block appends the answer, the catch block the fixed error
      var withReply := withQuestion + [Message(Assistant, ReplyText(outcome))];
      assert withReply[0] == snapshot[0];
      messages := withReply;
      processing := false;
    }

    /** Submitting the PDF form: nothing without a non-empty selection;
        otherwise the status reports the outcome and `uploading` ends false on
        every path. Returns the files posted, if any. */
    method HandlePdfUpload(outcome: UploadOutcome) returns (posted: Option<seq<File>>)
      modifies this`uploading, this`uploadStatus
      ensures pdfFiles.None? || pdfFiles.value == [] ==>
        posted == None && uploading == old(uploading) && uploadStatus == old(uploadStatus)
      ensures pdfFiles.Some? && pdfFiles.value != [] ==>
        posted == pdfFiles && !uploading && uploadStatus == PdfStatus(outcome)
    {
      if pdfFiles.None? || pdfFiles.value == [] {
        return None;
      }
      uploading := true;
      uploadStatus := PdfUploadingStatus;
      posted := pdfFiles;
      match outcome {
        case Uploaded(message) => uploadStatus := "✅ " + message;
        case UploadRejected => uploadStatus := PdfRejectedStatus;
        case UploadUnreachable => uploadStatus := PdfConnectionError;
      }
      uploading := false;
    }

    /** One pass of the analysis loop for image `index` of `total`: the try
        block appends the image and its analysis and reports progress, the
        two catch paths report the failure, and the finally block clears
        `uploading` when this is the last index. */
    method AnalyzeImage(index: nat, total: nat, outcome: ImageOutcome)
      modifies this`messages, this`uploading, this`uploadStatus
      ensures messages == old(messages) + PairFor(outcome)
      ensures uploadStatus == StepStatus(index, total, outcome)
      ensures uploading == (old(uploading) && index != total - 1)
    {
      match outcome {
        case Analyzed(url, analysis) =>
          messages := messages + [ImageMessage(url)];
          messages := messages + [Message(Assistant, analysis)];
          uploadStatus := ProgressStatus(index + 1, total);
        case Rejected =>
          uploadStatus := RejectedStatus(index + 1);
        case Unreachable =>
          uploadStatus := ImageConnectionError;
      }
      if index == total - 1 {
        uploading := false;
      }
    }

    /** Analyses `files` one by one, `outcomes[i]` being what the server made
        of `files[i]`. Each success appends the image and its analysis; the
        first failure stops the loop and appends nothing for that file.
        `uploading` is reset only when the last index is reached, so a failure
        before the last image leaves it true. */
    method HandleImageAnalysisForFiles(files: seq<File>, outcomes: seq<ImageOutcome>)
      requires Valid()
      requires |outcomes| == |files|
      modifies this`messages, this`uploading, this`uploadStatus
      ensures Valid()
      ensures files == [] ==>
        messages == old(messages) && uploading == old(uploading) && uploadStatus == old(uploadStatus)
      ensures files != [] ==>
        && messages == old(messages) + PairsUpTo(outcomes, Succeeded(outcomes))
        && uploading == (Succeeded(outcomes) < |files| - 1)
        && uploadStatus == StatusAfter(outcomes)
    {
      if files == [] {
        return;
      }
      ghost var k := Succeeded(outcomes);
      SucceededShape(outcomes);
      uploading := true;
      uploadStatus := AnalyzingStatus;
      var i := 0;
      while i < |files|
        invariant i <= k
        invariant messages == old(messages) + PairsUpTo(outcomes, i)
        invariant uploading == (i < |files|)
        invariant i > 0 ==> uploadStatus == ProgressStatus(i, |files|)
      {
        AnalyzeImage(i, |files|, outcomes[i]);
        if !outcomes[i].Analyzed? {
          assert i == k && StatusAfter(outcomes) == StepStatus(i, |files|, outcomes[i]);
          assert messages == old(messages) + PairsUpTo(outcomes, i) + [];
          return;
        }
        i := i + 1;
      }
      assert i == k && StatusAfter(outcomes) == ProgressStatus(i, |files|);
    }

    /** Submitting the image form: the same loop over the chosen images. */
    method HandleImageAnalysis(outcomes: seq<ImageOutcome>)
      requires Valid()
      requires imageFiles.Some? ==> |outcomes| == |imageFiles.value|
      modifies this`messages, this`uploading, this`uploadStatus
      ensures Valid()
      ensures imageFiles.None? || imageFiles.value == [] ==>
        messages == old(messages) && uploading == old(uploading) && uploadStatus == old(uploadStatus)
      ensures imageFiles.Some? && imageFiles.value != [] ==>
        && messages == old(messages) + PairsUpTo(outcomes, Succeeded(outcomes))
        && uploading == (Succeeded(outcomes) < |outcomes| - 1)
        && uploadStatus == StatusAfter(outcomes)
    {
      if imageFiles.None? || imageFiles.value == [] {
        return;
      }
      HandleImageAnalysisForFiles(imageFiles.value, outcomes);
    }

    /** A drag entering the chat area highlights it only when it carries an
        image file; otherwise nothing changes. */
    method HandleDragEnter(items: seq<DragItem>)
      modifies this`isDragActive
      ensures HasImageFile(items) ==> isDragActive
      ensures !HasImageFile(items) ==> isDragActive == old(isDragActive)
    {
      if |items| > 0 && HasImageFile(items) {
        isDragActive := true;
      }
    }

    method HandleDragLeave()
      modifies this`isDragActive
      ensures !isDragActive
    {
      isDragActive := false;
    }

    /** A drop always clears the highlight and keeps only the image files, in
        order. With none left nothing else happens; otherwise they become the
        chosen images and are analysed, `outcomes[i]` answering the i-th kept
        image. */
    method HandleDrop(dropped: seq<File>, outcomes: seq<ImageOutcome>)
      requires Valid()
      requires |outcomes| == |ImagesOnly(dropped)|
      modifies this`isDragActive, this`imageFiles, this`messages, this`uploading, this`uploadStatus
      ensures Valid()
      ensures !isDragActive
      ensures ImagesOnly(dropped) == [] ==>
        && messages == old(messages) && imageFiles == old(imageFiles)
        && uploading == old(uploading) && uploadStatus == old(uploadStatus)
      ensures ImagesOnly(dropped) != [] ==>
        && imageFiles == Some(ImagesOnly(dropped))
        && messages == old(messages) + PairsUpTo(outcomes, Succeeded(outcomes))
        && uploading == (Succeeded(outcomes) < |outcomes| - 1)
        && uploadStatus == StatusAfter(outcomes)
    {
      isDragActive := false;
      if |dropped| > 0 {
        var images := ImagesOnly(dropped);
        if |images| > 0 {
          imageFiles := Some(images);
          HandleImageAnalysisForFiles(images, outcomes);
        }
      }
    }
  }
}
