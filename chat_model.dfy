/** The values the chat page works with: transcript messages, the request
    `handleSend` posts, the outcomes of the calls it makes, and the pure
    expressions inside its handlers (history window, endpoint choice, the
    drop filter, and what the image-analysis loop leaves behind). */
module ChatModel {
  import opened Strings

  datatype Role = User | Assistant

  datatype Message = Message(role: Role, content: string)

  /** The role as it travels on the wire. */
  function RoleName(r: Role): (name: string)
    ensures name == "user" || name == "assistant"
  {
    match r
    case User => "user"
    case Assistant => "assistant"
  }

  /** The one message a fresh transcript holds. */
  const Greeting := Message(Assistant, "¡Hola! Sube tus PDFs o imágenes y pregúntame lo que quieras.")

  /** Reply appended when the chat request throws. */
  const ServerError := "Error al conectar con el servidor."

  // ---------------------------------------------------------------------------
  // handleSend: history window and request
  // ---------------------------------------------------------------------------

  /** How many trailing messages travel as history. */
  const HistoryLimit: nat := 6

  /** One history entry on the wire: the list `[role, content]`. */
  function WireEntry(m: Message): (e: seq<string>)
    ensures |e| == 2 && e[0] == RoleName(m.role) && e[1] == m.content
  {
    [RoleName(m.role), m.content]
  }

  /** `messages.slice(-6).map(m => [m.role, m.content])`. */
  function HistoryWindow(messages: seq<Message>): (h: seq<seq<string>>)
    ensures |h| == if |messages| < HistoryLimit then |messages| else HistoryLimit
    ensures forall i | 0 <= i < |h| :: h[i] == WireEntry(messages[|messages| - |h| + i])
  {
    var start := if |messages| < HistoryLimit then 0 else |messages| - HistoryLimit;
    seq(|messages| - start, i requires 0 <= i < |messages| - start => WireEntry(messages[start + i]))
  }

  /** Appending one message slides the window by one once it is full: the new
      window is the old one without its oldest entry, plus the new message. */
  lemma {:induction false} HistoryWindowSlides(messages: seq<Message>, m: Message)
    requires |messages| >= HistoryLimit
    ensures HistoryWindow(messages + [m]) == HistoryWindow(messages)[1..] + [WireEntry(m)]
  {
    var a := HistoryWindow(messages + [m]);
    var b := HistoryWindow(messages)[1..] + [WireEntry(m)];
    assert |a| == |b|;
    forall i | 0 <= i < |a| ensures a[i] == b[i] {
      if i < |a| - 1 {
        assert (messages + [m])[|messages| + 1 - HistoryLimit + i] == messages[|messages| - HistoryLimit + i + 1];
      }
    }
  }

  /** The JSON body `handleSend` posts, with the endpoint it posts it to.
      `forceInternetSearch` is `None` when the key is absent from the body. */
  datatype ChatRequest = ChatRequest(
    endpoint: string,
    question: string,
    history: seq<seq<string>>,
    forceInternetSearch: Option<bool>)

  const ChatEndpoint := "/chat"
  const InternetEndpoint := "/chat_with_internet"

  /** The request for `question`: the internet endpoint, carrying the force
      flag, exactly when internet search is on. */
  function BuildRequest(question: string, history: seq<seq<string>>, useInternet: bool, force: bool): (r: ChatRequest)
    ensures r.question == question && r.history == history
    ensures r.endpoint == InternetEndpoint <==> useInternet
    ensures r.endpoint == ChatEndpoint <==> !useInternet
    ensures r.forceInternetSearch.Some? <==> useInternet
    ensures r.forceInternetSearch.Some? ==> r.forceInternetSearch.value == force
  {
    ChatRequest(
      if useInternet then InternetEndpoint else ChatEndpoint,
      question,
      history,
      if useInternet then Some(force) else None)
  }

  /** What the chat request yields: the parsed body's `answer` field, or an
      exception (the connection failed or the body was not JSON). */
  datatype ChatOutcome = Answered(answer: string) | Threw

  /** The content of the one assistant message a send appends. */
  function ReplyText(outcome: ChatOutcome): (text: string)
    ensures outcome.Answered? ==> text == outcome.answer
    ensures outcome.Threw? ==> text == ServerError
  {
    match outcome
    case Answered(answer) => answer
    case Threw => ServerError
  }

  // ---------------------------------------------------------------------------
  // Files, drag and drop
  // ---------------------------------------------------------------------------

  /** A browser `File`: its name and MIME type. */
  datatype File = File(name: string, mime: string)

  /** An entry of `dataTransfer.items`: its kind ("file", "string") and type. */
  datatype DragItem = DragItem(kind: string, mime: string)

  /** `type.startsWith('image/')`. */
  predicate IsImageType(mime: string) {
    "image/" <= mime
  }

  /** The dropped files whose type starts with "image/", in drop order. */
  function ImagesOnly(files: seq<File>): (r: seq<File>)
    ensures |r| <= |files|
  {
    if files == [] then []
    else if IsImageType(files[0].mime) then [files[0]] + ImagesOnly(files[1..])
    else ImagesOnly(files[1..])
  }

  /** The filter keeps exactly the image files: everything it returns is an
      image from the drop, and every image of the drop is returned. */
  lemma {:induction false} ImagesOnlyKeepsImages(files: seq<File>)
    ensures forall i | 0 <= i < |ImagesOnly(files)| :: IsImageType(ImagesOnly(files)[i].mime)
    ensures forall i | 0 <= i < |ImagesOnly(files)| :: ImagesOnly(files)[i] in files
    ensures forall i | 0 <= i < |files| && IsImageType(files[i].mime) :: files[i] in ImagesOnly(files)
    decreases |files|
  {
    if files != [] {
      var rest := files[1..];
      ImagesOnlyKeepsImages(rest);
      var r := ImagesOnly(files);
      forall i | 0 <= i < |r| ensures IsImageType(r[i].mime) && r[i] in files {
        if IsImageType(files[0].mime) && i > 0 {
          assert r[i] == ImagesOnly(rest)[i - 1];
        }
      }
      forall i | 1 <= i < |files| && IsImageType(files[i].mime) ensures files[i] in r {
        assert files[i] == rest[i - 1];
      }
    }
  }

  /** The filter distributes over concatenation, so it keeps the relative
      order of the files it keeps. */
  lemma {:induction false} ImagesOnlyAppend(a: seq<File>, b: seq<File>)
    ensures ImagesOnly(a + b) == ImagesOnly(a) + ImagesOnly(b)
    decreases |a|
  {
    if a != [] {
      assert (a + b)[1..] == a[1..] + b;
      ImagesOnlyAppend(a[1..], b);
    } else {
      assert a + b == b;
    }
  }

  /** A drop of images only keeps every file; a drop with no image keeps none. */
  lemma {:induction false} ImagesOnlyExtremes(files: seq<File>)
    ensures (forall i | 0 <= i < |files| :: IsImageType(files[i].mime)) ==> ImagesOnly(files) == files
    ensures (forall i | 0 <= i < |files| :: !IsImageType(files[i].mime)) ==> ImagesOnly(files) == []
    decreases |files|
  {
    if files != [] {
      ImagesOnlyExtremes(files[1..]);
    }
  }

  /** `items.some(item => item.kind === 'file' && item.type.startsWith('image/'))`.
      It can only hold of a non-empty list, so the length test in front of it
      decides nothing. */
  predicate HasImageFile(items: seq<DragItem>)
    ensures HasImageFile(items) ==> |items| > 0
  {
    exists i | 0 <= i < |items| :: items[i].kind == "file" && IsImageType(items[i].mime)
  }

  // ---------------------------------------------------------------------------
  // Image analysis loop
  // ---------------------------------------------------------------------------

  /** What analysing one image yields: the analysis (with the object URL the
      browser made for the file), a non-ok response, or an exception. */
  datatype ImageOutcome = Analyzed(objectUrl: string, analysis: string) | Rejected | Unreachable

  const AnalyzingStatus := "Analizando imágenes..."
  const ImageConnectionError := "❌ Error de conexión al analizar imágenes."

  /** Status after image `done` of `total` was analysed. */
  function ProgressStatus(done: nat, total: nat): string {
    "✅ Imagen " + NatToString(done) + "/" + NatToString(total) + " analizada correctamente."
  }

  /** Status after image `index` (counted from one) was refused. */
  function RejectedStatus(index: nat): string {
    "❌ Error al analizar la imagen " + NatToString(index) + "."
  }

  /** The chat message that shows an uploaded image. */
  function ImageMessage(objectUrl: string): Message {
    Message(User, "![Imagen subida](" + objectUrl + ")")
  }

  /** The two messages one analysed image adds; nothing for a failure. */
  function PairFor(outcome: ImageOutcome): (ms: seq<Message>)
    ensures outcome.Analyzed? ==> ms == [ImageMessage(outcome.objectUrl), Message(Assistant, outcome.analysis)]
    ensures !outcome.Analyzed? ==> ms == []
  {
    match outcome
    case Analyzed(url, analysis) => [ImageMessage(url), Message(Assistant, analysis)]
    case _ => []
  }

  /** The status line one image's analysis leaves (`index` counts from zero). */
  function StepStatus(index: nat, total: nat, outcome: ImageOutcome): (status: string)
    ensures outcome.Analyzed? ==> status == ProgressStatus(index + 1, total)
    ensures outcome.Rejected? ==> status == RejectedStatus(index + 1)
    ensures outcome.Unreachable? ==> status == ImageConnectionError
  {
    match outcome
    case Analyzed(_, _) => ProgressStatus(index + 1, total)
    case Rejected => RejectedStatus(index + 1)
    case Unreachable => ImageConnectionError
  }

  /** The messages the first `n` outcomes add, in order. */
  function PairsUpTo(outcomes: seq<ImageOutcome>, n: nat): seq<Message>
    requires n <= |outcomes|
  {
    if n == 0 then [] else PairsUpTo(outcomes, n - 1) + PairFor(outcomes[n - 1])
  }

  /** How many images are analysed before the first failure. */
  function Succeeded(outcomes: seq<ImageOutcome>): (k: nat)
    ensures k <= |outcomes|
  {
    if outcomes == [] || !outcomes[0].Analyzed? then 0 else 1 + Succeeded(outcomes[1..])
  }

  /** The count is the length of the leading run of successes: every outcome
      before it is a success and the one at it, if any, is not. */
  lemma {:induction false} SucceededShape(outcomes: seq<ImageOutcome>)
    ensures forall i | 0 <= i < Succeeded(outcomes) :: outcomes[i].Analyzed?
    ensures Succeeded(outcomes) < |outcomes| ==> !outcomes[Succeeded(outcomes)].Analyzed?
    decreases |outcomes|
  {
    if outcomes != [] && outcomes[0].Analyzed? {
      var rest := outcomes[1..];
      SucceededShape(rest);
      forall i | 1 <= i < Succeeded(outcomes) ensures outcomes[i].Analyzed? {
        assert outcomes[i] == rest[i - 1];
      }
    }
  }

  /** A run of n successes adds 2n messages: image i as message 2i, its
      analysis right after it. */
  lemma {:induction false} PairsUpToShape(outcomes: seq<ImageOutcome>, n: nat)
    requires n <= |outcomes|
    requires forall i | 0 <= i < n :: outcomes[i].Analyzed?
    ensures |PairsUpTo(outcomes, n)| == 2 * n
    ensures forall i | 0 <= i < n ::
      PairsUpTo(outcomes, n)[2 * i] == ImageMessage(outcomes[i].objectUrl) &&
      PairsUpTo(outcomes, n)[2 * i + 1] == Message(Assistant, outcomes[i].analysis)
    decreases n
  {
    if n > 0 {
      PairsUpToShape(outcomes, n - 1);
    }
  }

  /** What the image loop appends: exactly two messages per image analysed
      before the first failure, an image followed by its analysis, and none
      for the failing image or any after it. */
  lemma {:induction false} AnalysisAddsTwoPerSuccess(outcomes: seq<ImageOutcome>)
    ensures var k := Succeeded(outcomes);
      && |PairsUpTo(outcomes, k)| == 2 * k
      && forall i | 0 <= i < k ::
           outcomes[i].Analyzed? &&
           PairsUpTo(outcomes, k)[2 * i] == ImageMessage(outcomes[i].objectUrl) &&
           PairsUpTo(outcomes, k)[2 * i + 1] == Message(Assistant, outcomes[i].analysis)
  {
    SucceededShape(outcomes);
    PairsUpToShape(outcomes, Succeeded(outcomes));
  }

  /** The status the loop leaves: the last progress message when every image
      was analysed, otherwise the message of the first failure. Either way it
      is the status of the last image the loop reached. */
  function StatusAfter(outcomes: seq<ImageOutcome>): (status: string)
    requires outcomes != []
    ensures var k := Succeeded(outcomes);
      var last := if k == |outcomes| then k - 1 else k;
      status == StepStatus(last, |outcomes|, outcomes[last])
  {
    SucceededShape(outcomes);
    var k := Succeeded(outcomes);
    if k == |outcomes| then ProgressStatus(k, k) else StepStatus(k, |outcomes|, outcomes[k])
  }
}
