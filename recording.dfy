/** The audio recorder widget: the `MM:SS` clock it shows while recording,
    and its record / stop / transcribe lifecycle as a state machine driven by
    explicit events (start, data available, timer tick, stop, recorder
    stopped). Media access, the recorder and the transcription service are
    represented by their outcomes. */
module Recording {
  import opened Strings

  // ---------------------------------------------------------------------------
  // formatTime
  // ---------------------------------------------------------------------------

  /** `formatTime`: minutes and seconds, each zero-padded to two digits. */
  function FormatTime(seconds: nat): (r: string)
    ensures |r| >= 5
  {
    PadStart(NatToString(seconds / 60), 2, '0') + ":" + PadStart(NatToString(seconds % 60), 2, '0')
  }

  /** The part of a clock before its last three characters (`:SS`). */
  function MinutesPart(t: string): string
    requires |t| >= 3
  {
    t[..|t| - 3]
  }

  /** The last two characters of a clock. */
  function SecondsPart(t: string): string
    requires |t| >= 2
  {
    t[|t| - 2..]
  }

  /** Reads a clock `M…M:SS` back as seconds; `None` unless it has that shape
      with fewer than 60 seconds. */
  function ParseClock(t: string): Option<nat> {
    if |t| >= 4 && t[|t| - 3] == ':' && AllDigits(MinutesPart(t)) && AllDigits(SecondsPart(t))
       && ParseNat(SecondsPart(t)) < 60
    then Some(ParseNat(MinutesPart(t)) * 60 + ParseNat(SecondsPart(t)))
    else None
  }

  /** A padded decimal still reads as the number. */
  lemma ParsePadded(n: nat, width: nat)
    ensures AllDigits(PadStart(NatToString(n), width, '0'))
    ensures ParseNat(PadStart(NatToString(n), width, '0')) == n
  {
    var s := NatToString(n);
    NatToStringDigits(n);
    var p := PadStart(s, width, '0');
    var zeros := p[..|p| - |s|];
    assert p == zeros + s;
    ParseNatLeadingZeros(zeros, s);
    ParseNatToString(n);
  }

  /** A clock assembled as `m:ss` splits back into its two fields. */
  lemma ClockSplit(m: string, s: string)
    requires |s| == 2
    ensures |m + ":" + s| >= 3 && (m + ":" + s)[|m + ":" + s| - 3] == ':'
    ensures MinutesPart(m + ":" + s) == m && SecondsPart(m + ":" + s) == s
  {
    var r := m + ":" + s;
    assert r[..|r| - 3] == m;
    assert r[|r| - 2..] == s;
  }

  /** The minutes field is at least two digits and reads as `seconds / 60`;
      the seconds field is exactly two digits, below 60, and reads as
      `seconds % 60`; the two are separated by a colon. */
  lemma FormatTimeFields(seconds: nat)
    ensures |FormatTime(seconds)| >= 5 && FormatTime(seconds)[|FormatTime(seconds)| - 3] == ':'
    ensures |MinutesPart(FormatTime(seconds))| >= 2
    ensures AllDigits(MinutesPart(FormatTime(seconds)))
    ensures ParseNat(MinutesPart(FormatTime(seconds))) == seconds / 60
    ensures |SecondsPart(FormatTime(seconds))| == 2
    ensures AllDigits(SecondsPart(FormatTime(seconds)))
    ensures ParseNat(SecondsPart(FormatTime(seconds))) == seconds % 60 < 60
  {
    var q, rem := seconds / 60, seconds % 60;
    assert rem < 60;
    var mins := PadStart(NatToString(q), 2, '0');
    var secs := PadStart(NatToString(rem), 2, '0');
    NatToStringLength(rem);
    ParsePadded(q, 2);
    ParsePadded(rem, 2);
    ClockSplit(mins, secs);
    assert FormatTime(seconds) == mins + ":" + secs;
  }

  /** Reading the clock back gives the number of seconds it shows. */
  lemma FormatTimeRoundTrip(seconds: nat)
    ensures ParseClock(FormatTime(seconds)) == Some(seconds)
  {
    FormatTimeFields(seconds);
  }

  /** Exactly `MM:SS` below 100 minutes; the minutes field grows past two
      digits from then on instead of being cut. */
  lemma FormatTimeLength(seconds: nat)
    ensures seconds < 6000 ==> |FormatTime(seconds)| == 5
    ensures seconds >= 6000 ==> |FormatTime(seconds)| > 5
  {
    NatToStringLength(seconds / 60);
    NatToStringLength(seconds % 60);
  }

  // ---------------------------------------------------------------------------
  // Transcription
  // ---------------------------------------------------------------------------

  /** A recorded chunk of audio. */
  datatype Blob = Blob(data: seq<bv8>)

  /** What the transcription request yields: the text of an ok response, the
      `detail` of a non-ok one, or an exception. */
  datatype TranscribeOutcome = Transcribed(text: string) | TranscribeFailed(detail: string) | TranscribeUnreachable

  const TranscriptionErrorPrefix := "Error en la transcripción: "
  const TranscriptionConnectionError := "Error al conectar con el servicio de transcripción."

  /** The one string handed to `onTranscription`. */
  function TranscriptionText(outcome: TranscribeOutcome): (text: string)
    ensures outcome.Transcribed? ==> text == outcome.text
    ensures outcome.TranscribeFailed? ==> text == TranscriptionErrorPrefix + outcome.detail
    ensures outcome.TranscribeUnreachable? ==> text == TranscriptionConnectionError
  {
    match outcome
    case Transcribed(text) => text
    case TranscribeFailed(detail) => TranscriptionErrorPrefix + detail
    case TranscribeUnreachable => TranscriptionConnectionError
  }

  /** The chunks of a delivery that `ondataavailable` keeps: the non-empty
      ones, in arrival order. */
  function Audible(delivered: seq<Blob>): (kept: seq<Blob>)
    ensures |kept| <= |delivered|
    ensures forall i | 0 <= i < |kept| :: |kept[i].data| > 0
  {
    if delivered == [] then []
    else
      var last := delivered[|delivered| - 1];
      Audible(delivered[..|delivered| - 1]) + (if |last.data| > 0 then [last] else [])
  }

  /** One more delivery adds the chunk to the kept ones exactly when it has data. */
  lemma AudibleSnoc(delivered: seq<Blob>, chunk: Blob)
    ensures Audible(delivered + [chunk]) == Audible(delivered) + (if |chunk.data| > 0 then [chunk] else [])
  {
    assert (delivered + [chunk])[..|delivered|] == delivered;
  }

  /** `new Blob(chunks)`: the chunks' bytes, concatenated in order. */
  function Joined(chunks: seq<Blob>): seq<bv8> {
    if chunks == [] then [] else Joined(chunks[..|chunks| - 1]) + chunks[|chunks| - 1].data
  }

  /** Empty chunks add nothing to the recording: keeping only the non-empty
      ones loses no audio. */
  lemma {:induction false} AudibleKeepsAllAudio(delivered: seq<Blob>)
    ensures Joined(Audible(delivered)) == Joined(delivered)
    decreases |delivered|
  {
    if delivered != [] {
      var front := delivered[..|delivered| - 1];
      var last := delivered[|delivered| - 1];
      AudibleKeepsAllAudio(front);
      if |last.data| > 0 {
        var kept := Audible(front) + [last];
        assert kept[..|kept| - 1] == Audible(front);
      } else {
        assert last.data == [];
        assert Audible(delivered) == Audible(front) + [] == Audible(front);
        assert Joined(Audible(delivered)) == Joined(Audible(front));
        assert Joined(delivered) == Joined(front) + last.data == Joined(front);
      }
    }
  }

  class Recorder {
    var isRecording: bool
    var permissionGranted: bool
    var isProcessing: bool
    var recordingTime: nat
    var chunks: seq<Blob>
    var hasRecorder: bool    // mediaRecorderRef.current is set
    var timerSet: bool       // timerRef.current is set
    /** Every chunk delivered since the current recording started. */
    ghost var delivered: seq<Blob>

    /** The buffer holds exactly the non-empty chunks delivered, and the timer
        runs exactly while recording. */
    ghost predicate Valid()
      reads this
    {
      && chunks == Audible(delivered)
      && (isRecording <==> timerSet)
      && (isRecording ==> hasRecorder)
    }

    constructor ()
      ensures Valid()
      ensures !isRecording && !permissionGranted && !isProcessing && recordingTime == 0
      ensures chunks == [] && !hasRecorder && !timerSet
    {
      isRecording, permissionGranted, isProcessing := false, false, false;
      recordingTime := 0;
      chunks, delivered := [], [];
      hasRecorder, timerSet := false, false;
    }

    /** `startRecording`, reached only while not recording (the button calls
        `stopRecording` instead). A no-op when `disabled`. Without permission
        yet, a first microphone request (`probeOk`) must succeed; then the
        stream and recorder (`streamOk`). On success the buffer is emptied,
        the clock reset to 0 and the timer started; on failure only the
        permission may have been granted. */
    method StartRecording(disabled: bool, probeOk: bool, streamOk: bool)
      requires Valid() && !isRecording
      modifies this
      ensures Valid()
      ensures isProcessing == old(isProcessing)
      ensures disabled ==>
        && permissionGranted == old(permissionGranted) && !isRecording && recordingTime == old(recordingTime)
        && chunks == old(chunks) && hasRecorder == old(hasRecorder) && !timerSet
      ensures !disabled ==> permissionGranted == (old(permissionGranted) || probeOk)
      ensures !disabled && (old(permissionGranted) || probeOk) && streamOk ==>
        isRecording && hasRecorder && timerSet && recordingTime == 0 && chunks == []
      ensures !disabled && !((old(permissionGranted) || probeOk) && streamOk) ==>
        && !isRecording && recordingTime == old(recordingTime)
        && chunks == old(chunks) && hasRecorder == old(hasRecorder) && !timerSet
    {
      if disabled {
        return;
      }
      if !permissionGranted {
        if !probeOk {
          return;     // getUserMedia threw: the error is only reported
        }
        permissionGranted := true;
      }
      if !streamOk {
        return;
      }
      chunks := [];
      delivered := [];
      hasRecorder := true;
      isRecording := true;
      recordingTime := 0;
      timerSet := true;
    }

    /** `ondataavailable`: a chunk is kept only when it has data. */
    method DataAvailable(chunk: Blob)
      requires Valid()
      modifies this`chunks, this`delivered
      ensures Valid()
      ensures delivered == old(delivered) + [chunk]
      ensures chunks == if |chunk.data| > 0 then old(chunks) + [chunk] else old(chunks)
    {
      AudibleSnoc(delivered, chunk);
      delivered := delivered + [chunk];
      if |chunk.data| > 0 {
        chunks := chunks + [chunk];
      }
    }

    /** One firing of the one-second interval, which exists only while the
        timer is set. */
    method Tick()
      requires Valid() && timerSet
      modifies this`recordingTime
      ensures Valid()
      ensures recordingTime == old(recordingTime) + 1
    {
      recordingTime := recordingTime + 1;
    }

    /** `stopRecording`: acts only when a recorder exists and recording is on;
        then recording stops, the timer is cleared and the clock reset to 0.
        Returns whether the recorder was told to stop. */
    method StopRecording() returns (stopped: bool)
      requires Valid()
      modifies this`isRecording, this`timerSet, this`recordingTime
      ensures Valid()
      ensures stopped == (old(hasRecorder) && old(isRecording))
      ensures stopped ==> !isRecording && !timerSet && recordingTime == 0
      ensures !stopped ==>
        isRecording == old(isRecording) && timerSet == old(timerSet) && recordingTime == old(recordingTime)
    {
      stopped := hasRecorder && isRecording;
      if stopped {
        isRecording := false;
        timerSet := false;
        recordingTime := 0;
      }
    }

    /** `startTranscription`: hands exactly one string to `onTranscription`
        (the return value) and leaves `isProcessing` false. */
    method StartTranscription(audio: Blob, outcome: TranscribeOutcome) returns (text: string)
      modifies this`isProcessing
      ensures text == TranscriptionText(outcome)
      ensures !isProcessing
    {
      isProcessing := true;
      match outcome {
        case Transcribed(t) => text := t;
        case TranscribeFailed(detail) => text := TranscriptionErrorPrefix + detail;
        case TranscribeUnreachable => text := TranscriptionConnectionError;
      }
      isProcessing := false;
    }

    /** The recorder's `onstop`: the buffered chunks become one blob, which is
        sent for transcription. */
    method RecorderStopped(outcome: TranscribeOutcome) returns (audio: Blob, text: string)
      requires Valid()
      modifies this`isProcessing
      ensures audio == Blob(Joined(chunks))
      ensures Joined(chunks) == Joined(delivered)
      ensures text == TranscriptionText(outcome) && !isProcessing
    {
      AudibleKeepsAllAudio(delivered);
      audio := Blob(Joined(chunks));
      text := StartTranscription(audio, outcome);
    }
  }
}
