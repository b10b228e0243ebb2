/**
 * The voice recorder: a media recorder and an optional speech recogniser run
 * side by side, and one `(audio, transcript)` result is handed to
 * `onRecordingComplete` once both have finished.
 *
 * Each browser callback and each expiring `setTimeout` is one method call:
 * `OnData` (`ondataavailable`), `OnResult` (`onresult`), `RecorderStopped`
 * (`onstop`), `RecorderCheck` (its 200 ms timer), `RecognitionEnded`
 * (`onend`), `RecognitionCheck` (its 100 ms timer). `Start` and `Stop` are
 * the button's two handlers. Callbacks run one at a time, so each method runs
 * to completion; the order in which the browser calls them is free, within
 * what the browser guarantees (each method's `requires`).
 */
module VoiceRecorder {
  import opened Types
  import opened Text

  /** One blob from `ondataavailable`; its size is its length. */
  type Chunk = seq<bv8>

  /** `mediaRecorderRef.current?.state`: no recorder yet, recording, or inactive. */
  datatype RecorderStatus = NoRecorder | Recording | Inactive

  /** One entry of `event.results`: its `isFinal` flag and its first alternative's text. */
  datatype RecognitionResult = RecognitionResult(isFinal: bool, transcript: string)

  /** What `onRecordingComplete` receives. */
  datatype Capture = Capture(audio: seq<bv8>, transcript: string)

  /** `new Blob(chunks)`: the chunks' bytes one after the other. */
  function Concat(chunks: seq<Chunk>): seq<bv8> {
    if chunks == [] then [] else Concat(chunks[..|chunks| - 1]) + chunks[|chunks| - 1]
  }

  /** The final results' texts, in order; interim results contribute nothing. */
  function FinalTranscript(results: seq<RecognitionResult>): string {
    if results == [] then ""
    else
      var last := results[|results| - 1];
      FinalTranscript(results[..|results| - 1]) + (if last.isFinal then last.transcript else "")
  }

  /** `event.results` from `resultIndex` on (nothing when the index is past the end). */
  function FromIndex(results: seq<RecognitionResult>, resultIndex: nat): seq<RecognitionResult> {
    if resultIndex <= |results| then results[resultIndex..] else []
  }

  /** One more result read adds its text if it is final, and nothing otherwise. */
  lemma FinalTranscriptSnoc(results: seq<RecognitionResult>, next: RecognitionResult)
    ensures FinalTranscript(results + [next]) ==
            FinalTranscript(results) + (if next.isFinal then next.transcript else "")
  {
    assert (results + [next])[..|results|] == results;
  }

  /** Results read in two batches add up to the results read at once, in order. */
  lemma {:induction false} FinalTranscriptAppend(a: seq<RecognitionResult>, b: seq<RecognitionResult>)
    ensures FinalTranscript(a + b) == FinalTranscript(a) + FinalTranscript(b)
  {
    if b == [] {
      assert a + b == a;
    } else {
      var last := b[|b| - 1];
      assert (a + b)[..|a + b| - 1] == a + b[..|b| - 1];
      FinalTranscriptAppend(a, b[..|b| - 1]);
    }
  }

  /** A batch of interim results adds nothing to the transcript. */
  lemma {:induction false} FinalTranscriptOfInterim(results: seq<RecognitionResult>)
    requires forall i :: 0 <= i < |results| ==> !results[i].isFinal
    ensures FinalTranscript(results) == ""
  {
    if results != [] {
      FinalTranscriptOfInterim(results[..|results| - 1]);
    }
  }

  class VoiceRecorderState {
    var isRecording: bool
    /** `transcriptRef`: the final text recognised so far in this session. */
    var transcript: string
    /** `audioChunksRef`: the non-empty chunks of this session, in arrival order. */
    var chunks: seq<Chunk>
    var recorder: RecorderStatus
    /** `recognitionRef.current != null`: a recogniser was created in some session. */
    var hasRecognition: bool
    var recorderStopped: bool
    var recognitionStopped: bool
    /** The 200 ms timers set by `onstop` that have not fired, oldest first, each with the blob built then. */
    var recorderChecks: seq<seq<bv8>>
    /** The number of 100 ms timers set by `onend` that have not fired. */
    var recognitionChecks: nat

    /** Every result handed to `onRecordingComplete`, in order. */
    ghost var emitted: seq<Capture>
    /** How many results had been handed over when the current session was reset. */
    ghost var sessionStart: nat
    /** How many of them were handed over since the current session was reset. */
    ghost var sessionEmissions: nat
    /** This session's recorder was started, so its `onstop` will follow a stop. */
    ghost var recorderStarted: bool
    /** `onstop` has fired in this session. */
    ghost var recorderEnded: bool
    /** This session's recogniser is running: its `onend` is still to come. */
    ghost var recognitionLive: bool
    /** This session's recogniser has ended, or the session has none. */
    ghost var recognitionDone: bool

    /**
     * The invariant of the join. A session emits at most once; until it has,
     * the two flags mirror the two streams' ends; and once both flags are set
     * without an emission, a delayed check is still pending that will emit.
     */
    ghost predicate Valid()
      reads this
    {
      && sessionStart + sessionEmissions == |emitted|
      && sessionEmissions <= 1
      && (recorderEnded ==> recorderStarted)
      && (recorderStopped ==> recorder == Inactive && recorderEnded)
      && (recorder == Inactive && recorderStarted && !hasRecognition ==> recognitionDone)
      && (recognitionLive ==> hasRecognition && !recognitionDone)
      && (sessionEmissions == 0 ==>
            && recorderStopped == recorderEnded
            && recognitionStopped == recognitionDone
            && (recorderStopped && recognitionStopped ==> |recorderChecks| > 0 || recognitionChecks > 0))
      && (sessionEmissions == 1 ==> recorderEnded && !recorderStopped)
    }

    /** The session is over: both streams have ended and every delayed check has run. */
    ghost predicate Settled()
      reads this
    {
      recorderEnded && recognitionDone && recorderChecks == [] && recognitionChecks == 0
    }

    constructor ()
      ensures Valid()
      ensures !isRecording && transcript == "" && chunks == [] && recorder == NoRecorder
      ensures !hasRecognition && !recorderStopped && !recognitionStopped
      ensures recorderChecks == [] && recognitionChecks == 0 && emitted == []
    {
      isRecording := false;
      transcript := "";
      chunks := [];
      recorder := NoRecorder;
      hasRecognition := false;
      recorderStopped := false;
      recognitionStopped := false;
      recorderChecks := [];
      recognitionChecks := 0;
      emitted := [];
      sessionStart := 0;
      sessionEmissions := 0;
      recorderStarted := false;
      recorderEnded := false;
      recognitionLive := false;
      recognitionDone := false;
    }

    /**
     * What `tryFinishRecording(audio)` did between the two states: with both
     * flags set it emitted the audio and the trimmed transcript and reset the
     * flags and the transcript; otherwise it changed nothing.
     */
    twostate predicate FinishAttempted(audio: seq<bv8>, new out: Option<Capture>)
      reads this
    {
      if old(recorderStopped && recognitionStopped) then
        && out == Some(Capture(audio, Trim(old(transcript))))
        && !recorderStopped && !recognitionStopped && transcript == ""
        && emitted == old(emitted) + [out.value]
        && sessionEmissions == old(sessionEmissions) + 1
      else
        && out == None
        && recorderStopped == old(recorderStopped) && recognitionStopped == old(recognitionStopped)
        && transcript == old(transcript)
        && emitted == old(emitted) && sessionEmissions == old(sessionEmissions)
    }

    /** `tryFinishRecording`, with `onRecordingComplete` assumed to return normally. */
    method TryFinishRecording(audio: seq<bv8>) returns (out: Option<Capture>)
      requires Valid()
      modifies this`recorderStopped, this`recognitionStopped, this`transcript,
               this`emitted, this`sessionEmissions
      ensures Valid()
      ensures FinishAttempted(audio, out)
    {
      if recorderStopped && recognitionStopped {
        out := Some(Capture(audio, Trim(transcript)));
        emitted := emitted + [out.value];
        sessionEmissions := sessionEmissions + 1;
        recorderStopped := false;
        recognitionStopped := false;
        transcript := "";
      } else {
        out := None;
      }
    }

    /**
     * `startRecording`, which can stop part-way when a call throws.
     * `micGranted` says whether `getUserMedia` and creating the recorder
     * succeeded. Without them nothing changes. Otherwise the new recorder is
     * installed and the chunks, both flags and the transcript are reset. Then:
     * - `recorderStarts` says whether `mediaRecorder.start()` returned. When it
     *   threw, the recorder stays inactive without ever having recorded.
     * - `recognitionAvailable` says whether the browser offers speech recognition.
     * - `recognitionStarts` says whether creating and starting the recogniser
     *   both returned.
     * A throw skips the rest, including `recognitionRef` and `isRecording`.
     * Without recognition, that stream counts as already finished.
     */
    method Start(micGranted: bool, recorderStarts: bool, recognitionAvailable: bool, recognitionStarts: bool)
      requires Valid()
      modifies this`isRecording, this`transcript, this`chunks, this`recorder, this`hasRecognition,
               this`recorderStopped, this`recognitionStopped, this`sessionStart, this`sessionEmissions,
               this`recorderStarted, this`recorderEnded, this`recognitionLive, this`recognitionDone
      ensures Valid()
      ensures !micGranted ==> unchanged(this)
      ensures micGranted ==>
                var recognitionUp := recorderStarts && recognitionAvailable && recognitionStarts;
                var completed := recorderStarts && (!recognitionAvailable || recognitionStarts);
                && recorder == (if recorderStarts then Recording else Inactive)
                && recorderStarted == recorderStarts
                && chunks == [] && transcript == ""
                && !recorderStopped && recognitionStopped == (recorderStarts && !recognitionAvailable)
                && hasRecognition == (old(hasRecognition) || recognitionUp)
                && isRecording == (completed || old(isRecording))
                && sessionStart == |emitted| && sessionEmissions == 0 && !recorderEnded
                && recognitionLive == recognitionUp && recognitionDone == recognitionStopped
    {
      if !micGranted {
        return;
      }
      ResetSession();
      if !recorderStarts {
        return;
      }
      recorder := Recording;
      recorderStarted := true;
      if recognitionAvailable {
        if !recognitionStarts {
          return;
        }
        hasRecognition := true;
        recognitionLive := true;
      } else {
        recognitionStopped := true;
        recognitionDone := true;
      }
      isRecording := true;
    }

    /**
     * The first steps of `startRecording` once the recorder exists: the new,
     * not yet started recorder is installed and the chunks, both flags and the
     * transcript are reset. A new session begins here.
     */
    method ResetSession()
      requires Valid()
      modifies this`transcript, this`chunks, this`recorder, this`recorderStopped, this`recognitionStopped,
               this`sessionStart, this`sessionEmissions, this`recorderStarted, this`recorderEnded,
               this`recognitionLive, this`recognitionDone
      ensures Valid()
      ensures recorder == Inactive && !recorderStarted && chunks == [] && transcript == ""
      ensures !recorderStopped && !recognitionStopped
      ensures sessionStart == |emitted| && sessionEmissions == 0
      ensures !recorderEnded && !recognitionLive && !recognitionDone
    {
      recorder := Inactive;
      chunks := [];
      recorderStopped := false;
      recognitionStopped := false;
      transcript := "";
      sessionStart := |emitted|;
      sessionEmissions := 0;
      recorderStarted := false;
      recorderEnded := false;
      recognitionLive := false;
      recognitionDone := false;
    }

    /**
     * A session whose recorder never started cannot hand anything over: its
     * `onstop` never fires, so the recorder's flag stays clear.
     */
    lemma UnstartedSessionNeverEmits()
      requires Valid() && !recorderStarted
      ensures sessionEmissions == 0 && !recorderStopped
    {
    }

    /** `ondataavailable`: a non-empty chunk is appended; an empty one is dropped. */
    method OnData(chunk: Chunk)
      requires Valid()
      modifies this`chunks
      ensures Valid()
      ensures chunks == old(chunks) + (if |chunk| > 0 then [chunk] else [])
    {
      if |chunk| > 0 {
        chunks := chunks + [chunk];
      }
    }

    /**
     * `onresult`: the final results from `resultIndex` on are appended to the
     * transcript in order; interim ones are only logged. What was there stays
     * a prefix.
     */
    method OnResult(results: seq<RecognitionResult>, resultIndex: nat)
      requires Valid()
      modifies this`transcript
      ensures Valid()
      ensures transcript == old(transcript) + FinalTranscript(FromIndex(results, resultIndex))
      ensures old(transcript) <= transcript
    {
      var finalTranscript := transcript;
      if resultIndex <= |results| {
        var i := resultIndex;
        while i < |results|
          invariant resultIndex <= i <= |results|
          invariant finalTranscript == old(transcript) + FinalTranscript(results[resultIndex..i])
        {
          FinalTranscriptSnoc(results[resultIndex..i], results[i]);
          assert results[resultIndex..i + 1] == results[resultIndex..i] + [results[i]];
          if results[i].isFinal {
            finalTranscript := finalTranscript + results[i].transcript;
          }
          i := i + 1;
        }
        assert results[resultIndex..i] == FromIndex(results, resultIndex);
      } else {
        assert finalTranscript == old(transcript) + FinalTranscript([]);
      }
      assert finalTranscript[..|old(transcript)|] == old(transcript);
      transcript := finalTranscript;
    }

    /**
     * `onstop`. The browser fires it once per session, after the recorder has
     * gone inactive. The recorder's flag is set and a 200 ms check is
     * scheduled with the blob of the chunks so far.
     */
    method RecorderStopped()
      requires Valid() && recorder == Inactive && recorderStarted && !recorderEnded
      modifies this`recorderStopped, this`recorderChecks, this`recorderEnded
      ensures Valid()
      ensures recorderStopped && recorderEnded
      ensures recorderChecks == old(recorderChecks) + [Concat(chunks)]
    {
      recorderStopped := true;
      recorderEnded := true;
      recorderChecks := recorderChecks + [Concat(chunks)];
    }

    /** The 200 ms timer set by `onstop` fires: `tryFinishRecording` with the blob built at `onstop`. */
    method RecorderCheck() returns (out: Option<Capture>)
      requires Valid() && |recorderChecks| > 0
      modifies this`recorderChecks, this`recorderStopped, this`recognitionStopped, this`transcript,
               this`emitted, this`sessionEmissions
      ensures Valid()
      ensures recorderChecks == old(recorderChecks)[1..]
      ensures FinishAttempted(old(recorderChecks)[0], out)
    {
      out := TryFinishRecording(recorderChecks[0]);
      recorderChecks := recorderChecks[1..];
    }

    /**
     * `onend`. The browser fires it once for a running recogniser. The
     * recogniser's flag is set and a 100 ms check is scheduled.
     */
    method RecognitionEnded()
      requires Valid() && recognitionLive
      modifies this`recognitionStopped, this`recognitionChecks, this`recognitionLive, this`recognitionDone
      ensures Valid()
      ensures recognitionStopped && recognitionDone && !recognitionLive
      ensures recognitionChecks == old(recognitionChecks) + 1
    {
      recognitionStopped := true;
      recognitionLive := false;
      recognitionDone := true;
      recognitionChecks := recognitionChecks + 1;
    }

    /**
     * The 100 ms timer set by `onend` fires: if the recorder is inactive,
     * `tryFinishRecording` with a blob of the chunks now; otherwise nothing.
     */
    method RecognitionCheck() returns (out: Option<Capture>)
      requires Valid() && recognitionChecks > 0
      modifies this`recognitionChecks, this`recorderStopped, this`recognitionStopped, this`transcript,
               this`emitted, this`sessionEmissions
      ensures Valid()
      ensures recognitionChecks == old(recognitionChecks) - 1
      ensures recorder == Inactive ==> FinishAttempted(Concat(chunks), out)
      ensures recorder != Inactive ==> out == None && unchanged(this`recorderStopped, this`recognitionStopped,
                                                             this`transcript, this`emitted, this`sessionEmissions)
    {
      if recorder == Inactive {
        out := TryFinishRecording(Concat(chunks));
      } else {
        out := None;
      }
      recognitionChecks := recognitionChecks - 1;
    }

    /**
     * `stopRecording`: asks a recorder that is not yet inactive to stop (its
     * `onstop` follows later); asks the recogniser to stop if there is one
     * (its `onend` follows later), and otherwise marks recognition finished.
     */
    method Stop()
      requires Valid()
      modifies this`recorder, this`recognitionStopped, this`recognitionDone, this`isRecording
      ensures Valid()
      ensures recorder == if old(recorder) == Recording then Inactive else old(recorder)
      ensures recognitionStopped == (old(recognitionStopped) || !hasRecognition)
      ensures recognitionDone == (old(recognitionDone) || !hasRecognition)
      ensures !isRecording
    {
      if recorder != NoRecorder && recorder != Inactive {
        recorder := Inactive;
      }
      if !hasRecognition {
        recognitionStopped := true;
        recognitionDone := true;
      }
      isRecording := false;
    }

    /**
     * Whatever order the callbacks and timers ran in, a session whose two
     * streams have ended and whose checks have all run has emitted exactly
     * once (and `Valid` keeps it from ever emitting twice).
     */
    lemma ExactlyOnce()
      requires Valid() && Settled()
      ensures sessionEmissions == 1
    {
    }
  }

  function AsList(out: Option<Capture>): seq<Capture> {
    if out.Some? then [out.value] else []
  }

  /** A session with recognition that has received one chunk and one batch of results. */
  method RecordOneChunk(chunk: Chunk, results: seq<RecognitionResult>) returns (r: VoiceRecorderState)
    ensures fresh(r) && r.Valid()
    ensures r.recorder == Recording && r.recorderStarted && r.hasRecognition && r.recognitionLive
    ensures !r.recorderStopped && !r.recognitionStopped && !r.recorderEnded && !r.recognitionDone
    ensures r.recorderChecks == [] && r.recognitionChecks == 0 && r.sessionEmissions == 0
    ensures Concat(r.chunks) == Concat(if |chunk| > 0 then [chunk] else [])
    ensures r.transcript == FinalTranscript(results)
  {
    r := new VoiceRecorderState();
    r.Start(true, true, true, true);
    r.OnData(chunk);
    r.OnResult(results, 0);
    assert FromIndex(results, 0) == results;
  }

  /**
   * The recorder ends first: its 200 ms check finds recognition still
   * running and does nothing; recognition then ends and its 100 ms check,
   * seeing the recorder inactive, hands over the one result.
   */
  method RecorderEndsFirst(chunk: Chunk, results: seq<RecognitionResult>) returns (captures: seq<Capture>)
    ensures captures == [Capture(Concat(if |chunk| > 0 then [chunk] else []), Trim(FinalTranscript(results)))]
  {
    var r := RecordOneChunk(chunk, results);
    ghost var audio, text := Concat(r.chunks), r.transcript;
    r.Stop();
    r.RecorderStopped();
    var first := r.RecorderCheck();
    assert first == None;
    assert r.recorderStopped && !r.recognitionStopped && r.recorder == Inactive;
    assert r.transcript == text && audio == Concat(r.chunks);
    r.RecognitionEnded();
    assert r.recorderStopped && r.recognitionStopped && r.recorder == Inactive;
    assert r.transcript == text && audio == Concat(r.chunks);
    var second := r.RecognitionCheck();
    assert second == Some(Capture(audio, Trim(text)));
    captures := AsList(first) + AsList(second);
  }

  /**
   * Recognition ends first, while the recorder is still recording: its
   * 100 ms check sees an active recorder and does nothing; the recorder then
   * stops and its 200 ms check hands over the one result.
   */
  method RecognitionEndsFirst(chunk: Chunk, results: seq<RecognitionResult>) returns (captures: seq<Capture>)
    ensures captures == [Capture(Concat(if |chunk| > 0 then [chunk] else []), Trim(FinalTranscript(results)))]
  {
    var r := RecordOneChunk(chunk, results);
    ghost var audio, text := Concat(r.chunks), r.transcript;
    r.RecognitionEnded();
    var first := r.RecognitionCheck();
    assert first == None;
    assert !r.recorderStopped && r.recognitionStopped && r.recorder == Recording;
    assert r.transcript == text && audio == Concat(r.chunks);
    r.Stop();
    r.RecorderStopped();
    assert r.recorderChecks == [audio];
    assert r.recorderStopped && r.recognitionStopped && r.transcript == text;
    var second := r.RecorderCheck();
    assert second == Some(Capture(audio, Trim(text)));
    captures := AsList(first) + AsList(second);
  }

  /**
   * Both streams end before either check runs: the first check to run hands
   * over the result and the second finds the flags reset.
   */
  method BothEndBeforeChecks(chunk: Chunk, results: seq<RecognitionResult>) returns (captures: seq<Capture>)
    ensures captures == [Capture(Concat(if |chunk| > 0 then [chunk] else []), Trim(FinalTranscript(results)))]
  {
    var r := RecordOneChunk(chunk, results);
    ghost var audio, text := Concat(r.chunks), r.transcript;
    r.Stop();
    r.RecorderStopped();
    r.RecognitionEnded();
    assert r.recorderStopped && r.recognitionStopped && r.recorder == Inactive;
    assert r.transcript == text && audio == Concat(r.chunks) && |r.recorderChecks| == 1;
    var first := r.RecognitionCheck();
    assert first == Some(Capture(audio, Trim(text)));
    assert !r.recorderStopped && !r.recognitionStopped;
    var second := r.RecorderCheck();
    assert second == None;
    captures := AsList(first) + AsList(second);
  }

  /**
   * Without speech recognition, and with no audio captured before the stop,
   * the recorder alone gates the result: one empty capture with an empty
   * transcript.
   */
  method WithoutRecognition() returns (captures: seq<Capture>)
    ensures captures == [Capture([], "")]
  {
    var r := new VoiceRecorderState();
    r.Start(true, true, false, true);
    r.Stop();
    r.RecorderStopped();
    var only := r.RecorderCheck();
    captures := AsList(only);
    r.ExactlyOnce();
  }

  /**
   * A recorder check outlives its session. Suppose the button starts a new
   * session before the first session's check fires, and both of the new
   * session's streams end first. The old check then finds both flags set. It
   * hands over the first session's audio with the second session's transcript.
   */
  method StaleRecorderCheck(first: Chunk, second: Chunk, results: seq<RecognitionResult>)
      returns (out: Option<Capture>)
    ensures out == Some(Capture(Concat(if |first| > 0 then [first] else []), Trim(FinalTranscript(results))))
  {
    var r := FirstSessionStopped(first);
    ghost var audio := r.recorderChecks[0];
    r.Start(true, true, true, true);
    r.OnData(second);
    r.OnResult(results, 0);
    assert FromIndex(results, 0) == results;
    ghost var text := r.transcript;
    assert text == FinalTranscript(results);
    assert r.recorderChecks == [audio];
    r.Stop();
    r.RecorderStopped();
    assert r.recorderChecks[0] == audio && r.transcript == text;
    r.RecognitionEnded();
    assert r.recorderChecks[0] == audio && r.recorderStopped && r.recognitionStopped && r.transcript == text;
    out := r.RecorderCheck();
  }

  /** A session with recognition that recorded one chunk and whose recorder has stopped. */
  method FirstSessionStopped(chunk: Chunk) returns (r: VoiceRecorderState)
    ensures fresh(r) && r.Valid()
    ensures r.recorderChecks == [Concat(if |chunk| > 0 then [chunk] else [])]
  {
    r := new VoiceRecorderState();
    r.Start(true, true, true, true);
    r.OnData(chunk);
    r.Stop();
    r.RecorderStopped();
  }
}
