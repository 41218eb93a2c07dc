/**
 * The recorder page: microphone chunks collected while recording, the
 * upload of the finished recording and its chart, and the play/pause state
 * machine that moves the chart's dot with the audio position.
 */
module Record {
  import opened Common
  import opened Waveform

  /** A `Blob` handed over by `ondataavailable`; only its size matters here. */
  datatype Chunk = Chunk(size: nat)

  /**
   * How the upload of a recording settles: `UploadFailed` when `fetch`
   * rejects or the status is not 2xx (only logged), and also for a 2xx JSON
   * `null` body, where reading `data.waveform_data` throws into the `catch`
   * before any state is set; `Uploaded` with the `waveform_data` of a 2xx
   * JSON object otherwise.
   */
  datatype UploadOutcome = UploadFailed | Uploaded(waveform: Option<WaveformData>)

  class RecordPage {
    var isRecording: bool
    /** `mediaRecorderRef.current` is set. */
    var hasRecorder: bool
    /** `audioChunksRef.current`. */
    var chunks: seq<Chunk>
    /** `audioURL`: the object URL of the last finished recording, named by its chunks. */
    var audioUrl: Option<seq<Chunk>>
    var waveformData: Option<WaveformData>
    var processedData: Option<seq<Point>>
    /** The `"ended"` listener of the mount effect was added to an audio element. */
    var listenerAttached: bool
    var isPlaying: bool
    var currentTime: real
    /** The interval that `intervalRef.current` names is still running. */
    var timerLive: bool
    /** Running intervals that no ref names any more, so no `clearInterval` reaches them. */
    var leakedTimers: nat

    /** Only non-empty chunks are kept, and only an existing recorder records. */
    ghost predicate Valid()
      reads this
    {
      (forall i :: 0 <= i < |chunks| ==> chunks[i].size > 0) &&
      (isRecording ==> hasRecorder)
    }

    /** The `<audio>` element, and so `audioRef.current`, exists once there is an audio URL. */
    predicate HasAudio()
      reads this
    {
      audioUrl.Some?
    }

    /** Some interval is polling the audio position. */
    predicate Polling()
      reads this
    {
      timerLive || leakedTimers > 0
    }

    /** The initial state of every `useState` and `useRef`. */
    constructor ()
      ensures Valid()
      ensures !isRecording && !hasRecorder && chunks == [] && audioUrl == None
      ensures waveformData == None && processedData == None
      ensures !listenerAttached && !isPlaying && currentTime == 0.0 && !Polling()
    {
      isRecording, hasRecorder, chunks, audioUrl := false, false, [], None;
      waveformData, processedData := None, None;
      listenerAttached, isPlaying, currentTime := false, false, 0.0;
      timerLive, leakedTimers := false, 0;
    }

    /**
     * The effect with an empty dependency list: it runs once, after the
     * first render, and adds the `"ended"` listener only if an audio element
     * exists at that moment.
     */
    method MountEffect()
      requires Valid()
      modifies this`listenerAttached
      ensures Valid()
      ensures listenerAttached == (old(listenerAttached) || HasAudio())
    {
      if HasAudio() {
        listenerAttached := true;
      }
    }

    /** `startRecording` once the microphone stream is granted: a new recorder is started. */
    method StartRecording()
      requires Valid()
      modifies this`hasRecorder, this`isRecording
      ensures Valid() && hasRecorder && isRecording
    {
      hasRecorder := true;
      isRecording := true;
    }

    /** `ondataavailable`: a chunk is kept only when its size is positive. */
    method DataAvailable(c: Chunk)
      requires Valid()
      modifies this`chunks
      ensures Valid()
      ensures chunks == if c.size > 0 then old(chunks) + [c] else old(chunks)
    {
      if c.size > 0 {
        chunks := chunks + [c];
      }
    }

    /**
     * `onstop`: the kept chunks become the recording behind the new audio
     * URL (and are returned for upload), and the chunk list is emptied.
     */
    method RecorderStopped() returns (recording: seq<Chunk>)
      requires Valid()
      modifies this`audioUrl, this`chunks
      ensures Valid()
      ensures recording == old(chunks) && audioUrl == Some(recording) && chunks == []
      ensures forall i :: 0 <= i < |recording| ==> recording[i].size > 0
    {
      recording := chunks;
      audioUrl := Some(recording);
      chunks := [];
    }

    /**
     * The continuation of `uploadAudio`. On failure only a log line. On a
     * 2xx body `waveformData` is stored, then the processed records; when
     * `processData` throws, the `catch` leaves `processedData` as it was.
     */
    method UploadSettled(outcome: UploadOutcome)
      requires Valid()
      modifies this`waveformData, this`processedData
      ensures Valid()
      ensures outcome.UploadFailed? ==> waveformData == old(waveformData) && processedData == old(processedData)
      ensures outcome.Uploaded? ==> waveformData == outcome.waveform
      ensures outcome.Uploaded? ==>
                processedData == match ProcessData(outcome.waveform)
                                 case Ok(ps) => Some(ps)
                                 case Err(_) => old(processedData)
    {
      match outcome
      case UploadFailed =>
      case Uploaded(w) =>
        waveformData := w;
        match ProcessData(w)
        case Ok(ps) => processedData := Some(ps);
        case Err(_) =>
    }

    /** `stopRecording`: only an existing recorder is stopped; otherwise nothing changes. */
    method StopRecording()
      requires Valid()
      modifies this`isRecording
      ensures Valid()
      ensures isRecording == (old(isRecording) && !hasRecorder)
    {
      if hasRecorder {
        isRecording := false;
      }
    }

    /**
     * `startPlayback`. With an audio element: pausing clears the interval
     * and keeps `currentTime`; playing resets `currentTime` to 0 and starts
     * a new interval (a still running one is overwritten in the ref and so
     * leaks). `isPlaying` flips in every case, even without an element.
     */
    method StartPlayback()
      requires Valid()
      modifies this`isPlaying, this`currentTime, this`timerLive, this`leakedTimers
      ensures Valid()
      ensures isPlaying == !old(isPlaying)
      ensures !HasAudio() ==> currentTime == old(currentTime) && timerLive == old(timerLive) &&
                              leakedTimers == old(leakedTimers)
      ensures HasAudio() && old(isPlaying) ==> currentTime == old(currentTime) && !timerLive &&
                                               leakedTimers == old(leakedTimers)
      ensures HasAudio() && !old(isPlaying) ==>
                currentTime == 0.0 && timerLive &&
                leakedTimers == old(leakedTimers) + (if old(timerLive) then 1 else 0)
    {
      if HasAudio() {
        if isPlaying {
          timerLive := false;
        } else {
          currentTime := 0.0;
          if timerLive {
            leakedTimers := leakedTimers + 1;
          }
          timerLive := true;
        }
      }
      isPlaying := !isPlaying;
    }

    /** A tick of a running interval: `currentTime` follows the audio position. */
    method TimerTick(position: real)
      requires Valid()
      modifies this`currentTime
      ensures Valid()
      ensures currentTime == if Polling() && HasAudio() then position else old(currentTime)
    {
      if Polling() && HasAudio() {
        currentTime := position;
      }
    }

    /** The `"ended"` listener: stop polling, rewind the dot, stop playing. */
    method EndedListener()
      requires Valid()
      modifies this`timerLive, this`currentTime, this`isPlaying
      ensures Valid()
      ensures !timerLive && currentTime == 0.0 && !isPlaying
    {
      timerLive := false;
      currentTime := 0.0;
      isPlaying := false;
    }

    /**
     * The audio reaches its end: the listener runs if it was attached, and
     * the element's `onEnded` prop sets `isPlaying` to false.
     */
    method AudioEnded()
      requires Valid()
      modifies this`timerLive, this`currentTime, this`isPlaying
      ensures Valid()
      ensures !isPlaying
      ensures listenerAttached ==> !timerLive && currentTime == 0.0
      ensures !listenerAttached ==> timerLive == old(timerLive) && currentTime == old(currentTime)
    {
      if listenerAttached {
        EndedListener();
      }
      isPlaying := false;
    }

    /** The record the moving dot marks, when the chart has records. */
    function Marker(): (m: Option<Point>)
      reads this
      ensures m.Some? <==> processedData.Some? && |processedData.value| > 0
      ensures m.Some? ==> m.value in processedData.value
      ensures m.Some? ==> forall q :: q in processedData.value ==> Distance(m.value, currentTime) <= Distance(q, currentTime)
    {
      if processedData.Some? && |processedData.value| > 0 then
        Some(ClosestPoint(processedData.value, currentTime))
      else None
    }
  }

  /**
   * The page as written: it mounts without an audio element, so the mount
   * effect adds no listener; a recording is made and played, the interval
   * reports a position, and the audio ends. The dot stays at that position
   * and the interval keeps running.
   */
  method EndedListenerMissed(position: real) returns (page: RecordPage)
    ensures fresh(page)
    ensures page.Valid() && !page.listenerAttached && page.HasAudio()
    ensures !page.isPlaying && page.currentTime == position && page.timerLive && page.leakedTimers == 0
  {
    page := new RecordPage();
    page.MountEffect();
    page.StartRecording();
    page.DataAvailable(Chunk(1));
    page.StopRecording();
    var recording := page.RecorderStopped();
    page.StartPlayback();
    page.TimerTick(position);
    page.AudioEnded();
  }

  /**
   * The same session with the effect run again once the audio element
   * exists (an effect that depends on the audio URL): the end of playback
   * rewinds the dot to 0 and stops the interval.
   */
  method EndedListenerAttachedWithAudio(position: real) returns (page: RecordPage)
    ensures page.Valid() && page.listenerAttached
    ensures !page.isPlaying && page.currentTime == 0.0 && !page.timerLive
  {
    page := new RecordPage();
    page.MountEffect();
    page.StartRecording();
    page.DataAvailable(Chunk(1));
    page.StopRecording();
    var recording := page.RecorderStopped();
    page.MountEffect();
    page.StartPlayback();
    page.TimerTick(position);
    page.AudioEnded();
  }

  /**
   * What the missed listener costs next: playing the same recording again
   * starts a second interval while the first still runs, and the first can
   * no longer be cleared.
   */
  method ReplayAfterMissedEndLeaksTimer(position: real) returns (page: RecordPage)
    ensures page.Valid() && page.isPlaying && page.currentTime == 0.0
    ensures page.timerLive && page.leakedTimers == 1
  {
    page := EndedListenerMissed(position);
    page.StartPlayback();
  }
}
