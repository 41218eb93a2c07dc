/**
 * The state of the YouTube audio processor: the link typed by the user, the
 * chart records and audio URL of the last successful fetch, and the
 * `isPlaying`, `loading` and `hasFetched` flags.
 */
module AudioProcessor {
  import opened Common
  import opened Waveform

  /**
   * How the request of `fetchData` settles: `Rejected` when `fetch` rejects,
   * the status is not 2xx, or the body is not JSON; `Resolved` with the
   * parsed body otherwise (`None` for a JSON `null`).
   */
  datatype FetchOutcome = Rejected | Resolved(body: Option<Response>)

  class AudioProcessorState {
    var youtubeLink: string
    var data: seq<Point>
    /** `None` is `undefined`, which `result.audio_file_url` yields when the body lacks it. */
    var audioUrl: Option<string>
    var isPlaying: bool
    var loading: bool
    var hasFetched: bool

    /** The initial state of every `useState`. */
    constructor ()
      ensures youtubeLink == "" && data == [] && audioUrl == Some("")
      ensures !isPlaying && !loading && !hasFetched
    {
      youtubeLink := "";
      data := [];
      audioUrl := Some("");
      isPlaying := false;
      loading := false;
      hasFetched := false;
    }

    /** `setYoutubeLink`, bound to the input box. */
    method SetYoutubeLink(link: string)
      modifies this`youtubeLink
      ensures youtubeLink == link
    {
      youtubeLink := link;
    }

    /**
     * The synchronous start of `fetchData`: nothing happens for an empty
     * link; otherwise `loading` and `hasFetched` become true before the
     * request is sent.
     */
    method FetchStart() returns (started: bool)
      modifies this
      ensures started <==> old(youtubeLink) != ""
      ensures !started ==> unchanged(this)
      ensures started ==> loading && hasFetched
      ensures youtubeLink == old(youtubeLink) && data == old(data) && audioUrl == old(audioUrl)
      ensures isPlaying == old(isPlaying)
    {
      if youtubeLink == "" { return false; }
      loading := true;
      hasFetched := true;
      started := true;
    }

    /**
     * The continuation of `fetchData` once the request settles. On
     * rejection only `loading` is cleared. On a JSON body the processed
     * records are stored; then `result.audio_file_url` is stored, except for
     * a `null` body, where reading it throws inside the `try` (after `data`
     * was already set to `[]`) and the URL keeps its value.
     */
    method FetchSettle(outcome: FetchOutcome)
      modifies this`data, this`audioUrl, this`loading
      ensures !loading
      ensures outcome.Rejected? ==> data == old(data) && audioUrl == old(audioUrl)
      ensures outcome.Resolved? ==> data == ProcessWaveform(outcome.body)
      ensures outcome.Resolved? && outcome.body.None? ==> audioUrl == old(audioUrl)
      ensures outcome.Resolved? && outcome.body.Some? ==> audioUrl == outcome.body.value.audioFileUrl
    {
      match outcome
      case Rejected =>
        loading := false;
      case Resolved(body) =>
        data := ProcessWaveform(body);
        if body.Some? {
          audioUrl := body.value.audioFileUrl;
        }
        loading := false;
    }

    /**
     * `fetchData` run to completion: with an empty link nothing changes;
     * otherwise `hasFetched` is true, `loading` is false again, and `data`
     * and `audioUrl` are as the settled request leaves them.
     */
    method FetchData(outcome: FetchOutcome) returns (started: bool)
      modifies this
      ensures started <==> old(youtubeLink) != ""
      ensures !started ==> unchanged(this)
      ensures started ==> hasFetched && !loading
      ensures started && outcome.Rejected? ==> data == old(data) && audioUrl == old(audioUrl)
      ensures started && outcome.Resolved? ==> data == ProcessWaveform(outcome.body)
      ensures started && outcome == Resolved(None) ==> audioUrl == old(audioUrl)
      ensures started && outcome.Resolved? && outcome.body.Some? ==>
                audioUrl == outcome.body.value.audioFileUrl
      ensures youtubeLink == old(youtubeLink) && isPlaying == old(isPlaying)
    {
      started := FetchStart();
      if started {
        FetchSettle(outcome);
      }
    }

    /**
     * `toggleAudio`: with an `#audioPlayer` element it flips `isPlaying`;
     * without one, `audio.pause()` / `audio.play()` throws before the flag is
     * set, and nothing changes.
     */
    method ToggleAudio(elementPresent: bool) returns (threw: bool)
      modifies this`isPlaying
      ensures threw <==> !elementPresent
      ensures isPlaying == if elementPresent then !old(isPlaying) else old(isPlaying)
    {
      if !elementPresent { return true; }
      isPlaying := !isPlaying;
      threw := false;
    }

    /** `handleAudioEnd`, the `onEnded` handler of the audio element. */
    method HandleAudioEnd()
      modifies this`isPlaying
      ensures !isPlaying
    {
      isPlaying := false;
    }
  }

  /**
   * A session: type a link, fetch a waveform successfully, play and let the
   * audio end. The chart then holds one record per sample and playback is off.
   */
  method FetchThenPlay(link: string, t: seq<real>, d: seq<real>, url: string) returns (p: AudioProcessorState)
    requires link != "" && |d| == |t|
    ensures p.hasFetched && !p.loading && !p.isPlaying
    ensures |p.data| == |t| && p.audioUrl == Some(url)
    ensures forall i :: 0 <= i < |t| ==> p.data[i] == Point(t[i], Some(d[i]))
  {
    p := new AudioProcessorState();
    p.SetYoutubeLink(link);
    var started := p.FetchData(Resolved(Some(Response(Some(WaveformData(Items(t), Items(d))), Some(url)))));
    var threw := p.ToggleAudio(true);
    assert p.isPlaying;
    p.HandleAudioEnd();
  }
}
