/**
 * The recording session of `AudioRecorder`: microphone capture into a chunk
 * list, a one-second timer, finalisation into a blob with an object URL,
 * local playback, delete, download and save.
 *
 * The browser's media objects are abstracted: a microphone stream and an
 * object URL are numbered handles the recorder allocates; "the tracks of the
 * stream are stopped" is the stream leaving `openStreams`; `revokeObjectURL`
 * is the URL leaving `liveUrls`. Toasts and calls into the caller's
 * callbacks are appended to `effects`.
 */
module AudioRecorder {
  import opened Wrappers
  import Text
  import Clock

  type StreamId = nat
  type ObjectUrl = nat

  /** One `ondataavailable` payload; its size is its number of bytes. */
  datatype Chunk = Chunk(bytes: seq<bv8>) {
    function Size(): nat { |bytes| }
  }

  /** The MIME type the recorder is created with and the blob is labelled with. */
  const RecordingMimeType: string := "audio/webm;codecs=opus"

  /** `new Blob(chunks, { type })`: the accumulated chunks, in order. */
  datatype Blob = Blob(parts: seq<Chunk>, mimeType: string)

  /** The state of the `MediaRecorder` object: `stop()` moves it to Stopping, `onstop` to Inactive. */
  datatype RecorderState = Capturing | Stopping | Inactive

  /**
   * The recorder created by one successful start, with what its handlers
   * close over: the stream and the value `recordingTime` had when start ran.
   */
  datatype Session = Session(stream: StreamId, capturedTime: nat, state: RecorderState)

  datatype Effect =
    | Toast(title: string, destructive: bool)
    | PlayElement
    | PauseElement
    | RevokeUrl(url: ObjectUrl)
    | StartDownload(url: ObjectUrl, filename: string)
    | CallOnSave(blob: Blob, duration: nat)

  /** Events of the hidden `<audio>` element that the recorder listens to. */
  datatype ElementEvent = Ended | Played | Paused

  /** `title.replace(/[^a-z0-9]/gi, '_')`: every character outside [a-zA-Z0-9] becomes '_'. */
  function Sanitize(title: string): (r: string)
    ensures |r| == |title|
    ensures forall i :: 0 <= i < |title| ==> r[i] == (if Text.IsAlnum(title[i]) then title[i] else '_')
  {
    seq(|title|, i requires 0 <= i < |title| => if Text.IsAlnum(title[i]) then title[i] else '_')
  }

  /**
   * The download file name: the sanitised title, or `recording` when the
   * title is missing or empty, followed by `.webm`.
   */
  function DownloadName(title: Option<string>): (r: string)
    ensures |r| >= 5 && r[|r| - 5..] == ".webm"
    ensures forall i :: 0 <= i < |r| - 5 ==> Text.IsAlnum(r[i]) || r[i] == '_'
    ensures Text.Truthy(title) ==>
      |r| == |title.value| + 5 &&
      forall i :: 0 <= i < |title.value| ==> r[i] == (if Text.IsAlnum(title.value[i]) then title.value[i] else '_')
    ensures !Text.Truthy(title) ==> r == "recording.webm"
  {
    var safe := if title.Some? then Sanitize(title.value) else "";
    (if safe != "" then safe else "recording") + ".webm"
  }

  /** The timer display: `formatTime(recordingTime)` and `formatTime(recordingDuration)`. */
  function FormatTime(seconds: nat): (r: string)
    ensures Clock.Parse(r) == Some(seconds) && Clock.Canonical(r)
  {
    Clock.FormatRoundTrip(seconds);
    Clock.Format(seconds)
  }

  class Recorder {
    // React state
    var isRecording: bool
    var isPlaying: bool
    var recordingTime: nat
    var audioBlob: Option<Blob>
    var audioUrl: Option<ObjectUrl>
    var recordingDuration: nat
    // refs and the chunk list the current recorder's handlers share
    var recorder: Option<Session>
    var chunks: seq<Chunk>
    var streamRef: Option<StreamId>
    var timerRunning: bool
    // the browser resources and the log of outside calls
    var openStreams: set<StreamId>
    var liveUrls: set<ObjectUrl>
    var nextStream: nat
    var nextUrl: nat
    var effects: seq<Effect>

    ghost predicate Valid()
      reads this
    {
      && (forall s :: s in openStreams ==> s < nextStream)
      && (forall u :: u in liveUrls ==> u < nextUrl)
      && (streamRef.Some? ==> streamRef.value < nextStream)
      && (recorder.Some? ==> recorder.value.stream < nextStream)
      // a blob and its URL are set together and cleared together; the URL is live
      && (audioBlob.Some? <==> audioUrl.Some?)
      && (audioUrl.Some? ==> audioUrl.value in liveUrls)
      // recording exactly while the recorder captures, and the timer runs exactly then
      && (isRecording <==> recorder.Some? && recorder.value.state == Capturing)
      && (timerRunning <==> isRecording)
      // a recorder that has not finished holds its stream open and in streamRef
      && (recorder.Some? && recorder.value.state != Inactive ==>
            recorder.value.stream in openStreams && streamRef == Some(recorder.value.stream))
      // while a recorder has not finished there is no finished recording
      && (recorder.Some? && recorder.value.state != Inactive ==> audioBlob.None?)
    }

    /** The start button is rendered (`!isRecording`) and enabled (`!audioBlob`). */
    predicate CanStart()
      reads this
    {
      !isRecording && audioBlob.None?
    }

    /** A stopped recorder whose `onstop` has not yet been delivered. */
    predicate FinalizePending()
      reads this
    {
      recorder.Some? && recorder.value.state == Stopping
    }

    constructor ()
      ensures Valid()
      ensures !isRecording && !isPlaying && recordingTime == 0 && recordingDuration == 0
      ensures audioBlob.None? && audioUrl.None? && recorder.None? && streamRef.None?
      ensures chunks == [] && openStreams == {} && liveUrls == {} && effects == []
      ensures nextStream == 0 && nextUrl == 0
    {
      isRecording, isPlaying, recordingTime := false, false, 0;
      audioBlob, audioUrl, recordingDuration := None, None, 0;
      recorder, chunks, streamRef, timerRunning := None, [], None, false;
      openStreams, liveUrls, nextStream, nextUrl := {}, {}, 0, 0;
      effects := [];
    }

    /** `getUserMedia` succeeding: a fresh stream, open and held in `streamRef`. */
    method OpenStream() returns (stream: StreamId)
      requires Valid() && !isRecording && !FinalizePending()
      modifies this`streamRef, this`openStreams, this`nextStream
      ensures Valid()
      ensures stream == old(nextStream) && nextStream == stream + 1
      ensures openStreams == old(openStreams) + {stream} && streamRef == Some(stream)
    {
      stream := nextStream;
      nextStream := nextStream + 1;
      openStreams := openStreams + {stream};
      streamRef := Some(stream);
    }

    /**
     * `startRecording`. `granted` is whether `getUserMedia` yields a stream,
     * `recorderCreated` whether `new MediaRecorder` then succeeds. A refused
     * microphone changes nothing but the failure toast. A recorder that cannot
     * be created leaves the acquired stream in `streamRef` with its tracks
     * running, as the source does.
     */
    method Start(granted: bool, recorderCreated: bool)
      requires Valid() && CanStart() && !FinalizePending()
      modifies this`isRecording, this`recordingTime, this`recorder, this`chunks, this`streamRef
      modifies this`timerRunning, this`openStreams, this`nextStream, this`effects
      ensures Valid()
      ensures !granted ==>
        && isRecording == old(isRecording) && recordingTime == old(recordingTime)
        && recorder == old(recorder) && chunks == old(chunks) && streamRef == old(streamRef)
        && openStreams == old(openStreams)
        && effects == old(effects) + [Toast("Recording failed", true)]
      ensures granted && !recorderCreated ==>
        && !isRecording && recordingTime == old(recordingTime)
        && recorder == old(recorder) && chunks == old(chunks)
        && streamRef == Some(old(nextStream)) && openStreams == old(openStreams) + {old(nextStream)}
        && effects == old(effects) + [Toast("Recording failed", true)]
      ensures granted && recorderCreated ==>
        && isRecording && recordingTime == 0 && chunks == []
        && recorder == Some(Session(old(nextStream), old(recordingTime), Capturing))
        && streamRef == Some(old(nextStream)) && openStreams == old(openStreams) + {old(nextStream)}
        && effects == old(effects) + [Toast("Recording started", false)]
    {
      if !granted {
        effects := effects + [Toast("Recording failed", true)];
        return;
      }
      var stream := OpenStream();
      if !recorderCreated {
        effects := effects + [Toast("Recording failed", true)];
        return;
      }
      chunks := [];
      recorder := Some(Session(stream, recordingTime, Capturing));
      isRecording := true;
      recordingTime := 0;
      timerRunning := true;
      effects := effects + [Toast("Recording started", false)];
    }

    /** One firing of the one-second interval: `recordingTime` goes up by exactly one. */
    method Tick()
      requires Valid()
      modifies this`recordingTime
      ensures Valid()
      ensures recordingTime == old(recordingTime) + (if timerRunning then 1 else 0)
    {
      if timerRunning {
        recordingTime := recordingTime + 1;
      }
    }

    /** `ondataavailable`: a non-empty chunk of an unfinished recorder is appended. */
    method DataAvailable(c: Chunk)
      requires Valid()
      modifies this`chunks
      ensures Valid()
      ensures chunks == if recorder.Some? && recorder.value.state != Inactive && c.Size() > 0
                        then old(chunks) + [c] else old(chunks)
    {
      if recorder.Some? && recorder.value.state != Inactive && c.Size() > 0 {
        chunks := chunks + [c];
      }
    }

    /**
     * `onstop`: the blob is exactly the accumulated chunks, it gets a fresh
     * object URL, the duration becomes the `recordingTime` captured when the
     * recorder was started, and the stream's tracks are stopped.
     */
    method Finalize()
      requires Valid()
      modifies this`audioBlob, this`audioUrl, this`recordingDuration, this`recorder, this`streamRef
      modifies this`openStreams, this`liveUrls, this`nextUrl
      ensures Valid()
      ensures !old(FinalizePending()) ==>
        && audioBlob == old(audioBlob) && audioUrl == old(audioUrl)
        && recordingDuration == old(recordingDuration) && recorder == old(recorder)
        && streamRef == old(streamRef) && openStreams == old(openStreams) && liveUrls == old(liveUrls)
      ensures old(FinalizePending()) ==>
        && audioBlob == Some(Blob(old(chunks), RecordingMimeType))
        && audioUrl == Some(old(nextUrl)) && liveUrls == old(liveUrls) + {old(nextUrl)}
        && recordingDuration == old(recorder).value.capturedTime
        && openStreams == old(openStreams) - {old(recorder).value.stream}
        && streamRef.None?
        && recorder == Some(old(recorder).value.(state := Inactive))
    {
      if recorder.Some? && recorder.value.state == Stopping {
        var session := recorder.value;
        audioBlob := Some(Blob(chunks, RecordingMimeType));
        var url := nextUrl;
        nextUrl := nextUrl + 1;
        liveUrls := liveUrls + {url};
        audioUrl := Some(url);
        recordingDuration := session.capturedTime;
        openStreams := openStreams - {session.stream};
        streamRef := None;
        recorder := Some(session.(state := Inactive));
      }
    }

    /** `stopRecording`: acts only while a recorder exists and `isRecording` holds. */
    method Stop()
      requires Valid()
      modifies this`recorder, this`isRecording, this`timerRunning, this`effects
      ensures Valid()
      ensures !old(isRecording) ==> recorder == old(recorder) && effects == old(effects)
      ensures old(isRecording) ==>
        && !isRecording && !timerRunning
        && recorder == Some(old(recorder).value.(state := Stopping))
        && effects == old(effects) + [Toast("Recording stopped", false)]
    {
      if recorder.Some? && isRecording {
        recorder := Some(recorder.value.(state := Stopping));
        isRecording := false;
        timerRunning := false;
        effects := effects + [Toast("Recording stopped", false)];
      }
    }

    /** `playRecording`: with a recording, pause it when playing, play it otherwise. */
    method Play()
      requires Valid()
      modifies this`isPlaying, this`effects
      ensures Valid()
      ensures old(audioUrl).None? ==> isPlaying == old(isPlaying) && effects == old(effects)
      ensures old(audioUrl).Some? ==>
        isPlaying == !old(isPlaying) &&
        effects == old(effects) + [if old(isPlaying) then PauseElement else PlayElement]
    {
      if audioUrl.Some? {
        if isPlaying {
          effects := effects + [PauseElement];
          isPlaying := false;
        } else {
          effects := effects + [PlayElement];
          isPlaying := true;
        }
      }
    }

    /** The `<audio>` element's `onEnded`, `onPlay` and `onPause` props (rendered only with a URL). */
    method OnElementEvent(e: ElementEvent)
      requires Valid()
      modifies this`isPlaying
      ensures Valid()
      ensures isPlaying == if audioUrl.Some? then e == Played else old(isPlaying)
    {
      if audioUrl.Some? {
        isPlaying := e == Played;
      }
    }

    /** The state `deleteRecording` leaves behind. */
    predicate Cleared()
      reads this
    {
      audioBlob.None? && audioUrl.None? && recordingDuration == 0 && recordingTime == 0 && !isPlaying
    }

    /**
     * `deleteRecording`: revokes the URL only when one is set, then clears the
     * recording. A second call finds no URL, so it revokes nothing and changes
     * nothing but the toast log.
     */
    method Delete()
      requires Valid() && !FinalizePending()
      modifies this`audioBlob, this`audioUrl, this`recordingDuration, this`recordingTime, this`isPlaying
      modifies this`liveUrls, this`effects
      ensures Valid() && Cleared()
      ensures old(audioUrl).Some? ==>
        liveUrls == old(liveUrls) - {old(audioUrl).value} &&
        effects == old(effects) + [RevokeUrl(old(audioUrl).value), Toast("Recording deleted", false)]
      ensures old(audioUrl).None? ==>
        liveUrls == old(liveUrls) && effects == old(effects) + [Toast("Recording deleted", false)]
    {
      if audioUrl.Some? {
        liveUrls := liveUrls - {audioUrl.value};
        effects := effects + [RevokeUrl(audioUrl.value)];
      }
      audioBlob, audioUrl := None, None;
      recordingDuration, recordingTime := 0, 0;
      isPlaying := false;
      effects := effects + [Toast("Recording deleted", false)];
    }

    /** `downloadRecording`: with a blob and its URL, download it under `DownloadName(poemTitle)`. */
    method Download(poemTitle: Option<string>)
      requires Valid()
      modifies this`effects
      ensures Valid()
      ensures old(audioBlob).None? ==> effects == old(effects)
      ensures old(audioBlob).Some? ==>
        effects == old(effects) + [StartDownload(audioUrl.value, DownloadName(poemTitle)),
                                   Toast("Download started", false)]
    {
      if audioBlob.Some? && audioUrl.Some? {
        effects := effects + [StartDownload(audioUrl.value, DownloadName(poemTitle)),
                              Toast("Download started", false)];
      }
    }

    /** `saveRecording`: calls `onSave(audioBlob, recordingDuration)` iff both a blob and `onSave` exist. */
    method Save(hasOnSave: bool)
      requires Valid()
      modifies this`effects
      ensures Valid()
      ensures !(old(audioBlob).Some? && hasOnSave) ==> effects == old(effects)
      ensures old(audioBlob).Some? && hasOnSave ==>
        effects == old(effects) + [CallOnSave(audioBlob.value, recordingDuration),
                                   Toast("Recording saved", false)]
    {
      if audioBlob.Some? && hasOnSave {
        effects := effects + [CallOnSave(audioBlob.value, recordingDuration),
                              Toast("Recording saved", false)];
      }
    }
  }

  /**
   * A fresh recorder, started, after `ticks` firings of the timer: still
   * recording the one open stream, no chunk yet, the timer showing `ticks`.
   */
  method RecordFor(ticks: nat) returns (r: Recorder)
    ensures fresh(r) && r.Valid()
    ensures r.isRecording && r.recordingTime == ticks && r.chunks == []
    ensures r.recorder == Some(Session(0, 0, Capturing)) && r.openStreams == {0}
  {
    r := new Recorder();
    r.Start(true, true);
    var i := 0;
    while i < ticks
      invariant 0 <= i <= ticks
      invariant r.Valid() && r.isRecording && r.timerRunning
      invariant r.recordingTime == i && r.chunks == []
      invariant r.recorder == Some(Session(0, 0, Capturing)) && r.openStreams == {0}
    {
      r.Tick();
      i := i + 1;
    }
  }

  /**
   * A whole session on a fresh recorder: start, `ticks` timer firings, one
   * chunk, stop, finalize. The timer shows `ticks`, but the stored duration
   * is the `recordingTime` the start handler captured, which is 0.
   */
  method SessionDuration(ticks: nat, c: Chunk) returns (shown: nat, duration: nat, parts: seq<Chunk>, streamsOpen: nat)
    requires c.Size() > 0
    ensures shown == ticks
    ensures duration == 0
    ensures parts == [c]
    ensures streamsOpen == 0
  {
    var r := RecordFor(ticks);
    r.DataAvailable(c);
    r.Stop();
    r.Finalize();
    shown, duration, parts := r.recordingTime, r.recordingDuration, r.audioBlob.value.parts;
    streamsOpen := |r.openStreams|;
  }
}
