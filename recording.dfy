/**
 * The recording/download flow of app/page.tsx (`handleDownload`,
 * `startRecording` and the handlers it installs) as an event machine over
 * the flags and the chunk buffer. The media APIs are the environment: they
 * deliver the events, and only what the handlers do to the page's state is
 * modelled.
 */
module Recording {

  newtype byte = x: int | 0 <= x < 256

  /** One `dataavailable` payload. */
  type Chunk = seq<byte>

  /** `mediaRecorderRef.current`: none yet, or a recorder that is inactive or recording. */
  datatype RecorderState = NoRecorder | Inactive | Recording

  /** The notifications the flow raises through `toast`. */
  datatype Notice = DownloadComplete | MicrophoneAccessError | GenerationError

  /**
   * How the synchronous part of `startRecording` ends: the microphone
   * request is issued, or `new AudioContext()` (line 205) throws, or the
   * call into `navigator.mediaDevices` (line 212) throws. Both throws are
   * caught by `handleDownload`.
   */
  datatype StartOutcome = Requested | AudioContextThrows | MediaDevicesThrows

  /**
   * The page's part in the flow. The three counters stand for host
   * callbacks still to come: microphone requests not yet answered, deadline
   * timers not yet fired, and `stop()` calls whose `onstop` has not run.
   * `downloads` records the bytes of every blob handed to the browser.
   */
  datatype Controller = Controller(
    isGenerating: bool,
    showRecordingAlert: bool,
    recorder: RecorderState,
    chunks: seq<Chunk>,
    pendingPermissions: nat,
    pendingTimers: nat,
    pendingStops: nat,
    downloads: seq<seq<byte>>,
    notices: seq<Notice>)

  const Initial: Controller := Controller(false, false, NoRecorder, [], 0, 0, 0, [], [])

  datatype Event =
    | DownloadClicked(text: string, isPlaying: bool, outcome: StartOutcome)
    | PermissionGranted
    | PermissionDenied
    | DataAvailable(chunk: Chunk)
    | DeadlineFired
    | RecorderEnded
    | RecorderStopped

  /** `new Blob(chunks)`: the chunks' bytes, one after another. */
  function Blob(chunks: seq<Chunk>): (r: seq<byte>)
    ensures chunks == [] ==> r == []
    ensures |chunks| == 1 ==> r == chunks[0]
  {
    if chunks == [] then [] else Blob(chunks[..|chunks| - 1]) + chunks[|chunks| - 1]
  }

  /** The blob of a buffer extended by one chunk extends the blob by that chunk's bytes. */
  lemma BlobAppend(chunks: seq<Chunk>, more: seq<Chunk>)
    ensures Blob(chunks + more) == Blob(chunks) + Blob(more)
    decreases |more|
  {
    if more == [] {
      assert chunks + more == chunks;
    } else {
      var init := more[..|more| - 1];
      assert (chunks + more)[..|chunks + more| - 1] == chunks + init;
      assert (chunks + more)[|chunks + more| - 1] == more[|more| - 1];
      BlobAppend(chunks, init);
    }
  }

  // ---------------------------------------------------------------------
  // Handlers, one per event

  /** `handleDownload`: nothing for empty text; otherwise generating, buffer reset, microphone requested. */
  function Download(s: Controller, text: string, outcome: StartOutcome): (r: Controller)
    ensures text == "" ==> r == s
    ensures text != "" && outcome == Requested ==>
      r.isGenerating && r.chunks == [] && r.pendingPermissions == s.pendingPermissions + 1
      && r.notices == s.notices
    ensures text != "" && outcome != Requested ==>
      !r.isGenerating && r.notices == s.notices + [GenerationError] && r.pendingPermissions == s.pendingPermissions
    ensures text != "" && outcome == MediaDevicesThrows ==> r.chunks == []
    ensures text != "" && outcome == AudioContextThrows ==> r.chunks == s.chunks
    ensures r.recorder == s.recorder && r.showRecordingAlert == s.showRecordingAlert
    ensures r.pendingTimers == s.pendingTimers && r.pendingStops == s.pendingStops && r.downloads == s.downloads
  {
    if text == "" then s
    else
      match outcome
      case Requested =>
        s.(isGenerating := true, chunks := [], pendingPermissions := s.pendingPermissions + 1)
      case AudioContextThrows =>
        s.(isGenerating := false, notices := s.notices + [GenerationError])
      case MediaDevicesThrows =>
        s.(isGenerating := false, chunks := [], notices := s.notices + [GenerationError])
  }

  /** The `.then` of `getUserMedia`: a recording recorder, the alert shown, a deadline timer set. */
  function Granted(s: Controller): (r: Controller)
    requires s.pendingPermissions > 0
    ensures r.recorder == Recording && r.showRecordingAlert
    ensures r.pendingPermissions == s.pendingPermissions - 1 && r.pendingTimers == s.pendingTimers + 1
    ensures r.chunks == s.chunks && r.isGenerating == s.isGenerating
    ensures r.pendingStops == s.pendingStops && r.downloads == s.downloads && r.notices == s.notices
  {
    s.(recorder := Recording, showRecordingAlert := true,
       pendingPermissions := s.pendingPermissions - 1, pendingTimers := s.pendingTimers + 1)
  }

  /** The `.catch` of `getUserMedia`: generation over, one microphone error notice. */
  function Denied(s: Controller): (r: Controller)
    requires s.pendingPermissions > 0
    ensures !r.isGenerating && r.notices == s.notices + [MicrophoneAccessError]
    ensures r.pendingPermissions == s.pendingPermissions - 1
    ensures r.recorder == s.recorder && r.chunks == s.chunks && r.showRecordingAlert == s.showRecordingAlert
    ensures r.pendingTimers == s.pendingTimers && r.pendingStops == s.pendingStops && r.downloads == s.downloads
  {
    s.(isGenerating := false, notices := s.notices + [MicrophoneAccessError],
       pendingPermissions := s.pendingPermissions - 1)
  }

  /** `ondataavailable`: the chunk goes at the end of the buffer. */
  function DataArrived(s: Controller, c: Chunk): (r: Controller)
    ensures r.chunks == s.chunks + [c]
    ensures r.(chunks := s.chunks) == s
  {
    s.(chunks := s.chunks + [c])
  }

  /** The deadline timer: `stop()` only while the recorder is recording. */
  function Fired(s: Controller): (r: Controller)
    requires s.pendingTimers > 0
    ensures r.pendingTimers == s.pendingTimers - 1
    ensures s.recorder == Recording ==> r.recorder == Inactive && r.pendingStops == s.pendingStops + 1
    ensures s.recorder != Recording ==> r.recorder == s.recorder && r.pendingStops == s.pendingStops
    ensures r.chunks == s.chunks && r.isGenerating == s.isGenerating && r.showRecordingAlert == s.showRecordingAlert
    ensures r.downloads == s.downloads && r.notices == s.notices && r.pendingPermissions == s.pendingPermissions
  {
    if s.recorder == Recording then
      s.(pendingTimers := s.pendingTimers - 1, recorder := Inactive, pendingStops := s.pendingStops + 1)
    else
      s.(pendingTimers := s.pendingTimers - 1)
  }

  /**
   * The recorder stops by itself (its tracks ended, or it failed): it goes
   * inactive and will run `onstop`, while the deadline timer stays pending.
   */
  function Ended(s: Controller): (r: Controller)
    requires s.recorder == Recording
    ensures r.recorder == Inactive && r.pendingStops == s.pendingStops + 1
    ensures r.pendingTimers == s.pendingTimers
    ensures r.chunks == s.chunks && r.isGenerating == s.isGenerating && r.showRecordingAlert == s.showRecordingAlert
    ensures r.downloads == s.downloads && r.notices == s.notices && r.pendingPermissions == s.pendingPermissions
  {
    s.(recorder := Inactive, pendingStops := s.pendingStops + 1)
  }

  /** `onstop`: the buffered chunks are downloaded as one blob, generation ends, the alert hides. */
  function Stopped(s: Controller): (r: Controller)
    requires s.pendingStops > 0
    ensures r.downloads == s.downloads + [Blob(s.chunks)]
    ensures !r.isGenerating && !r.showRecordingAlert
    ensures r.notices == s.notices + [DownloadComplete]
    ensures r.pendingStops == s.pendingStops - 1
    ensures r.chunks == s.chunks && r.recorder == s.recorder
    ensures r.pendingPermissions == s.pendingPermissions && r.pendingTimers == s.pendingTimers
  {
    s.(downloads := s.downloads + [Blob(s.chunks)], isGenerating := false, showRecordingAlert := false,
       notices := s.notices + [DownloadComplete], pendingStops := s.pendingStops - 1)
  }

  // ---------------------------------------------------------------------
  // The machine

  /**
   * When an event can happen. The host answers only outstanding requests,
   * fires only set timers, stops by itself only a recording recorder, runs
   * `onstop` only after a stop, and delivers data only from a recorder that
   * records or is flushing after a stop. A download click needs the button
   * enabled (line 487).
   */
  predicate Enabled(s: Controller, e: Event): (b: bool)
    ensures b && (e.DataAvailable? || e.RecorderEnded?) ==> s.recorder == Recording || s.pendingStops > 0
    ensures b && e.DownloadClicked? ==> !s.isGenerating && e.text != ""
  {
    match e
    case DownloadClicked(text, isPlaying, _) => DownloadEnabled(text, s.isGenerating, isPlaying)
    case PermissionGranted => s.pendingPermissions > 0
    case PermissionDenied => s.pendingPermissions > 0
    case DataAvailable(_) => s.recorder == Recording || s.pendingStops > 0
    case DeadlineFired => s.pendingTimers > 0
    case RecorderEnded => s.recorder == Recording
    case RecorderStopped => s.pendingStops > 0
  }

  /** `disabled={!text || isGenerating || isPlaying}` on the download button, negated. */
  predicate DownloadEnabled(text: string, isGenerating: bool, isPlaying: bool): (b: bool)
    ensures b ==> text != ""
    ensures isGenerating || isPlaying ==> !b
  {
    text != "" && !isGenerating && !isPlaying
  }

  /** One event's handler. Only `onstop` downloads, and only data events and a click touch the buffer. */
  function Step(s: Controller, e: Event): (r: Controller)
    requires Enabled(s, e)
    ensures r.downloads != s.downloads ==> e.RecorderStopped?
    ensures r.chunks != s.chunks ==> e.DataAvailable? || e.DownloadClicked?
    ensures r.notices != s.notices ==> e.RecorderStopped? || e.PermissionDenied? || e.DownloadClicked?
  {
    match e
    case DownloadClicked(text, _, outcome) => Download(s, text, outcome)
    case PermissionGranted => Granted(s)
    case PermissionDenied => Denied(s)
    case DataAvailable(c) => DataArrived(s, c)
    case DeadlineFired => Fired(s)
    case RecorderEnded => Ended(s)
    case RecorderStopped => Stopped(s)
  }

  predicate ValidTrace(s: Controller, es: seq<Event>)
    decreases |es|
  {
    es == [] || (Enabled(s, es[0]) && ValidTrace(Step(s, es[0]), es[1..]))
  }

  function Run(s: Controller, es: seq<Event>): Controller
    requires ValidTrace(s, es)
    decreases |es|
  {
    if es == [] then s else Run(Step(s, es[0]), es[1..])
  }

  /**
   * While the download button gates the flow there is one session at a time:
   * `isGenerating` holds exactly while one microphone request, one recording
   * recorder or one pending `onstop` exists; a recording recorder has its
   * deadline timer still pending; the alert shows exactly from grant to
   * `onstop`. Timers of earlier sessions may still be pending: a recorder
   * that stopped by itself leaves its timer behind.
   */
  predicate Inv(s: Controller)
  {
    && s.pendingPermissions <= 1 && s.pendingStops <= 1
    && (s.isGenerating <==>
         s.pendingPermissions + (if s.recorder == Recording then 1 else 0) + s.pendingStops == 1)
    && (!s.isGenerating ==>
         s.pendingPermissions == 0 && s.recorder != Recording && s.pendingStops == 0)
    && (s.recorder == Recording ==> s.pendingTimers >= 1)
    && (s.showRecordingAlert <==> s.recorder == Recording || s.pendingStops == 1)
  }

  lemma StepKeepsInv(s: Controller, e: Event)
    requires Inv(s) && Enabled(s, e)
    ensures Inv(Step(s, e))
  {
  }

  lemma {:induction false} RunKeepsInv(s: Controller, es: seq<Event>)
    requires Inv(s) && ValidTrace(s, es)
    ensures Inv(Run(s, es))
    decreases |es|
  {
    if es != [] {
      StepKeepsInv(s, es[0]);
      RunKeepsInv(Step(s, es[0]), es[1..]);
    }
  }

  /** The page starts in the invariant, so every gated run stays in it. */
  lemma ReachableKeepsInv(es: seq<Event>)
    requires ValidTrace(Initial, es)
    ensures Inv(Run(Initial, es))
  {
    RunKeepsInv(Initial, es);
  }

  /** A second download click while a session is running is not possible. */
  lemma NoSecondSession(s: Controller, text: string, isPlaying: bool, outcome: StartOutcome)
    requires Inv(s)
    requires s.pendingPermissions > 0 || s.recorder == Recording || s.pendingStops > 0
    ensures !Enabled(s, DownloadClicked(text, isPlaying, outcome))
  {
  }

  /** After a denial nothing of the session is left: no timer added, no recorder running, no alert. */
  lemma DenialLeavesNothing(s: Controller)
    requires Inv(s) && s.pendingPermissions > 0
    ensures Inv(Denied(s))
    ensures Denied(s).pendingTimers == s.pendingTimers && Denied(s).recorder != Recording
    ensures !Denied(s).showRecordingAlert && Denied(s).downloads == s.downloads
    ensures Denied(s).pendingPermissions == 0 && Denied(s).pendingStops == 0
  {
  }

  /** Only `onstop`, a denial or a failed start end a running generation. */
  lemma GenerationEnds(s: Controller, e: Event)
    requires Enabled(s, e) && s.isGenerating && !Step(s, e).isGenerating
    ensures e.RecorderStopped? || e.PermissionDenied? || (e.DownloadClicked? && e.outcome != Requested)
  {
  }

  /**
   * An event adds at most one pending `onstop`, and only by stopping a
   * recording recorder: the deadline's `stop()` or the recorder's own end.
   */
  lemma StopOnlyWhileRecording(s: Controller, e: Event)
    requires Enabled(s, e)
    ensures Step(s, e).pendingStops <= s.pendingStops + 1
    ensures Step(s, e).pendingStops == s.pendingStops + 1 ==>
      (e.DeadlineFired? || e.RecorderEnded?) && s.recorder == Recording
  {
  }

  /** One `dataavailable` event per chunk, in order. */
  function DataEvents(cs: seq<Chunk>): seq<Event>
  {
    if cs == [] then [] else [DataAvailable(cs[0])] + DataEvents(cs[1..])
  }

  /** While recording or flushing after a stop, the data events append their chunks in delivery order. */
  lemma {:induction false} DataRun(s: Controller, cs: seq<Chunk>)
    requires s.recorder == Recording || s.pendingStops > 0
    ensures ValidTrace(s, DataEvents(cs))
    ensures Run(s, DataEvents(cs)) == s.(chunks := s.chunks + cs)
    decreases |cs|
  {
    if cs != [] {
      var s' := DataArrived(s, cs[0]);
      var rest := DataEvents(cs[1..]);
      DataRun(s', cs[1..]);
      assert DataEvents(cs) == [DataAvailable(cs[0])] + rest;
      RunCons(s, DataAvailable(cs[0]), rest);
      calc {
        Run(s, DataEvents(cs));
        Run(s', rest);
        s'.(chunks := s'.chunks + cs[1..]);
        { assert s'.chunks + cs[1..] == s.chunks + cs; }
        s.(chunks := s.chunks + cs);
      }
    }
  }

  /** A run that starts with an enabled event continues from that event's step. */
  lemma RunCons(s: Controller, e: Event, rest: seq<Event>)
    requires Enabled(s, e) && ValidTrace(Step(s, e), rest)
    ensures ValidTrace(s, [e] + rest)
    ensures Run(s, [e] + rest) == Run(Step(s, e), rest)
  {
    assert ([e] + rest)[0] == e;
    assert ([e] + rest)[1..] == rest;
  }

  lemma {:induction false} RunAppend(s: Controller, a: seq<Event>, b: seq<Event>)
    requires ValidTrace(s, a) && ValidTrace(Run(s, a), b)
    ensures ValidTrace(s, a + b)
    ensures Run(s, a + b) == Run(Run(s, a), b)
    decreases |a|
  {
    if a == [] {
      assert a + b == b;
    } else {
      assert (a + b)[0] == a[0];
      assert (a + b)[1..] == a[1..] + b;
      RunAppend(Step(s, a[0]), a[1..], b);
    }
  }

  /**
   * A whole session ended by the deadline: click, grant, the chunks
   * delivered while recording, the deadline's `stop()`, the chunks flushed
   * after it, `onstop`. Exactly one file is downloaded, holding all
   * delivered chunks in delivery order, the session's own timer is used up,
   * and the page is idle again with a success notice.
   */
  lemma SessionDownloadsChunksInOrder(s: Controller, text: string, cs1: seq<Chunk>, cs2: seq<Chunk>)
    requires Inv(s) && DownloadEnabled(text, s.isGenerating, false)
    ensures var es := Session(text, cs1, DeadlineFired, cs2);
      && ValidTrace(s, es)
      && Run(s, es).downloads == s.downloads + [Blob(cs1) + Blob(cs2)]
      && Run(s, es).notices == s.notices + [DownloadComplete]
      && !Run(s, es).isGenerating && !Run(s, es).showRecordingAlert
      && Run(s, es).pendingTimers == s.pendingTimers
      && Inv(Run(s, es))
  {
    SessionRun(s, text, cs1, DeadlineFired, cs2);
  }

  /**
   * The same session when the recorder stops by itself before the deadline:
   * the same single download, but the session's timer is left pending.
   */
  lemma SelfEndedSessionLeavesTimer(s: Controller, text: string, cs1: seq<Chunk>, cs2: seq<Chunk>)
    requires Inv(s) && DownloadEnabled(text, s.isGenerating, false)
    ensures var es := Session(text, cs1, RecorderEnded, cs2);
      && ValidTrace(s, es)
      && Run(s, es).downloads == s.downloads + [Blob(cs1) + Blob(cs2)]
      && Run(s, es).notices == s.notices + [DownloadComplete]
      && !Run(s, es).isGenerating && !Run(s, es).showRecordingAlert
      && Run(s, es).pendingTimers == s.pendingTimers + 1
      && Inv(Run(s, es))
  {
    SessionRun(s, text, cs1, RecorderEnded, cs2);
  }

  /** The events of one session whose recorder is stopped by stop. */
  function Session(text: string, cs1: seq<Chunk>, stop: Event, cs2: seq<Chunk>): seq<Event>
  {
    [DownloadClicked(text, false, Requested), PermissionGranted] + DataEvents(cs1) + [stop]
      + DataEvents(cs2) + [RecorderStopped]
  }

  lemma SessionRun(s: Controller, text: string, cs1: seq<Chunk>, stop: Event, cs2: seq<Chunk>)
    requires Inv(s) && DownloadEnabled(text, s.isGenerating, false)
    requires stop == DeadlineFired || stop == RecorderEnded
    ensures var es := Session(text, cs1, stop, cs2);
      && ValidTrace(s, es)
      && Run(s, es).downloads == s.downloads + [Blob(cs1) + Blob(cs2)]
      && Run(s, es).notices == s.notices + [DownloadComplete]
      && !Run(s, es).isGenerating && !Run(s, es).showRecordingAlert
      && Run(s, es).pendingTimers == s.pendingTimers + (if stop == DeadlineFired then 0 else 1)
      && Inv(Run(s, es))
  {
    var a := [DownloadClicked(text, false, Requested), PermissionGranted];
    var b := DataEvents(cs1);
    var c := [stop];
    var d := DataEvents(cs2);
    var e := [RecorderStopped];
    var s1 := Granted(Download(s, text, Requested));
    SessionStart(s, text);
    DataRun(s1, cs1);
    RunAppend(s, a, b);
    var s2 := s1.(chunks := cs1);
    assert [] + cs1 == cs1;
    RunOne(s2, stop);
    RunAppend(s, a + b, c);
    var s3 := Step(s2, stop);
    DataRun(s3, cs2);
    RunAppend(s, a + b + c, d);
    var s4 := s3.(chunks := cs1 + cs2);
    RunOne(s4, RecorderStopped);
    RunAppend(s, a + b + c + d, e);
    var es := a + b + c + d + e;
    assert es == Session(text, cs1, stop, cs2);
    BlobAppend(cs1, cs2);
    RunKeepsInv(s, es);
  }

  /** Click and grant: an empty buffer, a recording recorder and one more pending timer. */
  lemma SessionStart(s: Controller, text: string)
    requires DownloadEnabled(text, s.isGenerating, false)
    ensures var start := [DownloadClicked(text, false, Requested), PermissionGranted];
      && ValidTrace(s, start)
      && Run(s, start) == Granted(Download(s, text, Requested))
      && Run(s, start).chunks == [] && Run(s, start).recorder == Recording
  {
    var start := [DownloadClicked(text, false, Requested), PermissionGranted];
    var s0 := Download(s, text, Requested);
    var s1 := Granted(s0);
    assert start[1..] == [PermissionGranted];
    assert [PermissionGranted][1..] == [];
    assert Run(s1, []) == s1;
    assert Run(s0, [PermissionGranted]) == s1;
  }

  /** A trace of one enabled event is that event's step. */
  lemma RunOne(s: Controller, ev: Event)
    requires Enabled(s, ev)
    ensures ValidTrace(s, [ev]) && Run(s, [ev]) == Step(s, ev)
  {
    RunCons(s, ev, []);
    assert [ev] + [] == [ev];
  }

  /**
   * A stale timer is reachable: after a session whose recorder stopped by
   * itself the page is idle, the download button is enabled again, and the
   * old deadline timer is still pending with no recorder recording.
   */
  lemma StaleTimerReachable()
    ensures var es := [DownloadClicked("a", false, Requested), PermissionGranted, RecorderEnded, RecorderStopped];
      && ValidTrace(Initial, es)
      && Run(Initial, es).pendingTimers == 1
      && Run(Initial, es).recorder != Recording
      && DownloadEnabled("a", Run(Initial, es).isGenerating, false)
  {
    SelfEndedSessionLeavesTimer(Initial, "a", [], []);
    assert DataEvents([]) == [];
    assert Session("a", [], RecorderEnded, []) ==
      [DownloadClicked("a", false, Requested), PermissionGranted, RecorderEnded, RecorderStopped];
  }

  /**
   * A stale timer may cut the next session short: if it fires right after
   * the next grant, it stops the new recording, while the new session's own
   * timer stays pending.
   */
  lemma StaleTimerCutsNextSession(s: Controller, text: string)
    requires Inv(s) && DownloadEnabled(text, s.isGenerating, false) && s.pendingTimers > 0
    ensures var es := [DownloadClicked(text, false, Requested), PermissionGranted, DeadlineFired];
      && ValidTrace(s, es)
      && Run(s, es).recorder == Inactive && Run(s, es).pendingStops == 1
      && Run(s, es).pendingTimers == s.pendingTimers
      && Run(s, es).isGenerating
  {
    var start := [DownloadClicked(text, false, Requested), PermissionGranted];
    SessionStart(s, text);
    var s1 := Granted(Download(s, text, Requested));
    RunOne(s1, DeadlineFired);
    RunAppend(s, start, [DeadlineFired]);
    assert start + [DeadlineFired] == [DownloadClicked(text, false, Requested), PermissionGranted, DeadlineFired];
  }

  // ---------------------------------------------------------------------
  // The page's refs and flags

  class Coordinator {
    var isGenerating: bool
    var showRecordingAlert: bool
    var recorder: RecorderState
    var chunks: seq<Chunk>
    var pendingPermissions: nat
    var pendingTimers: nat
    var pendingStops: nat
    var downloads: seq<seq<byte>>
    var notices: seq<Notice>

    function Snapshot(): Controller
      reads this
    {
      Controller(isGenerating, showRecordingAlert, recorder, chunks,
                 pendingPermissions, pendingTimers, pendingStops, downloads, notices)
    }

    constructor ()
      ensures Snapshot() == Initial
    {
      isGenerating, showRecordingAlert, recorder, chunks := false, false, NoRecorder, [];
      pendingPermissions, pendingTimers, pendingStops := 0, 0, 0;
      downloads, notices := [], [];
    }

    /** `handleDownload` followed by the synchronous part of `startRecording`. */
    method HandleDownload(text: string, outcome: StartOutcome)
      modifies this
      ensures Snapshot() == Download(old(Snapshot()), text, outcome)
    {
      if text == "" {
        return;
      }
      isGenerating := true;
      if outcome == AudioContextThrows {
        isGenerating := false;
        notices := notices + [GenerationError];
        return;
      }
      chunks := [];
      if outcome == MediaDevicesThrows {
        isGenerating := false;
        notices := notices + [GenerationError];
        return;
      }
      pendingPermissions := pendingPermissions + 1;
    }

    method OnPermissionGranted()
      requires pendingPermissions > 0
      modifies this
      ensures Snapshot() == Granted(old(Snapshot()))
    {
      pendingPermissions := pendingPermissions - 1;
      recorder := Recording;
      showRecordingAlert := true;
      pendingTimers := pendingTimers + 1;
    }

    method OnPermissionDenied()
      requires pendingPermissions > 0
      modifies this
      ensures Snapshot() == Denied(old(Snapshot()))
    {
      pendingPermissions := pendingPermissions - 1;
      isGenerating := false;
      notices := notices + [MicrophoneAccessError];
    }

    method OnDataAvailable(c: Chunk)
      modifies this`chunks
      ensures Snapshot() == DataArrived(old(Snapshot()), c)
    {
      chunks := chunks + [c];
    }

    method OnDeadline()
      requires pendingTimers > 0
      modifies this
      ensures Snapshot() == Fired(old(Snapshot()))
    {
      pendingTimers := pendingTimers - 1;
      if recorder == Recording {
        recorder := Inactive;
        pendingStops := pendingStops + 1;
      }
    }

    /** The recorder stopping by itself; its `onstop` is still to come. */
    method OnRecorderEnded()
      requires recorder == Recording
      modifies this`recorder, this`pendingStops
      ensures Snapshot() == Ended(old(Snapshot()))
    {
      recorder := Inactive;
      pendingStops := pendingStops + 1;
    }

    method OnRecorderStopped()
      requires pendingStops > 0
      modifies this
      ensures Snapshot() == Stopped(old(Snapshot()))
    {
      pendingStops := pendingStops - 1;
      downloads := downloads + [Blob(chunks)];
      isGenerating := false;
      showRecordingAlert := false;
      notices := notices + [DownloadComplete];
    }
  }
}
