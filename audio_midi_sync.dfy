/** The per-frame controller that keeps a MIDI source in step with an audio source: it
    latches the end of each, keeps its own audio clock that snaps back to the audio
    source when it drifts out of a band, and corrects the MIDI clock by jumping it
    forward or freezing it for a frame. The transports are outside the model: what the
    controller reads from them arrives as inputs, and what it tells them is recorded as
    a list of commands. */
module AudioSync {
  import opened Bytes

  /** The three transports the controller drives. */
  datatype Source = AudioSource | MidiSource | MidiSourceDelayed

  /** What the controller tells a transport. `SetSpeed` is the audio source's pitch and
      the MIDI sources' speed; `StartSync` starts the coroutine that primes the audio and
      starts both sources together. */
  datatype Command =
    | SetSpeed(source: Source, speed: real)
    | SetLoop(source: Source, on: bool)
    | SetMute(source: Source, on: bool)
    | Seek(source: Source, time: real)
    | SetTime(source: Source, time: real)
    | Pause(source: Source)
    | UnPause(source: Source)
    | Stop(source: Source)
    | PlayDelayed(source: Source, delay: real)
    | StartSync

  /** Which transports and clips are assigned. */
  datatype Sources = Sources(audio: bool, audioClip: bool, midi: bool, midiClip: bool, delayed: bool)

  /** What one `Update` reads from the transports. `midiTimeAtDiff` is the MIDI source's
      time when the drift is measured, after any seek of this frame. */
  datatype Frame = Frame(
    sources: Sources,
    audioSourceTime: real,      // the audio source's time in seconds
    timeSamples: int,           // the audio source's position in samples
    clipSamples: int,           // the audio clip's length in samples
    clipLength: real,           // the audio clip's length in seconds
    midiTime: real,             // the MIDI source's time
    midiClipLength: real,       // the MIDI clip's length in seconds
    midiActive: bool,           // the MIDI source is active and enabled
    midiTimeAtDiff: real,
    midiPaused: bool,           // the MIDI source is paused (read by a looping Play)
    deltaTime: real)            // the frame's duration

  /** The controller's own state. */
  datatype SyncState = SyncState(
    audioEnded: bool, midiEnded: bool, prevSamples: int, audioStarted: bool,
    syncImmediately: bool, isPlaying: bool, isSyncing: bool, audioTime: real)

  /** The controller's settings, which `Update` and the transport calls never change. */
  datatype Settings = Settings(
    loop: bool, playbackSpeed: real, audioStartDelay: real, startTime: real,
    syncThreshold: real, audioDelay: real)

  /** The effect of one call: the new state, the commands sent, and whether it threw. */
  datatype Step = Step(state: SyncState, sent: seq<Command>, thrown: bool)

  predicate EndReached(st: SyncState)
  {
    st.audioEnded && st.midiEnded
  }

  /** `IsPlaying`: playing, and not both sources at their end. */
  predicate IsPlaying(st: SyncState)
  {
    st.isPlaying && !EndReached(st)
  }

  /** The audio delay adjusted to the playback speed, as the source computes it. */
  function AdjustedAudioDelay(cfg: Settings): real
  {
    cfg.audioDelay + cfg.audioDelay * (cfg.playbackSpeed - 1.0)
  }

  /** The adjustment scales the audio delay by the playback speed. */
  lemma AdjustedDelayScales(cfg: Settings)
    ensures AdjustedAudioDelay(cfg) == cfg.audioDelay * cfg.playbackSpeed
  {
  }

  /** The MIDI time that matches the audio source's time. */
  function SyncTime(cfg: Settings, f: Frame): real
  {
    f.audioSourceTime + cfg.audioStartDelay - AdjustedAudioDelay(cfg)
  }

  /** The half-width of the band inside which no correction happens. */
  function Band(cfg: Settings): real
  {
    cfg.syncThreshold * cfg.playbackSpeed
  }

  function IfDelayed(src: Sources, c: seq<Command>): seq<Command>
  {
    if src.delayed then c else []
  }

  /** Commands for each assigned transport, audio first. */
  function ToEach(src: Sources, c: Source -> Command): seq<Command>
  {
    (if src.audio then [c(AudioSource)] else []) + (if src.midi then [c(MidiSource)] else [])
    + IfDelayed(src, [c(MidiSourceDelayed)])
  }

  function PauseStep(st: SyncState, src: Sources): Step
  {
    if st.isSyncing then Step(st, [], false) else Step(st, ToEach(src, s => Pause(s)), false)
  }

  /** `UnPause`: an audio source started with a delay is restarted with the remaining
      delay; reading the MIDI source's time for that throws when there is none. */
  function UnPauseStep(st: SyncState, cfg: Settings, src: Sources, midiTime: real): Step
  {
    if st.isSyncing then Step(st, [], false)
    else if src.audio && !src.midi then Step(st, [], true)
    else
      var remaining := midiTime - cfg.audioStartDelay + cfg.audioDelay;
      var audio :=
        if !src.audio then []
        else if remaining < 0.0 then [Stop(AudioSource), PlayDelayed(AudioSource, Abs(remaining))]
        else [UnPause(AudioSource)];
      Step(st, audio + (if src.midi then [UnPause(MidiSource)] else []) + IfDelayed(src, [UnPause(MidiSourceDelayed)]), false)
  }

  /** `Play`: marks the controller playing; resumes a paused MIDI source, or else resets
      the end flags and, unless a sync is already running, starts one. Reading whether
      the MIDI source is paused throws when there is none. */
  function PlayStep(st: SyncState, cfg: Settings, src: Sources, midiPaused: bool, midiTime: real): Step
  {
    var st1 := st.(isPlaying := true);
    if !src.midi then Step(st1, [], true)
    else if midiPaused then UnPauseStep(st1, cfg, src, midiTime)
    else
      var st2 := st1.(audioEnded := false, midiEnded := false, audioStarted := false);
      if src.audio && src.audioClip && !st2.isSyncing then Step(st2.(isSyncing := true), [StartSync], false)
      else Step(st2, [], false)
  }

  function StopStep(st: SyncState, src: Sources): Step
  {
    Step(st.(audioEnded := false, midiEnded := false, isPlaying := false, isSyncing := false),
         ToEach(src, s => Stop(s)), false)
  }

  /** `Update` does nothing while a source or clip is missing, while a sync is running,
      or when not playing. */
  predicate Idle(st: SyncState, f: Frame)
  {
    !(f.sources.midi && f.sources.audio && f.sources.audioClip && f.sources.midiClip)
    || st.isSyncing || !st.isPlaying
  }

  /** One frame: a sync step before the end; at the end, a replay when looping. */
  function UpdateStep(st: SyncState, cfg: Settings, f: Frame): Step
  {
    if Idle(st, f) then Step(st, [], false)
    else if !EndReached(st) then SyncStep(st, cfg, f)
    else if cfg.loop then PlayStep(st, cfg, f.sources, f.midiPaused, f.midiTime)
    else Step(st, [], false)
  }

  /** The commands that take control of the transports' speed and looping. */
  function TakeControl(cfg: Settings, f: Frame): seq<Command>
  {
    [SetSpeed(AudioSource, cfg.playbackSpeed), SetLoop(AudioSource, false),
     SetSpeed(MidiSource, cfg.playbackSpeed), SetLoop(MidiSource, false)]
    + IfDelayed(f.sources, [SetSpeed(MidiSourceDelayed, cfg.playbackSpeed), SetLoop(MidiSourceDelayed, false),
                            SetMute(MidiSourceDelayed, f.audioSourceTime <= cfg.startTime)])
  }

  /** The state after the end flags, the start flag and the ended audio time are
      updated. */
  function Latched(st: SyncState, f: Frame): SyncState
  {
    var audioEnded := st.audioEnded || f.timeSamples >= f.clipSamples || st.prevSamples > f.timeSamples;
    st.(audioEnded := audioEnded,
        midiEnded := st.midiEnded || f.midiTime >= f.midiClipLength,
        audioStarted := st.audioStarted || st.prevSamples != f.timeSamples,
        audioTime := if audioEnded then f.clipLength else st.audioTime)
  }

  /** The audio clock advanced by the frame, snapped to the audio source outside the band. */
  function Tracked(audioTime: real, cfg: Settings, f: Frame): real
  {
    var t := audioTime + f.deltaTime * cfg.playbackSpeed;
    if Abs(f.audioSourceTime - t) > Band(cfg) then f.audioSourceTime else t
  }

  /** How far the MIDI source is behind the audio (0 when it is inactive). */
  function Drift(cfg: Settings, f: Frame): real
  {
    if f.midiActive then SyncTime(cfg, f) - f.midiTimeAtDiff else 0.0
  }

  /** The seek asked for by a changed audio delay, unless the MIDI has ended. */
  function Seeks(st: SyncState, cfg: Settings, f: Frame): seq<Command>
  {
    if st.syncImmediately && !st.midiEnded
    then [Seek(MidiSource, SyncTime(cfg, f))] + IfDelayed(f.sources, [Seek(MidiSourceDelayed, SyncTime(cfg, f) - cfg.audioStartDelay)])
    else []
  }

  /** A MIDI source behind by more than the band, and not ended, jumps to the sync time. */
  function Jumps(st: SyncState, cfg: Settings, f: Frame): seq<Command>
  {
    if Drift(cfg, f) > Band(cfg) && !st.midiEnded
    then [SetTime(MidiSource, SyncTime(cfg, f))] + IfDelayed(f.sources, [SetTime(MidiSourceDelayed, SyncTime(cfg, f) - cfg.audioStartDelay)])
    else []
  }

  /** A MIDI source ahead by more than the band stands still for this frame. */
  function Freezes(cfg: Settings, f: Frame): seq<Command>
  {
    if Drift(cfg, f) < -Band(cfg)
    then [SetSpeed(MidiSource, 0.0)] + IfDelayed(f.sources, [SetSpeed(MidiSourceDelayed, 0.0)])
    else []
  }

  /** The drift corrections of a frame: jumps, then freezes. */
  function DriftCommands(st: SyncState, cfg: Settings, f: Frame): seq<Command>
  {
    Jumps(st, cfg, f) + Freezes(cfg, f)
  }

  /** The corrections of a frame while the audio runs: seeks, then the drift corrections. */
  function Corrections(st: SyncState, cfg: Settings, f: Frame): seq<Command>
  {
    Seeks(st, cfg, f) + DriftCommands(st, cfg, f)
  }

  lemma AppendAssociates(a: seq<Command>, b: seq<Command>, c: seq<Command>)
    ensures a + b + c == a + (b + c)
  {
  }

  predicate AudioRunning(st: SyncState)
  {
    st.audioStarted && !st.audioEnded
  }

  /** A frame before the end; the sample count is recorded for the next frame. */
  function SyncStep(st: SyncState, cfg: Settings, f: Frame): Step
  {
    var l := Latched(st, f);
    if AudioRunning(l) then
      Step(l.(audioTime := Tracked(l.audioTime, cfg, f),
              syncImmediately := l.syncImmediately && l.midiEnded,
              prevSamples := f.timeSamples),
           TakeControl(cfg, f) + Corrections(l, cfg, f), false)
    else
      Step(l.(prevSamples := f.timeSamples), TakeControl(cfg, f), false)
  }

  /** The last speed sent to a source, if any. */
  function LastSpeed(cmds: seq<Command>, s: Source): Option<real>
  {
    if cmds == [] then None
    else if cmds[|cmds| - 1].SetSpeed? && cmds[|cmds| - 1].source == s then Some(cmds[|cmds| - 1].speed)
    else LastSpeed(cmds[..|cmds| - 1], s)
  }

  predicate SetsTime(cmds: seq<Command>, s: Source)
  {
    exists c | c in cmds :: c.SetTime? && c.source == s
  }

  lemma {:induction false} LastSpeedAppend(a: seq<Command>, b: seq<Command>, s: Source)
    ensures LastSpeed(a + b, s) == if LastSpeed(b, s).Some? then LastSpeed(b, s) else LastSpeed(a, s)
    decreases |b|
  {
    if b == [] {
      assert a + b == a;
    } else {
      assert (a + b)[..|a + b| - 1] == a + b[..|b| - 1];
      LastSpeedAppend(a, b[..|b| - 1], s);
    }
  }

  /** `Update` changes nothing while idle. */
  lemma IdleUpdate(st: SyncState, cfg: Settings, f: Frame)
    requires Idle(st, f)
    ensures UpdateStep(st, cfg, f) == Step(st, [], false)
  {
  }

  /** Before the end, the two end flags latch: each is set once its condition has been
      seen and is never cleared; the audio ends when its sample position reaches the
      clip's length or goes backwards, the MIDI when its time reaches the clip's. */
  lemma EndFlagsLatch(st: SyncState, cfg: Settings, f: Frame)
    requires !Idle(st, f) && !EndReached(st)
    ensures var r := UpdateStep(st, cfg, f).state;
      && (r.audioEnded <==> st.audioEnded || f.timeSamples >= f.clipSamples || st.prevSamples > f.timeSamples)
      && (r.midiEnded <==> st.midiEnded || f.midiTime >= f.midiClipLength)
      && r.isPlaying == st.isPlaying && r.isSyncing == st.isSyncing
  {
  }

  /** The flags only go from false to true in `Update`, unless the end was reached with
      looping on, which replays. */
  lemma EndFlagsNeverCleared(st: SyncState, cfg: Settings, f: Frame)
    requires !(EndReached(st) && cfg.loop)
    ensures st.audioEnded ==> UpdateStep(st, cfg, f).state.audioEnded
    ensures st.midiEnded ==> UpdateStep(st, cfg, f).state.midiEnded
  {
  }

  /** While the audio runs, the controller's audio clock ends the frame within the band
      around the audio source's time, or on it. */
  lemma AudioTimeInBand(st: SyncState, cfg: Settings, f: Frame)
    requires !Idle(st, f) && !EndReached(st) && AudioRunning(Latched(st, f))
    ensures var t := UpdateStep(st, cfg, f).state.audioTime;
      t == f.audioSourceTime || Abs(f.audioSourceTime - t) <= Band(cfg)
    ensures Band(cfg) >= 0.0 ==> Abs(f.audioSourceTime - UpdateStep(st, cfg, f).state.audioTime) <= Band(cfg)
  {
  }

  /** Drift correction while the audio runs: a MIDI source behind by more than the band
      (and not at its end) is moved to the sync time; one ahead by more than the band is
      left with speed 0 for this frame; inside the band it keeps the playback speed and
      its time is not set. */
  lemma {:induction false} DriftCorrection(st: SyncState, cfg: Settings, f: Frame)
    requires !Idle(st, f) && !EndReached(st) && AudioRunning(Latched(st, f))
    ensures var cmds := UpdateStep(st, cfg, f).sent;
      && (Drift(cfg, f) > Band(cfg) && !Latched(st, f).midiEnded ==> SetTime(MidiSource, SyncTime(cfg, f)) in cmds)
      && (Drift(cfg, f) < -Band(cfg) ==> LastSpeed(cmds, MidiSource) == Some(0.0))
      && (-Band(cfg) <= Drift(cfg, f) <= Band(cfg) ==>
            !SetsTime(cmds, MidiSource) && LastSpeed(cmds, MidiSource) == Some(cfg.playbackSpeed))
  {
    var l := Latched(st, f);
    var control, seeks, jumps, freezes := TakeControl(cfg, f), Seeks(l, cfg, f), Jumps(l, cfg, f), Freezes(cfg, f);
    assert UpdateStep(st, cfg, f) == SyncStep(st, cfg, f);
    assert UpdateStep(st, cfg, f).sent == control + (seeks + (jumps + freezes));
    ControlSpeed(cfg, f);
    NoSpeed(seeks, MidiSource);
    NoSpeed(jumps, MidiSource);
    LastSpeedAppend(jumps, freezes, MidiSource);
    LastSpeedAppend(seeks, jumps + freezes, MidiSource);
    LastSpeedAppend(control, seeks + (jumps + freezes), MidiSource);
    if Drift(cfg, f) < -Band(cfg) {
      var tail := IfDelayed(f.sources, [SetSpeed(MidiSourceDelayed, 0.0)]);
      NoSpeed(tail, MidiSource);
      LastSpeedAppend([SetSpeed(MidiSource, 0.0)], tail, MidiSource);
    } else {
      NoSpeed(freezes, MidiSource);
    }
  }

  /** Taking control leaves the MIDI source at the playback speed and sets no time. */
  lemma ControlSpeed(cfg: Settings, f: Frame)
    ensures LastSpeed(TakeControl(cfg, f), MidiSource) == Some(cfg.playbackSpeed)
    ensures !SetsTime(TakeControl(cfg, f), MidiSource)
  {
    var head := [SetSpeed(AudioSource, cfg.playbackSpeed), SetLoop(AudioSource, false),
                 SetSpeed(MidiSource, cfg.playbackSpeed), SetLoop(MidiSource, false)];
    var tail := IfDelayed(f.sources, [SetSpeed(MidiSourceDelayed, cfg.playbackSpeed), SetLoop(MidiSourceDelayed, false),
                                      SetMute(MidiSourceDelayed, f.audioSourceTime <= cfg.startTime)]);
    LastSpeedAppend(head, tail, MidiSource);
    NoSpeed(tail, MidiSource);
    assert head == head[..3] + [head[3]];
  }

  /** A list with no speed command for `s` has no last speed for it. */
  lemma {:induction false} NoSpeed(cmds: seq<Command>, s: Source)
    requires forall c | c in cmds :: !(c.SetSpeed? && c.source == s)
    ensures LastSpeed(cmds, s) == None
  {
    if cmds != [] {
      assert forall c | c in cmds[..|cmds| - 1] :: c in cmds;
      NoSpeed(cmds[..|cmds| - 1], s);
    }
  }

  /** Without running audio no correction is sent: the MIDI source keeps the playback
      speed and is neither seeked nor moved. */
  lemma NoCorrectionUntilAudioRuns(st: SyncState, cfg: Settings, f: Frame)
    requires !Idle(st, f) && !EndReached(st) && !AudioRunning(Latched(st, f))
    ensures UpdateStep(st, cfg, f).sent == TakeControl(cfg, f)
    ensures !SetsTime(UpdateStep(st, cfg, f).sent, MidiSource)
    ensures LastSpeed(UpdateStep(st, cfg, f).sent, MidiSource) == Some(cfg.playbackSpeed)
  {
    ControlSpeed(cfg, f);
  }

  /** At the end, a looping controller replays and a non-looping one does nothing. */
  lemma EndReplaysWhenLooping(st: SyncState, cfg: Settings, f: Frame)
    requires !Idle(st, f) && EndReached(st)
    ensures cfg.loop ==> UpdateStep(st, cfg, f) == PlayStep(st, cfg, f.sources, f.midiPaused, f.midiTime)
    ensures !cfg.loop ==> UpdateStep(st, cfg, f) == Step(st, [], false)
    ensures !UpdateStep(st, cfg, f).thrown
  {
  }

  /** `Play` always marks the controller playing, and starts a sync at most once: never
      while one is running, and exactly when the sources are there and the MIDI source
      is not paused otherwise. */
  lemma PlayStartsOneSync(st: SyncState, cfg: Settings, src: Sources, midiPaused: bool, midiTime: real)
    ensures PlayStep(st, cfg, src, midiPaused, midiTime).state.isPlaying
    ensures st.isSyncing ==> StartSync !in PlayStep(st, cfg, src, midiPaused, midiTime).sent
    ensures !st.isSyncing ==>
      var started := StartSync in PlayStep(st, cfg, src, midiPaused, midiTime).sent;
      started <==> src.midi && !midiPaused && src.audio && src.audioClip
    ensures !src.midi <==> PlayStep(st, cfg, src, midiPaused, midiTime).thrown
  {
  }

  /** `Stop` leaves the controller stopped and at no end, whatever its state. */
  lemma StopClears(st: SyncState, src: Sources)
    ensures var r := StopStep(st, src).state;
      !r.isPlaying && !r.isSyncing && !EndReached(r) && !IsPlaying(r)
  {
  }

  /** `Pause` and `UnPause` do nothing while a sync is running. */
  lemma SyncingIgnoresPause(st: SyncState, cfg: Settings, src: Sources, midiTime: real)
    requires st.isSyncing
    ensures PauseStep(st, src) == Step(st, [], false)
    ensures UnPauseStep(st, cfg, src, midiTime) == Step(st, [], false)
  {
  }

  /** Outside a sync, with a MIDI source, `UnPause` keeps the state and throws nothing.
      An audio source is restarted with the remaining delay when the MIDI time is still
      inside the start delay, and unpaused otherwise; then each MIDI source is unpaused. */
  lemma UnPauseRestartsDelayedAudio(st: SyncState, cfg: Settings, src: Sources, midiTime: real)
    requires !st.isSyncing && src.midi
    ensures var step := UnPauseStep(st, cfg, src, midiTime);
            var remaining := midiTime - cfg.audioStartDelay + cfg.audioDelay;
            var audio := if !src.audio then []
                         else if remaining < 0.0 then [Stop(AudioSource), PlayDelayed(AudioSource, -remaining)]
                         else [UnPause(AudioSource)];
            step.state == st && !step.thrown &&
            step.sent == audio + [UnPause(MidiSource)] + IfDelayed(src, [UnPause(MidiSourceDelayed)])
  {
  }

  class AudioMidiSync {
    var audioEnded: bool
    var midiEnded: bool
    var prevSamples: int
    var audioStarted: bool
    var syncImmediately: bool
    var isPlaying: bool
    var isSyncing: bool
    var audioTime: real

    var loop: bool
    var playbackSpeed: real
    var audioStartDelay: real
    var startTime: real
    var syncThreshold: real
    var audioDelay: real

    /** The commands sent to the transports so far, oldest first. */
    var sent: seq<Command>

    constructor(cfg: Settings)
      ensures Config() == cfg && sent == []
      ensures State() == SyncState(false, false, 0, false, false, false, false, 0.0)
    {
      audioEnded, midiEnded, prevSamples, audioStarted := false, false, 0, false;
      syncImmediately, isPlaying, isSyncing, audioTime := false, false, false, 0.0;
      loop, playbackSpeed, audioStartDelay := cfg.loop, cfg.playbackSpeed, cfg.audioStartDelay;
      startTime, syncThreshold, audioDelay := cfg.startTime, cfg.syncThreshold, cfg.audioDelay;
      sent := [];
    }

    function State(): SyncState
      reads this
    {
      SyncState(audioEnded, midiEnded, prevSamples, audioStarted, syncImmediately, isPlaying, isSyncing, audioTime)
    }

    function Config(): Settings
      reads this
    {
      Settings(loop, playbackSpeed, audioStartDelay, startTime, syncThreshold, audioDelay)
    }

    /** The `AudioDelay` setter: a changed delay also asks for an immediate MIDI seek. */
    method SetAudioDelay(value: real)
      modifies this
      ensures audioDelay == value
      ensures syncImmediately == (old(syncImmediately) || old(audioDelay) != value)
      ensures State() == old(State()).(syncImmediately := syncImmediately)
      ensures Config() == old(Config()).(audioDelay := value) && sent == old(sent)
    {
      if audioDelay != value {
        syncImmediately := true;
        audioDelay := value;
      }
    }

    method Pause(src: Sources)
      modifies this
      ensures State() == old(State()) && Config() == old(Config())
      ensures sent == old(sent) + PauseStep(old(State()), src).sent
    {
      if isSyncing {
        return;
      }
      if src.audio { sent := sent + [Command.Pause(AudioSource)]; }
      if src.midi { sent := sent + [Command.Pause(MidiSource)]; }
      if src.delayed { sent := sent + [Command.Pause(MidiSourceDelayed)]; }
    }

    method UnPause(src: Sources, midiTime: real) returns (thrown: bool)
      modifies this
      ensures var r := UnPauseStep(old(State()), old(Config()), src, midiTime);
        State() == r.state && sent == old(sent) + r.sent && thrown == r.thrown
      ensures Config() == old(Config())
    {
      if isSyncing {
        return false;
      }
      if src.audio {
        if !src.midi {
          return true;
        }
        var remaining := midiTime - audioStartDelay + audioDelay;
        if remaining < 0.0 {
          sent := sent + [Command.Stop(AudioSource), Command.PlayDelayed(AudioSource, Abs(remaining))];
        } else {
          sent := sent + [Command.UnPause(AudioSource)];
        }
      }
      if src.midi { sent := sent + [Command.UnPause(MidiSource)]; }
      if src.delayed { sent := sent + [Command.UnPause(MidiSourceDelayed)]; }
      thrown := false;
    }

    method Play(src: Sources, midiPaused: bool, midiTime: real) returns (thrown: bool)
      modifies this
      ensures var r := PlayStep(old(State()), old(Config()), src, midiPaused, midiTime);
        State() == r.state && sent == old(sent) + r.sent && thrown == r.thrown
      ensures Config() == old(Config())
    {
      isPlaying := true;
      if !src.midi {
        return true;
      }
      if midiPaused {
        thrown := UnPause(src, midiTime);
      } else {
        audioEnded := false;
        midiEnded := false;
        audioStarted := false;
        if src.audio && src.audioClip && !isSyncing {
          isSyncing := true;
          sent := sent + [StartSync];
        }
        thrown := false;
      }
    }

    method Stop(src: Sources)
      modifies this
      ensures var r := StopStep(old(State()), src);
        State() == r.state && sent == old(sent) + r.sent
      ensures Config() == old(Config())
    {
      if src.audio { sent := sent + [Command.Stop(AudioSource)]; }
      if src.midi { sent := sent + [Command.Stop(MidiSource)]; }
      if src.delayed { sent := sent + [Command.Stop(MidiSourceDelayed)]; }
      audioEnded := false;
      midiEnded := false;
      isPlaying := false;
      isSyncing := false;
    }

    /** One frame of synchronisation. */
    method Update(f: Frame)
      modifies this
      ensures var r := UpdateStep(old(State()), old(Config()), f);
        State() == r.state && sent == old(sent) + r.sent
      ensures Config() == old(Config())
    {
      var src := f.sources;
      if !src.midi || !src.audio || !src.audioClip || !src.midiClip || isSyncing || !isPlaying {
        return;
      }
      if !(audioEnded && midiEnded) {
        SyncFrame(f);
      } else {
        if loop {
          var _ := Play(src, f.midiPaused, f.midiTime);
        }
      }
    }

    /** The frame before the end: take control of the transports, latch the end flags,
        and, while the audio runs, track the audio clock and correct the MIDI. */
    method SyncFrame(f: Frame)
      modifies this
      ensures var r := SyncStep(old(State()), old(Config()), f);
        State() == r.state && sent == old(sent) + r.sent
      ensures Config() == old(Config())
    {
      ghost var sent0, cfg := sent, Config();
      TakeControlOf(f);
      LatchEnds(f);
      ghost var l := State();
      if audioStarted && !audioEnded {
        Correct(f);
        AppendAssociates(sent0, TakeControl(cfg, f), Corrections(l, cfg, f));
      }
      prevSamples := f.timeSamples;
    }

    /** Forces the transports' speed and looping, and mutes the delayed MIDI source until
        the audio passes the start time. */
    method TakeControlOf(f: Frame)
      modifies this
      ensures sent == old(sent) + TakeControl(Config(), f)
      ensures State() == old(State()) && Config() == old(Config())
    {
      sent := sent + [SetSpeed(AudioSource, playbackSpeed), SetLoop(AudioSource, false),
                      SetSpeed(MidiSource, playbackSpeed), SetLoop(MidiSource, false)];
      if f.sources.delayed {
        sent := sent + [SetSpeed(MidiSourceDelayed, playbackSpeed), SetLoop(MidiSourceDelayed, false),
                        SetMute(MidiSourceDelayed, f.audioSourceTime <= startTime)];
      }
    }

    /** Latches the end flags, notes that the audio has started, and pins the audio clock
        to the clip's length once the audio has ended. */
    method LatchEnds(f: Frame)
      modifies this
      ensures State() == Latched(old(State()), f)
      ensures sent == old(sent) && Config() == old(Config())
    {
      var ended := if !audioEnded then f.timeSamples >= f.clipSamples else audioEnded;
      midiEnded := if !midiEnded then f.midiTime >= f.midiClipLength else midiEnded;
      ended := if !ended then prevSamples > f.timeSamples else ended;
      audioEnded := ended;

      if prevSamples != f.timeSamples {
        if !audioStarted {
          audioStarted := true;
        }
      }
      if ended {
        audioTime := f.clipLength;
      }
    }

    /** The running-audio part of a frame: advance the audio clock, seek the MIDI when an
        immediate sync was asked for, then jump or freeze the MIDI when it has drifted.
        The sync time is the audio source's time plus the start delay less the audio
        delay adjusted to the playback speed. */
    method Correct(f: Frame)
      modifies this
      ensures State() == old(State()).(audioTime := Tracked(old(audioTime), Config(), f),
                                       syncImmediately := old(syncImmediately) && old(midiEnded))
      ensures sent == old(sent) + Corrections(old(State()), Config(), f)
      ensures Config() == old(Config())
    {
      ghost var st0, cfg := State(), Config();
      var adjustedAudioDelay := audioDelay + audioDelay * (playbackSpeed - 1.0);
      var syncTime := f.audioSourceTime + audioStartDelay - adjustedAudioDelay;
      var midiTimeDelayed := syncTime - audioStartDelay;
      assert syncTime == SyncTime(cfg, f);
      TrackAudioTime(f);
      SeekIfAsked(f, syncTime, midiTimeDelayed);
      ghost var seeks := Seeks(st0, cfg, f);
      var diff := if f.midiActive then syncTime - f.midiTimeAtDiff else 0.0;
      CorrectDrift(f, diff, syncTime, midiTimeDelayed);
      AppendAssociates(old(sent), seeks, DriftCommands(st0, cfg, f));
    }

    /** Seeks the MIDI sources to the sync time when an immediate sync was asked for and
        the MIDI has not ended, and clears the request. */
    method SeekIfAsked(f: Frame, syncTime: real, midiTimeDelayed: real)
      requires syncTime == SyncTime(Config(), f) && midiTimeDelayed == syncTime - audioStartDelay
      modifies this
      ensures sent == old(sent) + Seeks(old(State()), Config(), f)
      ensures State() == old(State()).(syncImmediately := old(syncImmediately) && old(midiEnded))
      ensures Config() == old(Config())
    {
      if syncImmediately && !midiEnded {
        syncImmediately := false;
        sent := sent + [Seek(MidiSource, syncTime)];
        if f.sources.delayed {
          sent := sent + [Seek(MidiSourceDelayed, midiTimeDelayed)];
        }
      }
    }

    /** Advances the audio clock by the frame and snaps it to the audio source outside
        the band. */
    method TrackAudioTime(f: Frame)
      modifies this
      ensures audioTime == Tracked(old(audioTime), Config(), f)
      ensures State() == old(State()).(audioTime := audioTime)
      ensures Config() == old(Config()) && sent == old(sent)
    {
      audioTime := audioTime + f.deltaTime * playbackSpeed;
      if Abs(f.audioSourceTime - audioTime) > syncThreshold * playbackSpeed {
        audioTime := f.audioSourceTime;
      }
    }

    /** Jumps a MIDI source that is behind and freezes one that is ahead. */
    method CorrectDrift(f: Frame, diff: real, syncTime: real, midiTimeDelayed: real)
      requires diff == Drift(Config(), f)
      requires syncTime == SyncTime(Config(), f) && midiTimeDelayed == syncTime - audioStartDelay
      modifies this
      ensures sent == old(sent) + DriftCommands(old(State()), Config(), f)
      ensures State() == old(State()) && Config() == old(Config())
    {
      if diff > syncThreshold * playbackSpeed && !midiEnded {
        sent := sent + [SetTime(MidiSource, syncTime)];
        if f.sources.delayed {
          sent := sent + [SetTime(MidiSourceDelayed, midiTimeDelayed)];
        }
      }
      ghost var jumps := Jumps(old(State()), Config(), f);
      assert sent == old(sent) + jumps;
      if diff < -syncThreshold * playbackSpeed {
        sent := sent + [SetSpeed(MidiSource, 0.0)];
        if f.sources.delayed {
          sent := sent + [SetSpeed(MidiSourceDelayed, 0.0)];
        }
      }
      AppendAssociates(old(sent), jumps, Freezes(Config(), f));
    }
  }
}
