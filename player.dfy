/** The playback session: the state `PlayerProvider` shares through its context
    (`currentTrack`, `isPlaying`, `volume`, `isMuted`), the state of the bottom player that
    renders it (`progress`, `duration`) and the one `<audio>` element both drive through
    `audioRef`.

    The module has two layers. `PlayerState`, `Event`, `Step` and `Commands` say what each
    handler does to the session and which commands it sends to the audio element; `Run`
    replays a sequence of handlers, and the lemmas state the invariants the session keeps.
    `PlayerSession` is the session itself, a class whose methods update its fields in place
    and send commands to an `AudioDevice`, each proved to follow `Step` and `Commands`. */
module Player {
  import opened JsValues
  import opened Tracks

  /** What the session does to the audio element: change its `src` (which starts loading
      that media), `play()`, `pause()`, assign `currentTime` or assign `volume`. */
  datatype Command = Load(url: string) | Play | Pause | SetTime(position: nat) | SetVolume(level: real)

  /** The most recent source the element was told to load. */
  function LastSource(log: seq<Command>): Option<string> {
    if log == [] then None
    else if log[|log| - 1].Load? then Some(log[|log| - 1].url)
    else LastSource(log[..|log| - 1])
  }

  lemma LastSourceAppend(log: seq<Command>, c: Command)
    ensures LastSource(log + [c]) == if c.Load? then Some(c.url) else LastSource(log)
  {
    assert (log + [c])[..|log|] == log;
  }

  /** The `<audio>` element behind `audioRef.current`, seen only through the commands it
      receives. */
  class AudioDevice {
    var log: seq<Command>

    /** Rendering `<audio src={url}>` creates the element, which loads `url`. */
    constructor (url: string)
      ensures log == [Load(url)]
    {
      log := [Load(url)];
    }

    /** A new value of the `src` attribute. */
    method SetSrc(url: string)
      modifies this
      ensures log == old(log) + [Load(url)]
    {
      log := log + [Load(url)];
    }

    /** `play()`. The promise it returns may reject (autoplay policy, a media that cannot
        be fetched); which way it goes is not up to the session. */
    method PlayAudio() returns (rejected: bool)
      modifies this
      ensures log == old(log) + [Play]
    {
      log := log + [Play];
      rejected := *;
    }

    /** `pause()`. */
    method PauseAudio()
      modifies this
      ensures log == old(log) + [Pause]
    {
      log := log + [Pause];
    }

    /** `currentTime = position`. */
    method SetCurrentTime(position: nat)
      modifies this
      ensures log == old(log) + [SetTime(position)]
    {
      log := log + [SetTime(position)];
    }

    /** `volume = level`. */
    method SetVolumeProperty(level: real)
      modifies this
      ensures log == old(log) + [SetVolume(level)]
    {
      log := log + [SetVolume(level)];
    }
  }

  // ---------------------------------------------------------------------------
  // The session as a value

  /** `shown` is whether the bottom player is mounted (the application shows it only to a
      signed-in user outside the sign-in and sign-up pages). */
  datatype PlayerState = PlayerState(
    currentTrack: Option<Track>,
    isPlaying: bool,
    volume: real,
    isMuted: bool,
    progress: nat,
    duration: nat,
    shown: bool)

  /** The audio element exists: the bottom player is mounted and, having a track, renders
      it (without a track it renders nothing). */
  predicate Attached(s: PlayerState) {
    s.shown && s.currentTrack.Some?
  }

  /** The state when the application starts, before the bottom player is mounted. */
  const Initial: PlayerState := PlayerState(None, false, 0.5, false, 0, 0, false)

  /** The handlers of the session. `SyncEffect` is the bottom player's effect that runs
      after a render in which `currentTrack` or `isPlaying` changed; `TimeUpdate` carries
      what the element reports as `currentTime` and `duration` (absent when unknown);
      `Mount` and `Unmount` are the bottom player appearing and disappearing. */
  datatype Event =
    | SelectTrack(track: Track)
    | TogglePlay
    | PauseTrack
    | ResumeTrack
    | VolumeChange(level: real)
    | SyncEffect
    | TimeUpdate(time: nat, reported: Option<nat>)
    | Ended
    | Seek(position: nat)
    | Mount
    | Unmount

  /** `currentTrack?.id === track.id`: strict equality of ids. */
  predicate SameTrack(s: PlayerState, t: Track) {
    s.currentTrack.Some? && s.currentTrack.value.id == t.id
  }

  /** `pauseTrack`. */
  function PauseStep(s: PlayerState): (r: PlayerState)
    ensures !r.isPlaying && r.(isPlaying := s.isPlaying) == s
  {
    s.(isPlaying := false)
  }

  /** `resumeTrack`: the intent to play is recorded whatever the element does with it. */
  function ResumeStep(s: PlayerState): (r: PlayerState)
    ensures r.isPlaying && r.(isPlaying := s.isPlaying) == s
  {
    s.(isPlaying := true)
  }

  /** `togglePlay`: pause when playing, resume otherwise. */
  function ToggleStep(s: PlayerState): (r: PlayerState)
    ensures r.isPlaying == !s.isPlaying
    ensures r.(isPlaying := s.isPlaying) == s
  {
    if s.isPlaying then PauseStep(s) else ResumeStep(s)
  }

  /** `playTrack(track)`: the current track again toggles; another track becomes current
      and playing, nothing else changes (the position is left to the element's next
      report). */
  function SelectStep(s: PlayerState, t: Track): (r: PlayerState)
    ensures SameTrack(s, t) ==> r == ToggleStep(s)
    ensures !SameTrack(s, t) ==>
              r.currentTrack == Some(t) && r.isPlaying && r.(currentTrack := s.currentTrack, isPlaying := s.isPlaying) == s
    ensures r.currentTrack.Some?
  {
    if SameTrack(s, t) then ToggleStep(s) else s.(currentTrack := Some(t), isPlaying := true)
  }

  /** `handleVolumeChange(level)`: the level is stored as given; a positive level unmutes,
      and nothing ever mutes. */
  function VolumeStep(s: PlayerState, level: real): (r: PlayerState)
    ensures r.volume == level
    ensures r.isMuted <==> s.isMuted && level <= 0.0
    ensures r.(volume := s.volume, isMuted := s.isMuted) == s
  {
    s.(volume := level, isMuted := if level > 0.0 && s.isMuted then false else s.isMuted)
  }

  /** `onTimeUpdate`: the element's position, and its duration or 0 when it has none. */
  function TimeUpdateStep(s: PlayerState, time: nat, reported: Option<nat>): (r: PlayerState)
    ensures Attached(s) ==> r.progress == time && r.duration == reported.GetOr(0)
    ensures Attached(s) ==> r.(progress := s.progress, duration := s.duration) == s
    ensures !Attached(s) ==> r == s
  {
    if Attached(s) then s.(progress := time, duration := reported.GetOr(0)) else s
  }

  /** `onEnded`: stopped at position 0, the track stays. */
  function EndedStep(s: PlayerState): (r: PlayerState)
    ensures !r.isPlaying && r.progress == 0 && r.currentTrack == s.currentTrack
    ensures r.(isPlaying := s.isPlaying, progress := s.progress) == s
  {
    s.(isPlaying := false, progress := 0)
  }

  /** `handleSeek(position)`: with an element, the position is taken as given. */
  function SeekStep(s: PlayerState, position: nat): (r: PlayerState)
    ensures Attached(s) ==> r.progress == position && r.(progress := s.progress) == s
    ensures !Attached(s) ==> r == s
  {
    if Attached(s) then s.(progress := position) else s
  }

  /** Mounting the bottom player; its own state starts at 0. */
  function MountStep(s: PlayerState): (r: PlayerState)
    ensures r.shown
    ensures s.shown ==> r == s
    ensures !s.shown ==> r == s.(shown := true, progress := 0, duration := 0)
  {
    if s.shown then s else s.(shown := true, progress := 0, duration := 0)
  }

  /** Unmounting the bottom player discards its state and its element; the context keeps
      the track, the playing flag and the volume. */
  function UnmountStep(s: PlayerState): (r: PlayerState)
    ensures !r.shown && r.progress == 0 && r.duration == 0
    ensures r.(shown := s.shown, progress := s.progress, duration := s.duration) == s
  {
    s.(shown := false, progress := 0, duration := 0)
  }

  /** The session after one handler. */
  function Step(s: PlayerState, e: Event): (r: PlayerState)
    ensures s.currentTrack.Some? ==> r.currentTrack.Some?
    ensures r.currentTrack != s.currentTrack ==> e.SelectTrack? && r.currentTrack == Some(e.track)
    ensures !s.isMuted ==> !r.isMuted
  {
    match e
    case SelectTrack(t) => SelectStep(s, t)
    case TogglePlay => ToggleStep(s)
    case PauseTrack => PauseStep(s)
    case ResumeTrack => ResumeStep(s)
    case VolumeChange(level) => VolumeStep(s, level)
    case SyncEffect => s
    case TimeUpdate(time, reported) => TimeUpdateStep(s, time, reported)
    case Ended => EndedStep(s)
    case Seek(position) => SeekStep(s, position)
    case Mount => MountStep(s)
    case Unmount => UnmountStep(s)
  }

  /** `togglePlay`'s command: `pause()` when it was playing, `play()` otherwise. */
  function ToggleCommands(s: PlayerState): seq<Command> {
    if !Attached(s) then [] else if s.isPlaying then [Pause] else [Play]
  }

  /** The commands a handler sends to the element attached before it runs. An element
      created by the handler itself is described by `Spawned`. */
  function Commands(s: PlayerState, e: Event): (r: seq<Command>)
    ensures !Attached(s) ==> r == []
    ensures forall i :: 0 <= i < |r| && r[i].Load? ==> e.SelectTrack? && r[i].url == e.track.audio
    ensures e.SyncEffect? && Attached(s) ==> r == (if s.isPlaying then [Play] else [Pause])
  {
    if !Attached(s) then []
    else match e
      case SelectTrack(t) =>
        if SameTrack(s, t) then ToggleCommands(s)
        else if s.currentTrack.value.audio != t.audio then [Load(t.audio)]
        else []
      case TogglePlay => ToggleCommands(s)
      case PauseTrack => [Pause]
      case ResumeTrack => [Play]
      case VolumeChange(level) => [SetVolume(level)]
      case SyncEffect => if s.isPlaying then [Play] else [Pause]
      case Seek(position) => [SetTime(position)]
      case _ => []
  }

  /** A handler after which an element exists that did not exist before: it was created by
      rendering the current track. */
  predicate Spawns(s: PlayerState, e: Event) {
    !Attached(s) && Attached(Step(s, e))
  }

  /** The session after a sequence of handlers. */
  function Run(s: PlayerState, es: seq<Event>): PlayerState
    decreases |es|
  {
    if es == [] then s else Run(Step(s, es[0]), es[1..])
  }

  // ---------------------------------------------------------------------------
  // Properties of the session

  /** Selecting the current track again (by strict id) is exactly `togglePlay`, in state
      and in commands, and keeps the track. */
  lemma SelectSameTrackIsToggle(s: PlayerState, t: Track)
    requires SameTrack(s, t)
    ensures Step(s, SelectTrack(t)) == Step(s, TogglePlay)
    ensures Commands(s, SelectTrack(t)) == Commands(s, TogglePlay)
    ensures Step(s, SelectTrack(t)).currentTrack == s.currentTrack
  {
  }

  lemma RunTwo(s: PlayerState, a: Event, b: Event)
    ensures Run(s, [a, b]) == Step(Step(s, a), b)
  {
    assert [a, b][1..] == [b];
    assert [b][1..] == [];
    calc {
      Run(s, [a, b]);
      Run(Step(s, a), [b]);
      Run(Step(Step(s, a), b), []);
    }
  }

  /** Selecting a track twice in a row is the same as selecting it and toggling. */
  lemma SelectTwiceIsSelectThenToggle(s: PlayerState, t: Track)
    ensures Run(s, [SelectTrack(t), SelectTrack(t)]) == Run(s, [SelectTrack(t), TogglePlay])
  {
    var s1 := Step(s, SelectTrack(t));
    RunTwo(s, SelectTrack(t), SelectTrack(t));
    RunTwo(s, SelectTrack(t), TogglePlay);
    assert SameTrack(s1, t);
  }

  /** Once a track is current, no sequence of handlers clears it. */
  lemma {:induction false} TrackNeverCleared(s: PlayerState, es: seq<Event>)
    requires s.currentTrack.Some?
    ensures Run(s, es).currentTrack.Some?
    decreases |es|
  {
    if es != [] {
      TrackNeverCleared(Step(s, es[0]), es[1..]);
    }
  }

  /** Nothing ever sets `isMuted`: starting unmuted, the session stays unmuted. */
  lemma {:induction false} NeverMuted(s: PlayerState, es: seq<Event>)
    requires !s.isMuted
    ensures !Run(s, es).isMuted
    decreases |es|
  {
    if es != [] {
      NeverMuted(Step(s, es[0]), es[1..]);
    }
  }

  predicate PlayingHasTrack(s: PlayerState) {
    s.isPlaying ==> s.currentTrack.Some?
  }

  /** The transport controls that call `togglePlay` (and `resumeTrack`) exist only while a
      track is current, since the bottom player renders nothing without one. */
  predicate ControlsGuarded(s: PlayerState, es: seq<Event>)
    decreases |es|
  {
    es == [] ||
    ((es[0].TogglePlay? || es[0].ResumeTrack? ==> s.currentTrack.Some?) &&
     ControlsGuarded(Step(s, es[0]), es[1..]))
  }

  /** `isPlaying` implies a current track, as long as the transport is only used from the
      controls that exist with a track. */
  lemma {:induction false} PlayingImpliesTrack(s: PlayerState, es: seq<Event>)
    requires PlayingHasTrack(s) && ControlsGuarded(s, es)
    ensures PlayingHasTrack(Run(s, es))
    decreases |es|
  {
    if es != [] {
      PlayingImpliesTrack(Step(s, es[0]), es[1..]);
    }
  }

  /** Without that guard the invariant fails: `togglePlay` from the initial session marks
      it playing with no track. */
  lemma UnguardedToggleBreaksInvariant()
    ensures !PlayingHasTrack(Step(Initial, TogglePlay))
  {
  }

  /** Once a new track is selected with the bottom player mounted, the effect that follows
      the render plays it. */
  lemma NewTrackIsPlayedBySyncEffect(s: PlayerState, t: Track)
    requires s.shown && !SameTrack(s, t)
    ensures Commands(Step(s, SelectTrack(t)), SyncEffect) == [Play]
  {
  }

  /** The effect sends nothing without a track, and otherwise `play()` exactly when the
      session is playing and `pause()` exactly when it is not. */
  lemma SyncEffectFollowsIntent(s: PlayerState)
    ensures s.currentTrack.None? ==> Commands(s, SyncEffect) == []
    ensures Attached(s) ==> (Commands(s, SyncEffect) == [Play] <==> s.isPlaying)
    ensures Attached(s) ==> (Commands(s, SyncEffect) == [Pause] <==> !s.isPlaying)
  {
  }

  /** The seek slider exists with the element and its range ends at `duration`, so a seek
      from it never moves the position past the duration. */
  lemma SeekStaysWithinSlider(s: PlayerState, position: nat)
    requires Attached(s) && position <= s.duration
    ensures Step(s, Seek(position)).progress <= Step(s, Seek(position)).duration
  {
  }

  // ---------------------------------------------------------------------------
  // The session as an object

  class PlayerSession {
    var currentTrack: Option<Track>
    var isPlaying: bool
    var volume: real
    var isMuted: bool
    var progress: nat
    var duration: nat
    var shown: bool
    /** `audioRef.current`. */
    var audio: AudioDevice?

    function State(): PlayerState
      reads this
    {
      PlayerState(currentTrack, isPlaying, volume, isMuted, progress, duration, shown)
    }

    /** The element exists exactly while the bottom player is mounted with a track, and it
        has always been told to load the current track's audio: no earlier track's audio
        is left in it. */
    ghost predicate Valid()
      reads this, audio
    {
      (audio != null <==> Attached(State())) &&
      (audio != null ==> LastSource(audio.log) == Some(currentTrack.value.audio))
    }

    /** `PlayerProvider`'s initial state: no track, not playing, volume 0.5, not muted. */
    constructor ()
      ensures Valid() && State() == Initial && audio == null
    {
      currentTrack, isPlaying, volume, isMuted := None, false, 0.5, false;
      progress, duration, shown, audio := 0, 0, false, null;
    }

    method PauseTrack()
      requires Valid()
      modifies this, audio
      ensures Valid() && audio == old(audio)
      ensures State() == Step(old(State()), Event.PauseTrack)
      ensures audio != null ==> audio.log == old(audio.log) + Commands(old(State()), Event.PauseTrack)
    {
      isPlaying := false;
      if audio != null {
        LastSourceAppend(audio.log, Pause);
        audio.PauseAudio();
      }
    }

    /** The outcome of `play()` is only logged: `isPlaying` stays true either way. */
    method ResumeTrack()
      requires Valid()
      modifies this, audio
      ensures Valid() && audio == old(audio)
      ensures State() == Step(old(State()), Event.ResumeTrack)
      ensures audio != null ==> audio.log == old(audio.log) + Commands(old(State()), Event.ResumeTrack)
    {
      isPlaying := true;
      if audio != null {
        LastSourceAppend(audio.log, Play);
        var rejected := audio.PlayAudio();
      }
    }

    method TogglePlay()
      requires Valid()
      modifies this, audio
      ensures Valid() && audio == old(audio)
      ensures State() == Step(old(State()), Event.TogglePlay)
      ensures audio != null ==> audio.log == old(audio.log) + Commands(old(State()), Event.TogglePlay)
    {
      if isPlaying {
        PauseTrack();
      } else {
        ResumeTrack();
      }
    }

    /** `playTrack(track)`, followed by the render in which the element takes the new
        track's `src`. */
    method PlayTrack(track: Track)
      requires Valid()
      modifies this, audio
      ensures Valid()
      ensures State() == Step(old(State()), SelectTrack(track))
      ensures old(audio) != null ==>
                audio == old(audio) &&
                audio.log == old(audio.log) + Commands(old(State()), SelectTrack(track))
      ensures old(audio) == null ==>
                (audio != null <==> Spawns(old(State()), SelectTrack(track))) &&
                (audio != null ==> fresh(audio) && audio.log == [Load(track.audio)])
    {
      if currentTrack.Some? && currentTrack.value.id == track.id {
        TogglePlay();
        return;
      }
      var previous := currentTrack;
      currentTrack := Some(track);
      isPlaying := true;
      if audio != null {
        if previous.value.audio != track.audio {
          LastSourceAppend(audio.log, Load(track.audio));
          audio.SetSrc(track.audio);
        }
      } else if shown {
        audio := new AudioDevice(track.audio);
      }
    }

    /** `handleVolumeChange(level)`: no clamping; the slider keeps it within [0, 1]. */
    method HandleVolumeChange(level: real)
      requires Valid()
      modifies this, audio
      ensures Valid() && audio == old(audio)
      ensures State() == Step(old(State()), VolumeChange(level))
      ensures audio != null ==> audio.log == old(audio.log) + Commands(old(State()), VolumeChange(level))
    {
      volume := level;
      if audio != null {
        LastSourceAppend(audio.log, SetVolume(level));
        audio.SetVolumeProperty(level);
      }
      if level > 0.0 && isMuted {
        isMuted := false;
      }
    }

    /** The bottom player's play/pause effect. */
    method SyncEffect()
      requires Valid()
      modifies audio
      ensures Valid() && State() == old(State())
      ensures audio != null ==> audio.log == old(audio.log) + Commands(old(State()), Event.SyncEffect)
    {
      if currentTrack.None? {
        return;
      }
      if isPlaying && audio != null {
        LastSourceAppend(audio.log, Play);
        var rejected := audio.PlayAudio();
      } else if !isPlaying && audio != null {
        LastSourceAppend(audio.log, Pause);
        audio.PauseAudio();
      }
    }

    /** `onTimeUpdate` (also bound to `onLoadedMetadata`), given the element's
        `currentTime` and `duration`. */
    method OnTimeUpdate(time: nat, reported: Option<nat>)
      requires Valid()
      modifies this
      ensures Valid() && audio == old(audio)
      ensures State() == Step(old(State()), TimeUpdate(time, reported))
    {
      if audio != null {
        progress := time;
        duration := reported.GetOr(0);
      }
    }

    method OnEnded()
      requires Valid()
      modifies this
      ensures Valid() && audio == old(audio)
      ensures State() == Step(old(State()), Ended)
    {
      isPlaying := false;
      progress := 0;
    }

    method HandleSeek(position: nat)
      requires Valid()
      modifies this, audio
      ensures Valid() && audio == old(audio)
      ensures State() == Step(old(State()), Seek(position))
      ensures audio != null ==> audio.log == old(audio.log) + Commands(old(State()), Seek(position))
    {
      if audio != null {
        LastSourceAppend(audio.log, SetTime(position));
        audio.SetCurrentTime(position);
        progress := position;
      }
    }

    /** The bottom player appears; with a track it renders a new element. */
    method Mount()
      requires Valid()
      modifies this
      ensures Valid()
      ensures State() == Step(old(State()), Event.Mount)
      ensures old(audio) != null ==> audio == old(audio)
      ensures old(audio) == null ==>
                (audio != null <==> Spawns(old(State()), Event.Mount)) &&
                (audio != null ==> fresh(audio) && audio.log == [Load(currentTrack.value.audio)])
    {
      if !shown {
        shown, progress, duration := true, 0, 0;
        if currentTrack.Some? {
          audio := new AudioDevice(currentTrack.value.audio);
        }
      }
    }

    /** The bottom player disappears with its element. */
    method Unmount()
      requires Valid()
      modifies this
      ensures Valid() && audio == null
      ensures State() == Step(old(State()), Event.Unmount)
    {
      shown, progress, duration, audio := false, 0, 0, null;
    }
  }
}
