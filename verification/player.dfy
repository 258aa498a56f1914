/**
  The player screen's transport control, as a state machine. The state is
  what the screen remembers (`mediaPlayer`, `isPlaying`, `currentPosition`,
  `duration`, `volume`, `errorMessage`) together with what it has pushed into
  the media handle (its position as the screen's own calls set it, the
  channel volumes, whether the completion listener is registered). Each user action or platform
  callback is an event with a guard (a button's `enabled` expression) and
  an effect (the body of its handler). A platform call that throws is chosen
  by a `fails` flag, which selects the handler's `catch` branch.
 */
module Player {

  import opened Optional

  /** A volume level in 0.0..1.0; the model never computes with it. */
  datatype Volume = Volume(level: real)

  /** The volume the screen starts with. */
  const DefaultVolume: Volume := Volume(0.7)

  /** The two channel volumes last given to the handle's `setVolume(left, right)`. */
  datatype Channels = Channels(left: Volume, right: Volume)

  /** The messages the screen shows, by cause. */
  datatype ErrorMessage =
    | NotFound(song: string)   // the song has no raw resource
    | InitFailed               // creating or setting up the handle threw
    | PlayFailed               // `start` threw
    | StopFailed               // `stop` or `prepare` threw

  datatype State = State(
    hasHandle: bool,                  // `mediaPlayer != null`
    listening: bool,                  // the completion listener is registered
    isPlaying: bool,
    currentPosition: int,             // the position shown on the slider, in ms
    committedPosition: int,           // the last `seekTo` target, or 0 after `stop` and `prepare`, in ms
    duration: int,                    // in ms
    volume: Volume,
    handleVolume: Option<Channels>,   // `None` until `setVolume` reaches the handle
    errorMessage: Option<ErrorMessage>)

  /** The remembered state before the set-up effect runs. */
  const Fresh: State := State(false, false, false, 0, 0, 0, DefaultVolume, None, None)

  /** The set-up steps after the resource lookup, in the order the effect runs them. */
  datatype InitStep = Create | ReadDuration | ApplyVolume | SetListener

  /**
    The well-formedness the screen keeps: without a handle nothing plays and
    nothing is registered, the handle's two channels always carry the same
    volume, the one the screen shows, and positions are never negative.
   */
  ghost predicate Inv(s: State) {
    && (!s.hasHandle ==> !s.isPlaying && !s.listening && s.handleVolume.None?)
    && (s.handleVolume.Some? ==> s.handleVolume.value == Channels(s.volume, s.volume))
    && 0 <= s.currentPosition
    && 0 <= s.committedPosition
  }

  /**
    The set-up effect for `song`: `resId` is the looked-up resource id (0
    when absent), `mediaDuration` what the handle reports, and `fault` the
    step that throws, if any. A throw after the handle is stored leaves
    the handle in place.
   */
  function Init(song: string, resId: int, mediaDuration: int, fault: Option<InitStep>): (s: State)
    ensures Inv(s)
    ensures !s.isPlaying && s.currentPosition == 0 && s.volume == DefaultVolume
    ensures resId == 0 ==> !s.hasHandle && s.errorMessage == Some(NotFound(song))
    ensures resId != 0 && fault.Some? ==> s.errorMessage == Some(InitFailed)
    ensures resId != 0 ==> (s.hasHandle <==> fault != Some(Create))
    ensures resId != 0 && fault.None? ==>
      && s.listening && s.errorMessage.None? && s.duration == mediaDuration
      && s.handleVolume == Some(Channels(DefaultVolume, DefaultVolume))
  {
    if resId == 0 then
      Fresh.(errorMessage := Some(NotFound(song)))
    else
      match fault
      case Some(Create) =>
        Fresh.(errorMessage := Some(InitFailed))
      case Some(ReadDuration) =>
        Fresh.(hasHandle := true, errorMessage := Some(InitFailed))
      case Some(ApplyVolume) =>
        Fresh.(hasHandle := true, duration := mediaDuration, errorMessage := Some(InitFailed))
      case Some(SetListener) =>
        Fresh.(hasHandle := true, duration := mediaDuration,
               handleVolume := Some(Channels(Fresh.volume, Fresh.volume)),
               errorMessage := Some(InitFailed))
      case None =>
        Fresh.(hasHandle := true, listening := true, duration := mediaDuration,
               handleVolume := Some(Channels(Fresh.volume, Fresh.volume)))
  }

  // ---------------------------------------------------------------------------
  // Handlers, as written: each runs its `?.` calls only when a handle exists.
  // ---------------------------------------------------------------------------

  function PlayClick(s: State, fails: bool): State {
    if s.hasHandle && fails then s.(errorMessage := Some(PlayFailed))
    else s.(isPlaying := true)
  }

  function PauseClick(s: State, fails: bool): State {
    if s.hasHandle && fails then s
    else s.(isPlaying := false)
  }

  function StopClick(s: State, fails: bool): State {
    if s.hasHandle && fails then s.(errorMessage := Some(StopFailed))
    else if s.hasHandle then s.(committedPosition := 0, currentPosition := 0, isPlaying := false)
    else s.(currentPosition := 0, isPlaying := false)
  }

  function OnCompletion(s: State): State {
    s.(isPlaying := false, currentPosition := 0)
  }

  function DragSeekTo(s: State, p: int): State {
    s.(currentPosition := p)
  }

  function FinishSeek(s: State, fails: bool): State {
    if s.hasHandle && !fails then s.(committedPosition := s.currentPosition) else s
  }

  /** The volume slider's handler; its `setVolume` is not inside a `try`. */
  function SetVolume(s: State, v: Volume): State {
    s.(volume := v, handleVolume := if s.hasHandle then Some(Channels(v, v)) else s.handleVolume)
  }

  // ---------------------------------------------------------------------------
  // Events, guards and steps
  // ---------------------------------------------------------------------------

  datatype Event =
    | PressPlay(fails: bool)
    | PressPause(fails: bool)
    | PressStop(fails: bool)
    | Completion
    | DragSeek(position: int)
    | ReleaseSeek(fails: bool)
    | MoveVolume(volume: Volume)

  predicate PlayEnabled(s: State) {
    s.hasHandle && !s.isPlaying
  }

  predicate PauseEnabled(s: State) {
    s.hasHandle && s.isPlaying
  }

  predicate StopEnabled(s: State) {
    s.hasHandle && s.isPlaying
  }

  /** The upper end of the position slider: the duration, but at least 1. */
  function SeekMax(s: State): int {
    if s.duration < 1 then 1 else s.duration
  }

  /**
    When an event can occur: the three buttons by their `enabled`
    expressions, completion only once the listener is registered, the
    sliders at any time but only within their value ranges.
   */
  predicate Enabled(s: State, e: Event) {
    match e
    case PressPlay(_) => PlayEnabled(s)
    case PressPause(_) => PauseEnabled(s)
    case PressStop(_) => StopEnabled(s)
    case Completion => s.listening
    case DragSeek(p) => 0 <= p <= SeekMax(s)
    case ReleaseSeek(_) => true
    case MoveVolume(v) => 0.0 <= v.level <= 1.0
  }

  function Apply(s: State, e: Event): State {
    match e
    case PressPlay(fails) => PlayClick(s, fails)
    case PressPause(fails) => PauseClick(s, fails)
    case PressStop(fails) => StopClick(s, fails)
    case Completion => OnCompletion(s)
    case DragSeek(p) => DragSeekTo(s, p)
    case ReleaseSeek(fails) => FinishSeek(s, fails)
    case MoveVolume(v) => SetVolume(s, v)
  }

  /** One event: a disabled control or an impossible callback changes nothing. */
  function Step(s: State, e: Event): (t: State)
    ensures Inv(s) ==> Inv(t)
    ensures t.hasHandle == s.hasHandle && t.listening == s.listening && t.duration == s.duration
  {
    if Enabled(s, e) then Apply(s, e) else s
  }

  /** A sequence of events, applied in order. */
  function Run(s: State, es: seq<Event>): State
    decreases |es|
  {
    if |es| == 0 then s else Run(Step(s, es[0]), es[1..])
  }

  // ---------------------------------------------------------------------------
  // Properties of single transitions
  // ---------------------------------------------------------------------------

  /**
    Play acts exactly when a handle exists and nothing plays. It then starts
    playback at the current position, or, when `start` throws, leaves the
    playing flag as it was and shows an error.
   */
  lemma PlayTransition(s: State, fails: bool)
    ensures var t := Step(s, PressPlay(fails));
      && (t != s ==> s.hasHandle && !s.isPlaying)
      && (PlayEnabled(s) && !fails ==>
            t == s.(isPlaying := true) && t.currentPosition == s.currentPosition)
      && (PlayEnabled(s) && fails ==>
            t == s.(errorMessage := Some(PlayFailed)) && !t.isPlaying)
  {
  }

  /**
    Pause acts only while a handle exists and playback runs. It stops the
    playing flag and keeps the position; a failing `pause` changes nothing
    and shows no error.
   */
  lemma PauseTransition(s: State, fails: bool)
    ensures var t := Step(s, PressPause(fails));
      && (t != s ==> s.hasHandle && s.isPlaying)
      && (PauseEnabled(s) && !fails ==>
            t == s.(isPlaying := false) && t.currentPosition == s.currentPosition)
      && (fails ==> t == s)
  {
  }

  /**
    Stop acts only while a handle exists and playback runs. It rewinds the
    shown position to zero, leaves the handle at its start after `stop` and
    `prepare`, and stops the playing flag;
    when `stop` or `prepare` throws, it only shows an error and playback is
    still flagged as running.
   */
  lemma StopTransition(s: State, fails: bool)
    ensures var t := Step(s, PressStop(fails));
      && (t != s ==> s.hasHandle && s.isPlaying)
      && (StopEnabled(s) && !fails ==>
            t == s.(isPlaying := false, currentPosition := 0, committedPosition := 0))
      && (StopEnabled(s) && fails ==>
            t == s.(errorMessage := Some(StopFailed)) && t.isPlaying)
  {
  }

  /** Completion stops the playing flag and rewinds the shown position, and nothing else. */
  lemma CompletionTransition(s: State)
    requires s.listening
    ensures Step(s, Completion) == s.(isPlaying := false, currentPosition := 0)
  {
  }

  /**
    Dragging the position slider changes only the shown position; the
    handle is sought only on release, and then to the shown position, and
    without a handle (or when `seekTo` throws) releasing changes nothing.
   */
  lemma SeekTransitions(s: State, p: int, fails: bool)
    requires 0 <= p <= SeekMax(s)
    ensures Step(s, DragSeek(p)) == s.(currentPosition := p)
    ensures var t := Step(s, ReleaseSeek(fails));
      && (s.hasHandle && !fails ==> t == s.(committedPosition := s.currentPosition))
      && (!s.hasHandle || fails ==> t == s)
  {
  }

  /** Moving the volume slider gives both channels of the handle the same new level. */
  lemma VolumeTransition(s: State, v: Volume)
    requires 0.0 <= v.level <= 1.0
    ensures var t := Step(s, MoveVolume(v));
      && t.volume == v
      && (s.hasHandle ==> t.handleVolume == Some(Channels(v, v)))
      && (!s.hasHandle ==> t.handleVolume == s.handleVolume)
      && t.(volume := s.volume, handleVolume := s.handleVolume) == s
  {
  }

  // ---------------------------------------------------------------------------
  // Properties of whole runs
  // ---------------------------------------------------------------------------

  /**
    Every state the screen reaches after its set-up keeps the
    well-formedness invariant, and no event creates or drops the handle or
    changes the duration.
   */
  lemma {:induction false} RunPreserves(s: State, es: seq<Event>)
    requires Inv(s)
    ensures var t := Run(s, es);
      && Inv(t)
      && t.hasHandle == s.hasHandle && t.listening == s.listening && t.duration == s.duration
    decreases |es|
  {
    if 0 < |es| {
      RunPreserves(Step(s, es[0]), es[1..]);
    }
  }

  /**
    Without a handle nothing can ever play, and the error shown after
    set-up stays shown whatever the user does.
   */
  lemma {:induction false} NoHandleIsFinal(s: State, es: seq<Event>)
    requires Inv(s) && !s.hasHandle
    ensures var t := Run(s, es);
      && !t.hasHandle && !t.isPlaying && t.errorMessage == s.errorMessage
    decreases |es|
  {
    if 0 < |es| {
      var t := Step(s, es[0]);
      assert t.errorMessage == s.errorMessage;
      NoHandleIsFinal(t, es[1..]);
    }
  }

  /**
    Opening a song with no resource ends in the not-found error with no
    handle, and stays there under any sequence of events.
   */
  lemma MissingResource(song: string, mediaDuration: int, fault: Option<InitStep>, es: seq<Event>)
    ensures var t := Run(Init(song, 0, mediaDuration, fault), es);
      && !t.hasHandle && !t.isPlaying && t.errorMessage == Some(NotFound(song))
  {
    NoHandleIsFinal(Init(song, 0, mediaDuration, fault), es);
  }

  /**
    The number of `release` calls when the screen is disposed: one when a
    handle exists, none otherwise; a failing `release` is only logged.
   */
  function ReleaseCalls(s: State): (calls: nat)
    ensures calls <= 1
    ensures calls == 1 <==> s.hasHandle
  {
    if s.hasHandle then 1 else 0
  }

  /**
    Disposal releases a handle exactly when set-up stored one: once after a
    set-up that got past creating the handle, never otherwise, whatever
    happened in between.
   */
  lemma ReleaseOnce(song: string, resId: int, mediaDuration: int, fault: Option<InitStep>, es: seq<Event>)
    ensures ReleaseCalls(Run(Init(song, resId, mediaDuration, fault), es))
         == if resId != 0 && fault != Some(Create) then 1 else 0
  {
    RunPreserves(Init(song, resId, mediaDuration, fault), es);
  }
}
