/**
 * The sound handles of the audio manager. A looping sound keeps a source
 * node only while it plays, and resumes where it paused by remembering the
 * playback offset; a one-shot starts a fresh node on every play and cannot be
 * paused. The context's clock (`currentTime`) is an input to every call.
 */
module Audio {
  import opened Wrappers

  /** A looping buffer source node, started with `start(0, startOffset)`. */
  datatype Source = Source(startOffset: real)

  /** The state a looping sound's closure keeps: its node, the clock time playback began at, and the offset. */
  datatype LoopState = LoopState(source: Option<Source>, startedAt: real, offset: real) {
    /** `isPlaying()`: a node exists exactly while the sound plays. */
    predicate IsPlaying() {
      source.Some?
    }
  }

  const LoopInit: LoopState := LoopState(None, 0.0, 0.0)

  /** `play()` at clock time `now`: ignored while playing; otherwise a node starts at the remembered offset. */
  function LoopPlay(s: LoopState, now: real): (t: LoopState)
    ensures s.IsPlaying() ==> t == s
    ensures !s.IsPlaying() ==> t.IsPlaying() && t.source.value.startOffset == s.offset
    ensures !s.IsPlaying() ==> t.offset == s.offset && t.startedAt == now - s.offset
  {
    if s.source.Some? then s
    else LoopState(Some(Source(s.offset)), now - s.offset, s.offset)
  }

  /** `pause()` at `now`: ignored while paused; otherwise the offset becomes the position reached and the node goes. */
  function LoopPause(s: LoopState, now: real): (t: LoopState)
    ensures !s.IsPlaying() ==> t == s
    ensures s.IsPlaying() ==> !t.IsPlaying() && t.offset == now - s.startedAt && t.startedAt == s.startedAt
  {
    if s.source.None? then s
    else LoopState(None, s.startedAt, now - s.startedAt)
  }

  /**
   * Where in the buffer playback is at clock time `now`: moving with the
   * clock while playing, frozen at the offset while paused.
   */
  function Position(s: LoopState, now: real): real {
    if s.IsPlaying() then now - s.startedAt else s.offset
  }

  /** Playing at t and pausing at t' advances the offset by exactly t' - t. */
  lemma PlayThenPause(s: LoopState, t: real, t': real)
    requires !s.IsPlaying()
    ensures LoopPause(LoopPlay(s, t), t').offset == s.offset + (t' - t)
    ensures !LoopPause(LoopPlay(s, t), t').IsPlaying()
  {
  }

  /** Neither call makes playback jump: the position just after the call is the position just before. */
  lemma NoJump(s: LoopState, now: real)
    ensures Position(LoopPlay(s, now), now) == Position(s, now)
    ensures Position(LoopPause(s, now), now) == Position(s, now)
  {
  }

  datatype LoopEvent = Play(at: real) | Pause(at: real)

  function Step(s: LoopState, e: LoopEvent): LoopState {
    match e
    case Play(t) => LoopPlay(s, t)
    case Pause(t) => LoopPause(s, t)
  }

  /** The state after a sequence of calls, first to last. */
  function Run(s: LoopState, events: seq<LoopEvent>): LoopState
    decreases |events|
  {
    if events == [] then s else Run(Step(s, events[0]), events[1..])
  }

  /** `isPlaying()` after a sequence of calls is true exactly when the last call was `play()`. */
  lemma {:induction false} PlayingIffLastWasPlay(s: LoopState, events: seq<LoopEvent>)
    ensures Run(s, events).IsPlaying() <==>
              if events == [] then s.IsPlaying() else events[|events| - 1].Play?
    decreases |events|
  {
    if events != [] {
      PlayingIffLastWasPlay(Step(s, events[0]), events[1..]);
      if |events| > 1 {
        assert events[1..][|events[1..]| - 1] == events[|events| - 1];
      }
    }
  }

  /**
   * The total time spent playing, defined from the calls alone: from each
   * play() to the pause() that stops it (or to `now`); a play() while
   * playing and a pause() while paused count for nothing. `since` is the
   * time the current stretch of playing began, if one is open.
   */
  function PlayedTime(events: seq<LoopEvent>, since: Option<real>, now: real): real
    decreases |events|
  {
    if events == [] then (if since.Some? then now - since.value else 0.0)
    else match events[0]
      case Play(t) => PlayedTime(events[1..], if since.Some? then since else Some(t), now)
      case Pause(t) =>
        (if since.Some? then t - since.value else 0.0) + PlayedTime(events[1..], None, now)
  }

  /**
   * The offset bookkeeping is exact: after any sequence of calls, the
   * position equals the offset at the start plus the total time played.
   */
  lemma {:induction false} PositionIsPlayedTime(s: LoopState, events: seq<LoopEvent>, since: Option<real>, now: real)
    requires s.IsPlaying() <==> since.Some?
    requires since.Some? ==> s.startedAt == since.value - s.offset
    ensures Position(Run(s, events), now) == s.offset + PlayedTime(events, since, now)
    decreases |events|
  {
    if events != [] {
      var s' := Step(s, events[0]);
      match events[0]
      case Play(t) =>
        PositionIsPlayedTime(s', events[1..], if since.Some? then since else Some(t), now);
      case Pause(t) =>
        PositionIsPlayedTime(s', events[1..], None, now);
    }
  }

  /** From a fresh sound, the position is the total time played. */
  lemma FreshPositionIsPlayedTime(events: seq<LoopEvent>, now: real)
    ensures Position(Run(LoopInit, events), now) == PlayedTime(events, None, now)
  {
    PositionIsPlayedTime(LoopInit, events, None, now);
  }

  /** A looping sound (`makeLoop`): the closure's mutable `source`, `startedAt` and `offset`. */
  class LoopSound {
    const volume: real
    var source: Option<Source>
    var startedAt: real
    var offset: real

    function State(): LoopState
      reads this
    {
      LoopState(source, startedAt, offset)
    }

    constructor (volume: real)
      ensures this.volume == volume && State() == LoopInit
    {
      this.volume := volume;
      source := None;
      startedAt := 0.0;
      offset := 0.0;
    }

    method Play(now: real)
      modifies this
      ensures State() == LoopPlay(old(State()), now)
    {
      if source.Some? {
        return;
      }
      source := Some(Source(offset));
      startedAt := now - offset;
    }

    method Pause(now: real)
      modifies this
      ensures State() == LoopPause(old(State()), now)
    {
      if source.None? {
        return;
      }
      offset := now - startedAt;
      source := None;
    }

    function IsPlaying(): (b: bool)
      reads this
      ensures b <==> State().IsPlaying()
    {
      source.Some?
    }
  }

  /** A one-shot sound (`makeOneShot`): each play starts a new node; pause does nothing. */
  class OneShot {
    const volume: real
    /** The number of buffer source nodes started so far. */
    var started: nat

    constructor (volume: real)
      ensures this.volume == volume && started == 0
    {
      this.volume := volume;
      started := 0;
    }

    method Play()
      modifies this
      ensures started == old(started) + 1
    {
      started := started + 1;
    }

    method Pause()
      ensures unchanged(this)
    {
    }

    function IsPlaying(): (b: bool)
      ensures !b
    {
      false
    }
  }

  datatype ContextState = Suspended | Running | Closed

  /** The shared AudioContext: its state and clock. */
  class AudioContext {
    var state: ContextState
    var currentTime: real

    constructor (state: ContextState)
      ensures this.state == state && currentTime == 0.0
    {
      this.state := state;
      currentTime := 0.0;
    }
  }

  /** The document, reduced to the event types the unlock handler is registered for. */
  class Document {
    var resumeListeners: set<string>

    constructor ()
      ensures resumeListeners == {}
    {
      resumeListeners := {};
    }
  }

  const UnlockEvents: set<string> := {"touchstart", "click"}

  /**
   * `unlockAudioContext`: only a suspended context gets the one-time
   * resume handler, on touchstart and on click.
   */
  method UnlockAudioContext(ctx: AudioContext, doc: Document)
    modifies doc
    ensures ctx.state != Suspended ==> doc.resumeListeners == old(doc.resumeListeners)
    ensures ctx.state == Suspended ==> doc.resumeListeners == old(doc.resumeListeners) + UnlockEvents
  {
    if ctx.state != Suspended {
      return;
    }
    doc.resumeListeners := doc.resumeListeners + UnlockEvents;
  }

  /** The resume handler: the context resumes and both registrations are removed. */
  method Resume(ctx: AudioContext, doc: Document)
    modifies ctx, doc
    ensures ctx.state == Running && ctx.currentTime == old(ctx.currentTime)
    ensures doc.resumeListeners == old(doc.resumeListeners) - UnlockEvents
  {
    ctx.state := Running;
    doc.resumeListeners := doc.resumeListeners - UnlockEvents;
  }

  /** The four looping footstep channels. */
  datatype Channel = GrassWalk | GrassRun | StoneWalk | StoneRun

  datatype Command = PlayCmd | PauseCmd

  /**
   * The footstep module bindings, `undefined` until the audio files have
   * been fetched and decoded.
   */
  class Footsteps {
    var grassWalk: LoopSound?
    var grassRun: LoopSound?
    var stoneWalk: LoopSound?
    var stoneRun: LoopSound?

    constructor ()
      ensures grassWalk == null && grassRun == null && stoneWalk == null && stoneRun == null
    {
      grassWalk, grassRun, stoneWalk, stoneRun := null, null, null, null;
    }

    predicate Ready()
      reads this
    {
      grassWalk != null && grassRun != null && stoneWalk != null && stoneRun != null
    }

    /** Each channel is its own `makeLoop` handle, so no two fields share a sound. */
    predicate Distinct()
      reads this
    {
      Ready() ==>
        && grassWalk != grassRun && grassWalk != stoneWalk && grassWalk != stoneRun
        && grassRun != stoneWalk && grassRun != stoneRun && stoneWalk != stoneRun
    }

    function Get(c: Channel): LoopSound?
      reads this
    {
      match c
      case GrassWalk => grassWalk
      case GrassRun => grassRun
      case StoneWalk => stoneWalk
      case StoneRun => stoneRun
    }

    /** The playback state of all four channels. */
    function States(): FootstepStates
      requires Ready()
      reads this, grassWalk, grassRun, stoneWalk, stoneRun
    {
      FootstepStates(grassWalk.State(), grassRun.State(), stoneWalk.State(), stoneRun.State())
    }
  }

  datatype FootstepStates = FootstepStates(grassWalk: LoopState, grassRun: LoopState, stoneWalk: LoopState, stoneRun: LoopState)
  {
    function Get(c: Channel): LoopState {
      match c
      case GrassWalk => grassWalk
      case GrassRun => grassRun
      case StoneWalk => stoneWalk
      case StoneRun => stoneRun
    }
  }

  /** The channel a footstep should sound on: the gait picks walk or run, the surface picks stone or grass. */
  function Intended(moving: bool, running: bool, onStone: bool): Option<Channel> {
    if !moving then None
    else if running then Some(if onStone then StoneRun else GrassRun)
    else Some(if onStone then StoneWalk else GrassWalk)
  }

  function Apply(cmd: Command, s: LoopState, now: real): LoopState {
    match cmd
    case PlayCmd => LoopPlay(s, now)
    case PauseCmd => LoopPause(s, now)
  }
}
