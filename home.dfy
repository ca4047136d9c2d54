/** The Home component of app/page.tsx as an object: its three state
    variables, the cleanup React holds for the audio effect, and the
    browser's clock, timer list and audio output, updated in place by the
    component's handlers. Every method is proved against the transition
    function of module Experience that it implements. */
module Home {
  import opened Tones
  import opened Timers
  import opened Experience
  import opened Properties

  class Page {
    var scene: int
    var isPlaying: bool
    /** Whether audioContext is set. */
    var audioContext: bool
    var now: int
    var pending: seq<Timer>
    var log: seq<Emission>
    var nextId: nat
    var cleanup: Option<nat>
    var draws: nat
    /** The source of Math.random(). */
    const random: Random
    /** The instant of the start, once the button has been pressed. */
    ghost var startedAt: int

    function State(): Sys
      reads this
    {
      Sys(scene, isPlaying, audioContext, now, pending, log, nextId, cleanup, draws)
    }

    /** Quiet until the start, the invariant of a start at `startedAt` after it. */
    ghost predicate Valid()
      reads this
    {
      && Experience.Valid(State())
      && (if isPlaying then Started(State(), startedAt) else Quiet(State()))
    }

    /** The component just mounted at time `t`. */
    constructor (rng: Random, t: int)
      ensures State() == Initial(t) && random == rng && Valid()
    {
      scene, isPlaying, audioContext := 1, false, false;
      now, pending, log := t, [], [];
      nextId, cleanup, draws := 0, None, 0;
      random := rng;
      startedAt := t;
    }

    /** playTone as called by a closure that sees audio context `ctx`. */
    method PlayTone(ctx: bool, t: Tone)
      modifies this`log
      ensures State() == Experience.PlayTone(old(State()), ctx, t)
    {
      if ctx {
        log := log + [Emission(now, t)];
      }
    }

    method SetTimeout(delay: nat, a: Action) returns (id: nat)
      modifies this`pending, this`nextId
      ensures id == old(nextId)
      ensures State() == Experience.SetTimeout(old(State()), delay, a)
    {
      id := nextId;
      pending := pending + [Timer(id, now + delay, a)];
      nextId := nextId + 1;
    }

    method ClearInterval(id: nat)
      modifies this`pending
      ensures pending == RemoveId(old(pending), id)
    {
      pending := RemoveId(pending, id);
    }

    /** Run the cleanup the previous effect run returned, if any. */
    method RunCleanup()
      modifies this`pending, this`cleanup
      ensures State() == Cleanup(old(State()))
    {
      if cleanup.Some? {
        ClearInterval(cleanup.value);
        cleanup := None;
      }
    }

    /** The body of the audio effect. */
    method RunEffect()
      modifies this`pending, this`nextId, this`log, this`cleanup
      ensures State() == Experience.RunEffect(old(State()))
    {
      ghost var s0 := State();
      if !isPlaying {
        return;
      }
      if scene == 1 {
        var interval := SetTimeout(AmbientPeriodMs, Ambient(audioContext));
        cleanup := Some(interval);
        return;
      }
      if scene == 2 {
        PlayTone(audioContext, Tone(440.0, 500, Sine));
        var _ := SetTimeout(500, Play(Tone(554.0, 500, Sine), audioContext));
        EffectPlaysPhrase(s0);
        assert Phrase(2)[1..] == [Cue(500, Tone(554.0, 500, Sine))];
      }
      if scene == 3 {
        PlayTone(audioContext, Tone(523.0, 300, Sine));
        var _ := SetTimeout(300, Play(Tone(659.0, 300, Sine), audioContext));
        var _ := SetTimeout(600, Play(Tone(784.0, 500, Sine), audioContext));
        EffectPlaysPhrase(s0);
        var later := Phrase(3)[1..];
        assert later == [Cue(300, Tone(659.0, 300, Sine)), Cue(600, Tone(784.0, 500, Sine))];
        ScheduledAt(s0.nextId, s0.now, later, s0.audio, 0);
        ScheduledAt(s0.nextId, s0.now, later, s0.audio, 1);
      }
    }

    /** React after a state update, given the dependencies [scene, isPlaying,
        audioContext] of the previous render. */
    method Commit(scene0: int, playing0: bool, audio0: bool)
      modifies this`pending, this`nextId, this`log, this`cleanup
      ensures State() == React(old(State()).(scene := scene0, playing := playing0, audio := audio0), old(State()))
    {
      if scene0 != scene || playing0 != isPlaying || audio0 != audioContext {
        RunCleanup();
        RunEffect();
      }
    }

    /** The button's handler, with no guard of its own. */
    method StartExperience()
      modifies this`isPlaying, this`pending, this`nextId, this`log, this`cleanup
      ensures State() == Experience.StartExperience(old(State()))
    {
      var scene0, playing0, audio0 := scene, isPlaying, audioContext;
      isPlaying := true;
      var _ := SetTimeout(Scene2DelayMs, SetScene(2));
      var _ := SetTimeout(Scene3DelayMs, SetScene(3));
      Commit(scene0, playing0, audio0);
    }

    /** A press of the start button, which calls startExperience. The button
        is on screen while not playing and, once the first press has set
        isPlaying, for the exit fade of the intro overlay. */
    method PressStart()
      requires Valid() && (isPlaying ==> now < startedAt + ExitFadeMs)
      modifies this
      ensures State() == Experience.StartExperience(old(State())) && Valid()
      ensures scene == 1 && log == old(log)
      ensures startedAt == if old(isPlaying) then old(startedAt) else old(now)
    {
      var first := !isPlaying;
      if first {
        PressStartStarts(State());
      } else {
        RestartKeeps(State(), startedAt);
      }
      StartExperience();
      if first {
        startedAt := now;
      }
    }

    /** The mount effect setting the audio context. */
    method AttachAudio()
      requires Valid() && !audioContext
      modifies this`audioContext, this`pending, this`nextId, this`log, this`cleanup
      ensures State() == Experience.AttachAudio(old(State())) && Valid()
      ensures scene == old(scene) && old(log) <= log
    {
      ghost var s0 := State();
      if isPlaying {
        AttachKeeps(s0, startedAt);
      } else {
        QuietAttach(s0);
      }
      ReactExtends(s0, s0.(audio := true));
      var scene0, playing0, audio0 := scene, isPlaying, audioContext;
      audioContext := true;
      Commit(scene0, playing0, audio0);
    }

    /** The browser runs the callback of the pending timer at index `i`. */
    method FireTimer(i: nat)
      requires i < |pending|
      modifies this`scene, this`now, this`pending, this`nextId, this`log, this`cleanup, this`draws
      ensures State() == Experience.FireTimer(random, old(State()), i)
    {
      var tm := pending[i];
      now := tm.due;
      pending := RemoveAt(pending, i);
      match tm.action
      case SetScene(k) =>
        var scene0 := scene;
        scene := k;
        Commit(scene0, isPlaying, audioContext);
      case Play(t, ctx) =>
        PlayTone(ctx, t);
      case Ambient(ctx) =>
        pending := pending + [Timer(tm.id, tm.due + AmbientPeriodMs, tm.action)];
        var r := random(draws);
        draws := draws + 1;
        PlayTone(ctx, AmbientTone(r));
    }

    /** The browser's event loop while the clock runs to `t`: the earliest
        due timer fires, one at a time, until none is due by `t`. */
    method RunUntil(t: int)
      requires Valid() && now <= t
      modifies this`scene, this`now, this`pending, this`nextId, this`log, this`cleanup, this`draws
      ensures State() == AdvanceTo(random, old(State()), t) && Valid()
      ensures old(log) <= log && old(scene) <= scene
      ensures isPlaying ==> scene == SceneAt(t - startedAt)
    {
      if isPlaying {
        AdvanceKeeps(random, State(), startedAt, t);
      } else {
        QuietAdvance(random, State(), t);
      }
      while pending != [] && pending[EarliestIndex(pending)].due <= t
        invariant Valid() && now <= t && isPlaying == old(isPlaying)
        invariant AdvanceTo(random, State(), t) == AdvanceTo(random, old(State()), t)
        decreases t - now, CountDue(pending, now)
      {
        var i := EarliestIndex(pending);
        ghost var s0 := State();
        FireProgress(random, s0, i);
        FireKeeps(random, s0, startedAt, i);
        FireTimer(i);
      }
      now := t;
    }
  }
}
