/** The state of the Home component (app/page.tsx) as a value, and its
    transitions as functions: startExperience, the audio effect with its
    cleanup, the arrival of the audio context, timer callbacks, and the
    passing of time. The class in module Home is proved against these. */
module Experience {
  import opened Tones
  import opened Timers

  /** The injected Math.random(): the n-th call returns Random(n). */
  type Random = nat -> Unit

  /** Delays of the two progression timeouts, measured from the start. */
  const Scene2DelayMs: nat := 8000
  const Scene3DelayMs: nat := 16000

  /** How long the start button stays on screen once isPlaying is set: the
      intro overlay leaves through AnimatePresence with an exit animation to
      opacity 0, and framer-motion's default tween for opacity lasts 0.3 s.
      Its button still calls startExperience while the overlay fades. */
  const ExitFadeMs: nat := 300

  /** The component's state: the three React state variables (`audio` is
      "audioContext is set"), the simulated clock, the browser's pending
      timers, the tones the backend emitted, the next timer id, the cleanup
      returned by the last effect run (the id of the interval it clears),
      and how many random numbers have been drawn. */
  datatype Sys = Sys(
    scene: int,
    playing: bool,
    audio: bool,
    now: int,
    pending: seq<Timer>,
    log: seq<Emission>,
    nextId: nat,
    cleanup: Option<nat>,
    draws: nat)

  /** The state after mount: scene 1, not playing, no audio context yet.
      The mount run of the audio effect returns early and leaves no cleanup. */
  function Initial(now: int): Sys
  {
    Sys(1, false, false, now, [], [], 0, None, 0)
  }

  /** Reference definition: the scene that should be shown `elapsed` ms after the start. */
  function SceneAt(elapsed: int): int
  {
    if elapsed < Scene2DelayMs then 1 else if elapsed < Scene3DelayMs then 2 else 3
  }

  /** Every pending timer is due now or later. */
  ghost predicate Valid(s: Sys)
  {
    forall tm :: tm in s.pending ==> tm.due >= s.now
  }

  /** Every timer due by now has fired. */
  ghost predicate Settled(s: Sys)
  {
    forall tm :: tm in s.pending ==> tm.due > s.now
  }

  /** playTone as seen by a closure: `ctx` is whether the closure's audio
      context is set; without one the request is dropped, not queued. */
  function PlayTone(s: Sys, ctx: bool, t: Tone): Sys
  {
    if ctx then s.(log := s.log + [Emission(s.now, t)]) else s
  }

  function SetTimeout(s: Sys, delay: nat, a: Action): Sys
  {
    s.(pending := s.pending + [Timer(s.nextId, s.now + delay, a)], nextId := s.nextId + 1)
  }

  /** The effect cleanup: the scene-1 run returns `() => clearInterval(interval)`. */
  function Cleanup(s: Sys): Sys
  {
    match s.cleanup
    case None => s
    case Some(id) => s.(pending := RemoveId(s.pending, id), cleanup := None)
  }

  /** One statement of a phrase: a direct playTone at offset 0, a setTimeout otherwise. */
  function PlayCue(s: Sys, c: Cue): Sys
  {
    if c.offsetMs == 0 then PlayTone(s, s.audio, c.tone)
    else SetTimeout(s, c.offsetMs, Play(c.tone, s.audio))
  }

  function PlayPhrase(s: Sys, cues: seq<Cue>): Sys
    decreases |cues|
  {
    if cues == [] then s else PlayPhrase(PlayCue(s, cues[0]), cues[1..])
  }

  /** The body of the audio effect (app/page.tsx:44-66). */
  function RunEffect(s: Sys): Sys
  {
    if !s.playing then s
    else if s.scene == 1 then
      SetTimeout(s, AmbientPeriodMs, Ambient(s.audio)).(cleanup := Some(s.nextId))
    else
      PlayPhrase(s, Phrase(s.scene))
  }

  /** The effect's dependencies, [scene, isPlaying, audioContext]. */
  predicate DepsChanged(before: Sys, after: Sys)
  {
    before.scene != after.scene || before.playing != after.playing || before.audio != after.audio
  }

  /** React after a state update: when a dependency changed, the previous
      run's cleanup runs and then the effect body runs again. */
  function React(before: Sys, after: Sys): Sys
  {
    if DepsChanged(before, after) then RunEffect(Cleanup(after)) else after
  }

  /** startExperience (app/page.tsx:17-23), which has no guard of its own. */
  function StartExperience(s: Sys): Sys
  {
    var armed := SetTimeout(SetTimeout(s.(playing := true), Scene2DelayMs, SetScene(2)), Scene3DelayMs, SetScene(3));
    React(s, armed)
  }

  /** The mount effect's setAudioContext (app/page.tsx:11-15), which runs once. */
  function AttachAudio(s: Sys): Sys
    requires !s.audio
  {
    React(s, s.(audio := true))
  }

  /** The browser runs the callback of the timer at index `i`: the clock
      reads its deadline, a timeout is dropped, an interval is re-armed one
      period later, and the callback runs. Math.random() is drawn before
      playTone looks at the audio context. */
  function FireTimer(rng: Random, s: Sys, i: nat): Sys
    requires i < |s.pending|
  {
    var tm := s.pending[i];
    var s1 := s.(now := tm.due, pending := RemoveAt(s.pending, i));
    match tm.action
    case SetScene(k) => React(s1, s1.(scene := k))
    case Play(t, ctx) => PlayTone(s1, ctx, t)
    case Ambient(ctx) =>
      var rearmed := s1.(pending := s1.pending + [Timer(tm.id, tm.due + AmbientPeriodMs, tm.action)], draws := s.draws + 1);
      PlayTone(rearmed, ctx, AmbientTone(rng(s.draws)))
  }

  /** Let the clock run to `t`, firing every timer due by then in deadline order. */
  function AdvanceTo(rng: Random, s: Sys, t: int): (r: Sys)
    requires Valid(s) && s.now <= t
    ensures r.now == t && Settled(r)
    ensures s.log <= r.log
    decreases t - s.now, CountDue(s.pending, s.now)
  {
    if s.pending != [] && s.pending[EarliestIndex(s.pending)].due <= t then
      var i := EarliestIndex(s.pending);
      FireProgress(rng, s, i);
      AdvanceTo(rng, FireTimer(rng, s, i), t)
    else
      s.(now := t)
  }

  // ---------------------------------------------------------------------------
  // Progress: callbacks only register timers in the future, so the clock or
  // the number of timers due at the current instant goes down at each firing.

  /** `b` is `a` after a synchronous update at the same instant. */
  ghost predicate Extends(a: Sys, b: Sys)
  {
    && b.now == a.now
    && CountDue(b.pending, b.now) <= CountDue(a.pending, a.now)
    && (Valid(a) ==> Valid(b))
    && a.log <= b.log
  }

  lemma SetTimeoutExtends(s: Sys, delay: nat, a: Action)
    requires delay > 0
    ensures Extends(s, SetTimeout(s, delay, a))
  {
    var tm := Timer(s.nextId, s.now + delay, a);
    CountDueAppend(s.pending, [tm], s.now);
    assert CountDue([tm], s.now) == 0;
  }

  lemma CleanupExtends(s: Sys)
    ensures Extends(s, Cleanup(s))
  {
    if s.cleanup.Some? {
      CountDueRemoveId(s.pending, s.cleanup.value, s.now);
      RemoveIdMembers(s.pending, s.cleanup.value);
    }
  }

  lemma {:induction false} PlayPhraseExtends(s: Sys, cues: seq<Cue>)
    ensures Extends(s, PlayPhrase(s, cues))
    decreases |cues|
  {
    if cues != [] {
      var s1 := PlayCue(s, cues[0]);
      if cues[0].offsetMs != 0 {
        SetTimeoutExtends(s, cues[0].offsetMs, Play(cues[0].tone, s.audio));
      }
      PlayPhraseExtends(s1, cues[1..]);
    }
  }

  lemma RunEffectExtends(s: Sys)
    ensures Extends(s, RunEffect(s))
  {
    if s.playing {
      if s.scene == 1 {
        SetTimeoutExtends(s, AmbientPeriodMs, Ambient(s.audio));
      } else {
        PlayPhraseExtends(s, Phrase(s.scene));
      }
    }
  }

  lemma ReactExtends(before: Sys, after: Sys)
    ensures Extends(after, React(before, after))
  {
    if DepsChanged(before, after) {
      CleanupExtends(after);
      RunEffectExtends(Cleanup(after));
    }
  }

  /** Taking the earliest timer out and moving the clock to its deadline
      keeps every other timer at or after the new instant. */
  lemma {:induction false} TakeEarliest(s: Sys, i: nat)
    requires Valid(s) && IsEarliest(s.pending, i)
    ensures var s1 := s.(now := s.pending[i].due, pending := RemoveAt(s.pending, i));
      && Valid(s1)
      && CountDue(s1.pending, s1.now) + 1 == CountDue(s.pending, s1.now)
  {
    var tm := s.pending[i];
    var s1 := s.(now := tm.due, pending := RemoveAt(s.pending, i));
    RemoveAtKeeps(s.pending, i);
    CountDueRemoveAt(s.pending, i, tm.due);
  }

  /** A progression timeout adds only timers in the future. */
  lemma FireSceneExtends(rng: Random, s: Sys, i: nat)
    requires i < |s.pending| && s.pending[i].action.SetScene?
    ensures Extends(s.(now := s.pending[i].due, pending := RemoveAt(s.pending, i)), FireTimer(rng, s, i))
  {
    var s1 := s.(now := s.pending[i].due, pending := RemoveAt(s.pending, i));
    ReactExtends(s1, s1.(scene := s.pending[i].action.target));
  }

  /** An interval tick re-arms itself one period later. */
  lemma FireAmbientExtends(rng: Random, s: Sys, i: nat)
    requires i < |s.pending| && s.pending[i].action.Ambient?
    ensures Extends(s.(now := s.pending[i].due, pending := RemoveAt(s.pending, i)), FireTimer(rng, s, i))
  {
    var tm := s.pending[i];
    var s1 := s.(now := tm.due, pending := RemoveAt(s.pending, i));
    var later := Timer(tm.id, tm.due + AmbientPeriodMs, tm.action);
    CountDueAppend(s1.pending, [later], s1.now);
    assert CountDue([later], s1.now) == 0;
  }

  /** The rest of progress: a firing ends at the timer's deadline without
      adding anything due at that instant. */
  lemma FireExtends(rng: Random, s: Sys, i: nat)
    requires i < |s.pending|
    ensures Extends(s.(now := s.pending[i].due, pending := RemoveAt(s.pending, i)), FireTimer(rng, s, i))
  {
    match s.pending[i].action
    case SetScene(_) => FireSceneExtends(rng, s, i);
    case Ambient(_) => FireAmbientExtends(rng, s, i);
    case Play(_, _) =>
  }

  /** Firing the earliest timer moves the clock to its deadline, keeps every
      pending timer in the future, and either advances the clock or leaves
      one timer fewer due at this instant. */
  lemma {:induction false} FireProgress(rng: Random, s: Sys, i: nat)
    requires Valid(s) && IsEarliest(s.pending, i)
    ensures var r := FireTimer(rng, s, i);
      && Valid(r) && r.now == s.pending[i].due >= s.now
      && (r.now > s.now || CountDue(r.pending, r.now) < CountDue(s.pending, s.now))
      && s.log <= r.log
  {
    var s1 := s.(now := s.pending[i].due, pending := RemoveAt(s.pending, i));
    assert s.pending[i] in s.pending;
    TakeEarliest(s, i);
    FireExtends(rng, s, i);
    var r := FireTimer(rng, s, i);
    assert Extends(s1, r);
    var due := s.pending[i].due;
    var before, taken, after := CountDue(s.pending, due), CountDue(s1.pending, due), CountDue(r.pending, due);
    assert r.now == due && taken + 1 == before && after <= taken;
    if due == s.now {
      assert CountDue(s.pending, s.now) == before;
    }
  }

  /** One step of the clock: when the earliest timer is due by `t`, running
      to `t` is firing it and then running to `t`. */
  lemma AdvanceStep(rng: Random, s: Sys, t: int)
    requires Valid(s) && s.now <= t && s.pending != [] && s.pending[EarliestIndex(s.pending)].due <= t
    ensures var r := FireTimer(rng, s, EarliestIndex(s.pending));
      Valid(r) && r.now <= t && AdvanceTo(rng, s, t) == AdvanceTo(rng, r, t)
  {
    FireProgress(rng, s, EarliestIndex(s.pending));
  }

  /** When no timer is due by `t`, running to `t` only moves the clock. */
  lemma AdvanceStop(rng: Random, s: Sys, t: int)
    requires Valid(s) && s.now <= t && forall tm :: tm in s.pending ==> tm.due > t
    ensures AdvanceTo(rng, s, t) == s.(now := t)
  {
    if s.pending != [] {
      assert s.pending[EarliestIndex(s.pending)] in s.pending;
    }
  }
}
