/** What the Home component guarantees about its timeline and its audio:
    invariants of the reachable states and the lemmas that keep them. */
module Properties {
  import opened Tones
  import opened Timers
  import opened Experience

  /** The instant a start at `t0` switches away from `scene` (1 or 2). */
  function SwitchAt(t0: int, scene: int): int
  {
    if scene == 1 then t0 + Scene2DelayMs else t0 + Scene3DelayMs
  }

  /** Before the start: nothing playing, nothing pending, nothing emitted. */
  ghost predicate Quiet(s: Sys)
  {
    !s.playing && s.scene == 1 && s.pending == [] && s.log == [] && s.cleanup == None
  }

  /** What an emitted tone looks like after a start at `t0`: ambient tones
      lie between the first tick and the switch to scene 2 and are in range;
      every other tone comes at or after the switch to scene 2. */
  ghost predicate EmissionOk(e: Emission, t0: int)
  {
    if e.tone.waveform == Triangle then
      && t0 + AmbientPeriodMs <= e.at <= t0 + Scene2DelayMs
      && 200.0 <= e.tone.frequency < 300.0
      && e.tone.durationMs == 300
    else
      e.at >= t0 + Scene2DelayMs
  }

  /** What a pending timer looks like: a fresh id; a timeout to scene 2 is
      due before the switch to scene 3, one to scene 3 at or after it (as
      for any press less than 8000 ms after the first); an interval tick
      belongs to the interval the current cleanup clears; a delayed phrase
      tone is a sine tone after the switch to scene 2. */
  ghost predicate TimerOk(s: Sys, t0: int, tm: Timer)
  {
    && tm.id < s.nextId
    && (tm.action.SetScene? ==>
          || (tm.action.target == 2 && t0 + Scene2DelayMs <= tm.due < t0 + Scene3DelayMs)
          || (tm.action.target == 3 && t0 + Scene3DelayMs <= tm.due))
    && (tm.action.Ambient? ==> s.cleanup == Some(tm.id) && tm.due >= t0 + AmbientPeriodMs)
    && (tm.action.Play? ==> tm.due >= t0 + Scene2DelayMs && tm.action.tone.waveform == Sine)
    && (s.cleanup == Some(tm.id) ==> tm.action.Ambient?)
  }

  /** The invariant after a start at `t0`, except the link between the
      cleanup and scene 1 (which is broken between setScene and the effect):
      the timeouts of the first press that have not fired yet are pending. */
  ghost predicate Core(s: Sys, t0: int)
  {
    && s.playing
    && 1 <= s.scene <= 3
    && t0 <= s.now
    && (s.cleanup.Some? ==> s.cleanup.value < s.nextId)
    && (s.scene < 3 ==> (SwitchAt(t0, s.scene), s.scene + 1) in SceneTimers(s.pending))
    && (s.scene == 1 ==> (SwitchAt(t0, 2), 3) in SceneTimers(s.pending))
    && (s.scene >= 2 ==> s.now >= t0 + Scene2DelayMs)
    && (s.scene == 3 ==> s.now >= t0 + Scene3DelayMs)
    && (forall tm :: tm in s.pending ==> TimerOk(s, t0, tm))
    && (forall e :: e in s.log ==> EmissionOk(e, t0))
  }

  /** The invariant of every state reached after a start at `t0`: besides
      Core, only scene 1 has a cleanup, and the interval's closure sees the
      current audio context. */
  ghost predicate Started(s: Sys, t0: int)
  {
    && Core(s, t0)
    && (s.cleanup.Some? ==> s.scene == 1)
    && (forall tm :: tm in s.pending && tm.action.Ambient? ==> tm.action.ctx == s.audio)
  }

  // ---------------------------------------------------------------------------
  // playTone

  /** With an audio context the tone starts now (its stop instant, one
      duration later, holds by the definition of Stop); without one nothing
      at all changes, and the tone is not kept for later. */
  lemma PlayToneEmits(s: Sys, ctx: bool, t: Tone)
    ensures var r := PlayTone(s, ctx, t);
      && (ctx ==> r.log == s.log + [Emission(s.now, t)] && r.log[|s.log|].Stop() == s.now + t.durationMs)
      && (!ctx ==> r == s)
      && r.pending == s.pending && r.now == s.now
  {
  }

  // ---------------------------------------------------------------------------
  // Before the start

  /** No tone is emitted before the start, however far the clock runs. */
  lemma QuietAdvance(rng: Random, s: Sys, t: int)
    requires Quiet(s) && s.now <= t
    ensures AdvanceTo(rng, s, t) == s.(now := t)
  {
  }

  /** The audio context arriving before the start changes nothing else:
      the effect re-runs and returns at once. */
  lemma QuietAttach(s: Sys)
    requires Quiet(s) && !s.audio
    ensures AttachAudio(s) == s.(audio := true)
  {
  }

  /** The state a press leaves behind in the quiet state, field by field. */
  function Pressed(s: Sys): Sys
  {
    s.(playing := true,
       pending := [
         Timer(s.nextId, s.now + Scene2DelayMs, SetScene(2)),
         Timer(s.nextId + 1, s.now + Scene3DelayMs, SetScene(3)),
         Timer(s.nextId + 2, s.now + AmbientPeriodMs, Ambient(s.audio))],
       nextId := s.nextId + 3,
       cleanup := Some(s.nextId + 2))
  }

  /** A press from the quiet state sets isPlaying, arms both progression
      timeouts from this instant, then the effect arms the scene-1 interval,
      whose first tick is one period later; nothing is emitted yet. */
  lemma PressStartArms(s: Sys)
    requires Quiet(s)
    ensures StartExperience(s) == Pressed(s)
  {
    var n, t0 := s.nextId, s.now;
    var armed := s.(playing := true, pending := [Timer(n, t0 + Scene2DelayMs, SetScene(2)),
                    Timer(n + 1, t0 + Scene3DelayMs, SetScene(3))], nextId := n + 2);
    assert StartExperience(s) == React(s, armed);
    assert Cleanup(armed) == armed;
  }

  lemma PressedProgression(s: Sys)
    ensures SceneTimers(Pressed(s).pending) == [(s.now + Scene2DelayMs, 2), (s.now + Scene3DelayMs, 3)]
  {
    var p := Pressed(s).pending;
    var a, b, c := p[0], p[1], p[2];
    assert p == [a] + ([b] + [c]);
    SceneTimersAppend([a], [b] + [c]);
    SceneTimersAppend([b], [c]);
    SceneTimersSingle(a);
    SceneTimersSingle(b);
    SceneTimersSingle(c);
  }

  /** The state a press leaves behind satisfies the invariant of a start at this instant. */
  lemma PressedStarts(s: Sys)
    requires Quiet(s)
    ensures Started(Pressed(s), s.now) && Valid(Pressed(s))
  {
    var r := Pressed(s);
    PressedProgression(s);
    assert forall x :: x in r.pending ==> x == r.pending[0] || x == r.pending[1] || x == r.pending[2];
  }

  /** After a press from the quiet state the invariant of a start at this
      instant holds, with scene 1 showing. */
  lemma PressStartStarts(s: Sys)
    requires Quiet(s)
    ensures Started(StartExperience(s), s.now) && Valid(StartExperience(s))
    ensures StartExperience(s).scene == 1 && StartExperience(s).log == []
  {
    PressStartArms(s);
    PressedStarts(s);
  }

  /** startExperience has no guard of its own: called again while playing it
      changes no dependency of the effect, which therefore does not re-run,
      and it arms a second pair of progression timeouts from this instant. */
  lemma RestartArmsAgain(s: Sys)
    requires s.playing
    ensures StartExperience(s) ==
      s.(pending := s.pending + [Timer(s.nextId, s.now + Scene2DelayMs, SetScene(2)),
                                 Timer(s.nextId + 1, s.now + Scene3DelayMs, SetScene(3))],
         nextId := s.nextId + 2)
  {
  }

  /** A press while the intro overlay fades out, less than 8000 ms after the
      start at `t0`: the invariant of that start still holds, so the extra
      timeouts can only set the scene already shown; nothing is emitted. */
  lemma RestartKeeps(s: Sys, t0: int)
    requires Started(s, t0) && Valid(s) && s.now < t0 + Scene2DelayMs
    ensures var r := StartExperience(s);
      && Started(r, t0) && Valid(r)
      && r.scene == s.scene == 1 && r.log == s.log && r.now == s.now && r.audio == s.audio
  {
    RestartArmsAgain(s);
    var a := Timer(s.nextId, s.now + Scene2DelayMs, SetScene(2));
    var b := Timer(s.nextId + 1, s.now + Scene3DelayMs, SetScene(3));
    SceneTimersAppend(s.pending, [a, b]);
    var r := StartExperience(s);
    forall x | x in r.pending
      ensures TimerOk(r, t0, x) && x.due >= r.now && (x.action.Ambient? ==> x.action.ctx == r.audio)
    {
      if x != a && x != b { assert x in s.pending && TimerOk(s, t0, x); }
    }
  }

  // ---------------------------------------------------------------------------
  // The effect and its cleanup

  /** The cleanup clears the scene-1 interval: afterwards no interval tick is pending. */
  lemma CleanupCore(s: Sys, t0: int)
    requires Core(s, t0)
    ensures var c := Cleanup(s);
      && Core(c, t0) && c.cleanup == None
      && c.scene == s.scene && c.audio == s.audio && c.now == s.now && c.log == s.log
      && (forall tm :: tm in c.pending ==> !tm.action.Ambient?)
  {
    if s.cleanup.Some? {
      var id := s.cleanup.value;
      SceneTimersRemoveId(s.pending, id);
      var c := Cleanup(s);
      assert c.pending == RemoveId(s.pending, id);
      RemoveIdMembers(s.pending, id);
      forall tm | tm in c.pending ensures TimerOk(c, t0, tm) && !tm.action.Ambient? {
        assert tm in s.pending && tm.id != id;
        assert TimerOk(s, t0, tm);
      }
      forall e | e in c.log ensures EmissionOk(e, t0) {
        assert e in s.log;
      }
    }
  }

  /** The whole scene-2 or scene-3 phrase, as the effect schedules it: one
      timeout per cue, with consecutive ids, each due its offset after `now`. */
  function Scheduled(id: nat, now: int, cues: seq<Cue>, ctx: bool): (r: seq<Timer>)
    ensures |r| == |cues|
    decreases |cues|
  {
    if cues == [] then []
    else [Timer(id, now + cues[0].offsetMs, Play(cues[0].tone, ctx))] + Scheduled(id + 1, now, cues[1..], ctx)
  }

  /** The `j`-th scheduled timeout is the `j`-th cue, due its offset after `now`. */
  lemma {:induction false} ScheduledAt(id: nat, now: int, cues: seq<Cue>, ctx: bool, j: nat)
    requires j < |cues|
    ensures Scheduled(id, now, cues, ctx)[j] == Timer(id + j, now + cues[j].offsetMs, Play(cues[j].tone, ctx))
    decreases |cues|
  {
    if j > 0 {
      ScheduledAt(id + 1, now, cues[1..], ctx, j - 1);
    }
  }

  /** Cues with positive offsets only register timeouts, in order. */
  lemma {:induction false} PlayPhraseSchedules(s: Sys, cues: seq<Cue>)
    requires forall j :: 0 <= j < |cues| ==> cues[j].offsetMs > 0
    ensures PlayPhrase(s, cues) ==
      s.(pending := s.pending + Scheduled(s.nextId, s.now, cues, s.audio), nextId := s.nextId + |cues|)
    decreases |cues|
  {
    if cues == [] {
      assert s.pending + [] == s.pending;
    } else {
      var tm := Timer(s.nextId, s.now + cues[0].offsetMs, Play(cues[0].tone, s.audio));
      var s1 := PlayCue(s, cues[0]);
      assert s1 == s.(pending := s.pending + [tm], nextId := s.nextId + 1);
      var rest := cues[1..];
      assert forall j :: 0 <= j < |rest| ==> rest[j].offsetMs > 0 by {
        forall j | 0 <= j < |rest| ensures rest[j].offsetMs > 0 { assert rest[j] == cues[j + 1]; }
      }
      PlayPhraseSchedules(s1, rest);
      var tail := Scheduled(s.nextId + 1, s.now, rest, s.audio);
      assert Scheduled(s.nextId, s.now, cues, s.audio) == [tm] + tail;
      assert s1.pending + tail == s.pending + ([tm] + tail);
    }
  }

  /** A run of the effect in scene 2 or 3 plays the first cue of the phrase
      at once (if the audio context is set) and arms one timeout per later
      cue; a re-run therefore replays the phrase from its start. */
  lemma EffectPlaysPhrase(s: Sys)
    requires s.playing && (s.scene == 2 || s.scene == 3)
    ensures var p := Phrase(s.scene);
      RunEffect(s) ==
        s.(log := if s.audio then s.log + [Emission(s.now, p[0].tone)] else s.log,
           pending := s.pending + Scheduled(s.nextId, s.now, p[1..], s.audio),
           nextId := s.nextId + |p| - 1)
  {
    var p := Phrase(s.scene);
    assert PlayPhrase(s, p) == PlayPhrase(PlayCue(s, p[0]), p[1..]);
    PlayPhraseSchedules(PlayCue(s, p[0]), p[1..]);
  }

  /** A run of the effect in scene 1 arms a fresh interval, due one period
      from now, that sees the current audio context, and returns its cleanup. */
  lemma EffectArmsInterval(s: Sys)
    requires s.playing && s.scene == 1
    ensures RunEffect(s) ==
      s.(pending := s.pending + [Timer(s.nextId, s.now + AmbientPeriodMs, Ambient(s.audio))],
         nextId := s.nextId + 1, cleanup := Some(s.nextId))
  {
  }

  lemma {:induction false} ScheduledKeepsScene(id: nat, now: int, cues: seq<Cue>, ctx: bool)
    ensures SceneTimers(Scheduled(id, now, cues, ctx)) == []
    decreases |cues|
  {
    if cues != [] {
      var first := Timer(id, now + cues[0].offsetMs, Play(cues[0].tone, ctx));
      SceneTimersAppend([first], Scheduled(id + 1, now, cues[1..], ctx));
      ScheduledKeepsScene(id + 1, now, cues[1..], ctx);
      assert [first][1..] == [];
    }
  }

  /** After the cleanup, a scene-1 run of the effect re-establishes the
      invariant: the new interval is the one the new cleanup clears. */
  lemma EffectStartsInterval(s: Sys, t0: int)
    requires Core(s, t0) && s.cleanup == None && s.scene == 1
    ensures Started(RunEffect(s), t0)
  {
    EffectArmsInterval(s);
    var tm := Timer(s.nextId, s.now + AmbientPeriodMs, Ambient(s.audio));
    SceneTimersAppend(s.pending, [tm]);
    SceneTimersSingle(tm);
    var r := RunEffect(s);
    forall x | x in r.pending ensures TimerOk(r, t0, x) && (x.action.Ambient? ==> x.action.ctx == r.audio) {
      if x != tm { assert x in s.pending && TimerOk(s, t0, x); }
    }
  }

  /** The phrase's delayed tones are well-formed pending timers. */
  lemma PhraseTimersOk(s: Sys, t0: int)
    requires Core(s, t0) && s.cleanup == None && s.scene >= 2
    ensures var r := RunEffect(s);
      forall x :: x in r.pending ==> TimerOk(r, t0, x) && !x.action.Ambient?
  {
    var p := Phrase(s.scene);
    EffectPlaysPhrase(s);
    var later := Scheduled(s.nextId, s.now, p[1..], s.audio);
    var r := RunEffect(s);
    forall x | x in r.pending ensures TimerOk(r, t0, x) && !x.action.Ambient? {
      if x in s.pending {
        assert TimerOk(s, t0, x);
      } else {
        var j :| 0 <= j < |later| && later[j] == x;
        ScheduledAt(s.nextId, s.now, p[1..], s.audio, j);
        assert p[1..][j] == p[j + 1];
      }
    }
  }

  /** The phrase adds no progression timeout. */
  lemma PhraseSwitches(s: Sys)
    requires s.playing && (s.scene == 2 || s.scene == 3)
    ensures SceneTimers(RunEffect(s).pending) == SceneTimers(s.pending)
  {
    var p := Phrase(s.scene);
    EffectPlaysPhrase(s);
    var later := Scheduled(s.nextId, s.now, p[1..], s.audio);
    SceneTimersAppend(s.pending, later);
    ScheduledKeepsScene(s.nextId, s.now, p[1..], s.audio);
    assert SceneTimers(s.pending) + [] == SceneTimers(s.pending);
  }

  /** The phrase's first tone comes at or after the switch to scene 2. */
  lemma PhraseLog(s: Sys, t0: int)
    requires Core(s, t0) && s.scene >= 2
    ensures forall e :: e in RunEffect(s).log ==> EmissionOk(e, t0)
  {
    var p := Phrase(s.scene);
    EffectPlaysPhrase(s);
    forall e | e in RunEffect(s).log ensures EmissionOk(e, t0) {
      if e !in s.log { assert e == Emission(s.now, p[0].tone); }
    }
  }

  /** After the cleanup, a scene-2 or scene-3 run of the effect
      re-establishes the invariant: the phrase comes at or after the switch
      to scene 2. */
  lemma EffectStartsPhrase(s: Sys, t0: int)
    requires Core(s, t0) && s.cleanup == None && s.scene >= 2
    ensures Started(RunEffect(s), t0)
  {
    EffectPlaysPhrase(s);
    PhraseSwitches(s);
    PhraseTimersOk(s, t0);
    PhraseLog(s, t0);
  }

  /** After the cleanup, any run of the effect re-establishes the invariant
      and changes neither the scene, the audio context nor the clock. */
  lemma EffectStarts(s: Sys, t0: int)
    requires Core(s, t0) && s.cleanup == None
    ensures var r := RunEffect(s);
      && Started(r, t0)
      && r.scene == s.scene && r.audio == s.audio && r.now == s.now && s.log <= r.log
  {
    if s.scene == 1 {
      EffectStartsInterval(s, t0);
    } else {
      EffectStartsPhrase(s, t0);
      EffectPlaysPhrase(s);
    }
  }

  // ---------------------------------------------------------------------------
  // The audio context arriving after the start

  /** The audio context arriving re-runs the effect: the scene is unchanged,
      the invariant holds, and in scene 2 or 3 the whole phrase is replayed
      from its first tone at this instant. */
  lemma AttachKeeps(s: Sys, t0: int)
    requires Started(s, t0) && !s.audio
    ensures var r := AttachAudio(s);
      && Started(r, t0) && r.scene == s.scene && r.now == s.now && s.log <= r.log
      && (s.scene >= 2 ==>
            && r.log == s.log + [Emission(s.now, Phrase(s.scene)[0].tone)]
            && r.pending == s.pending + Scheduled(s.nextId, s.now, Phrase(s.scene)[1..], true))
  {
    var a := s.(audio := true);
    assert Core(a, t0) by {
      forall tm | tm in a.pending ensures TimerOk(a, t0, tm) {
        assert TimerOk(s, t0, tm);
      }
    }
    CleanupCore(a, t0);
    EffectStarts(Cleanup(a), t0);
    if s.scene >= 2 {
      EffectPlaysPhrase(Cleanup(a));
    }
  }

  // ---------------------------------------------------------------------------
  // Timer callbacks

  /** The next timer to fire is due no later than the pending switch away
      from the current scene. */
  lemma SceneTimerBounds(s: Sys, t0: int, i: nat)
    requires Core(s, t0) && IsEarliest(s.pending, i) && s.scene < 3
    ensures s.pending[i].due <= SwitchAt(t0, s.scene)
  {
    SceneTimersMember(s.pending, (SwitchAt(t0, s.scene), s.scene + 1));
  }

  /** A progression timeout that fires next either sets the scene already
      shown (one from a repeated press) or moves one scene forward, exactly
      at the switch instant of the start at `t0`; in scene 1 it is always
      the switch to scene 2. */
  lemma EarliestSceneTimer(s: Sys, t0: int, i: nat)
    requires Core(s, t0) && Valid(s) && IsEarliest(s.pending, i) && s.pending[i].action.SetScene?
    ensures var k := s.pending[i].action.target;
      && (k == s.scene || (k == s.scene + 1 && s.pending[i].due == SwitchAt(t0, s.scene)))
      && (s.scene == 1 ==> k == 2)
  {
    var tm := s.pending[i];
    assert tm in s.pending && TimerOk(s, t0, tm);
    if s.scene < 3 {
      SceneTimerBounds(s, t0, i);
    }
  }

  /** Taking the fired timeout out keeps every pending switch it is not. */
  lemma {:induction false} SwitchesKept(s: Sys, i: nat, x: (int, int))
    requires i < |s.pending| && s.pending[i].action.SetScene?
    requires x in SceneTimers(s.pending) && x != (s.pending[i].due, s.pending[i].action.target)
    ensures x in SceneTimers(RemoveAt(s.pending, i))
  {
    SceneTimersRemoveAt(s.pending, i);
    assert SceneEntry(s.pending[i]) == [(s.pending[i].due, s.pending[i].action.target)];
  }

  /** A progression timeout fires: either it sets the scene already shown,
      React sees no change and nothing but the clock and the timer list
      moves; or the scene moves one step forward at the switch instant and
      the effect re-runs after the cleanup. */
  lemma FireSceneKeeps(rng: Random, s: Sys, t0: int, i: nat)
    requires Started(s, t0) && Valid(s) && IsEarliest(s.pending, i) && s.pending[i].action.SetScene?
    ensures var r := FireTimer(rng, s, i);
      && Started(r, t0) && r.now == s.pending[i].due
      && (r.scene == s.scene || (r.scene == s.scene + 1 && r.now == SwitchAt(t0, s.scene)))
      && (r.scene == s.scene ==> r == s.(now := r.now, pending := RemoveAt(s.pending, i)))
  {
    var tm := s.pending[i];
    EarliestSceneTimer(s, t0, i);
    var s1 := s.(now := tm.due, pending := RemoveAt(s.pending, i));
    var k := tm.action.target;
    var s2 := s1.(scene := k);
    assert FireTimer(rng, s, i) == React(s1, s2);
    RemoveAtKeeps(s.pending, i);
    assert Core(s2, t0) by {
      forall x | x in s2.pending ensures TimerOk(s2, t0, x) {
        assert x in s.pending && TimerOk(s, t0, x);
      }
      if k < 3 {
        SwitchesKept(s, i, (SwitchAt(t0, k), k + 1));
      }
    }
    if k != s.scene {
      CleanupCore(s2, t0);
      EffectStarts(Cleanup(s2), t0);
    }
  }

  /** The state after the interval tick at index `i` fires: the interval is
      re-armed under the same id one period after this deadline, one random
      number is drawn, and the ambient tone is emitted when the closure's
      audio context is set. */
  function AfterTick(rng: Random, s: Sys, i: nat): Sys
    requires i < |s.pending| && s.pending[i].action.Ambient?
  {
    var tm := s.pending[i];
    s.(now := tm.due,
       pending := RemoveAt(s.pending, i) + [Timer(tm.id, tm.due + AmbientPeriodMs, tm.action)],
       draws := s.draws + 1,
       log := s.log + (if tm.action.ctx then [Emission(tm.due, AmbientTone(rng(s.draws)))] else []))
  }

  lemma AmbientFired(rng: Random, s: Sys, i: nat)
    requires i < |s.pending| && s.pending[i].action.Ambient?
    ensures FireTimer(rng, s, i) == AfterTick(rng, s, i)
  {
  }

  /** The re-armed interval keeps every pending timer well formed. */
  lemma {:induction false} AmbientTimersOk(s: Sys, t0: int, i: nat, r: Sys, later: Timer)
    requires Started(s, t0) && i < |s.pending| && s.pending[i].action.Ambient?
    requires later == Timer(s.pending[i].id, s.pending[i].due + AmbientPeriodMs, s.pending[i].action)
    requires r.pending == RemoveAt(s.pending, i) + [later]
    requires r.nextId == s.nextId && r.cleanup == s.cleanup && r.audio == s.audio
    ensures forall x :: x in r.pending ==> TimerOk(r, t0, x) && (x.action.Ambient? ==> x.action.ctx == r.audio)
  {
    var p := s.pending;
    assert p[i] in p && TimerOk(s, t0, p[i]);
    RemoveAtKeeps(p, i);
    forall x | x in r.pending ensures TimerOk(r, t0, x) && (x.action.Ambient? ==> x.action.ctx == r.audio) {
      if x != later { assert x in p && TimerOk(s, t0, x); }
    }
  }

  /** A callback that leaves the scene, the flags, the ids and the cleanup
      alone keeps the invariant when its timers and its tones are well formed. */
  lemma CallbackKeeps(s: Sys, t0: int, r: Sys)
    requires Started(s, t0)
    requires r.scene == s.scene && r.playing == s.playing && r.audio == s.audio
    requires r.nextId == s.nextId && r.cleanup == s.cleanup && r.now >= s.now
    requires SceneTimers(r.pending) == SceneTimers(s.pending)
    requires forall x :: x in r.pending ==> TimerOk(r, t0, x) && (x.action.Ambient? ==> x.action.ctx == r.audio)
    requires forall e :: e in r.log ==> EmissionOk(e, t0)
    ensures Started(r, t0)
  {
  }

  lemma AfterTickProgression(rng: Random, s: Sys, i: nat)
    requires i < |s.pending| && s.pending[i].action.Ambient?
    ensures SceneTimers(AfterTick(rng, s, i).pending) == SceneTimers(s.pending)
  {
    var p, tm := s.pending, s.pending[i];
    var later := Timer(tm.id, tm.due + AmbientPeriodMs, tm.action);
    SceneTimersRemoveAt(p, i);
    SceneTimersAppend(RemoveAt(p, i), [later]);
    SceneTimersSingle(later);
  }

  /** The ambient tone lies between the first tick and the switch to scene 2. */
  lemma AfterTickLog(rng: Random, s: Sys, t0: int, i: nat)
    requires Started(s, t0) && IsEarliest(s.pending, i) && s.pending[i].action.Ambient?
    ensures forall e :: e in AfterTick(rng, s, i).log ==> EmissionOk(e, t0)
  {
    var tm := s.pending[i];
    var tone := Emission(tm.due, AmbientTone(rng(s.draws)));
    assert tm in s.pending && TimerOk(s, t0, tm);
    assert EmissionOk(tone, t0) by {
      SceneTimerBounds(s, t0, i);
    }
    forall e | e in AfterTick(rng, s, i).log ensures EmissionOk(e, t0) {
      if e !in s.log { assert e == tone; }
    }
  }

  lemma AfterTickKeeps(rng: Random, s: Sys, t0: int, i: nat)
    requires Started(s, t0) && Valid(s) && IsEarliest(s.pending, i) && s.pending[i].action.Ambient?
    ensures Started(AfterTick(rng, s, i), t0) && s.scene == 1 && s.pending[i].action.ctx == s.audio
  {
    var tm := s.pending[i];
    var r := AfterTick(rng, s, i);
    assert tm in s.pending && TimerOk(s, t0, tm);
    AfterTickProgression(rng, s, i);
    AfterTickLog(rng, s, t0, i);
    AmbientTimersOk(s, t0, i, r, Timer(tm.id, tm.due + AmbientPeriodMs, tm.action));
    CallbackKeeps(s, t0, r);
  }

  /** An interval tick fires: still scene 1, and the log gains the ambient
      tone at the tick's deadline exactly when the audio context is set. */
  lemma FireAmbientKeeps(rng: Random, s: Sys, t0: int, i: nat)
    requires Started(s, t0) && Valid(s) && IsEarliest(s.pending, i) && s.pending[i].action.Ambient?
    ensures var r := FireTimer(rng, s, i);
      && Started(r, t0) && r.scene == s.scene == 1 && r.now == s.pending[i].due
      && r.log == s.log + (if s.audio then [Emission(r.now, AmbientTone(rng(s.draws)))] else [])
  {
    AmbientFired(rng, s, i);
    AfterTickKeeps(rng, s, t0, i);
  }

  /** The state after the delayed phrase tone at index `i` fires: the tone
      is emitted at its deadline when the closure's audio context was set. */
  function AfterPlay(s: Sys, i: nat): Sys
    requires i < |s.pending| && s.pending[i].action.Play?
  {
    var tm := s.pending[i];
    s.(now := tm.due, pending := RemoveAt(s.pending, i),
       log := s.log + (if tm.action.ctx then [Emission(tm.due, tm.action.tone)] else []))
  }

  lemma PlayFired(rng: Random, s: Sys, i: nat)
    requires i < |s.pending| && s.pending[i].action.Play?
    ensures FireTimer(rng, s, i) == AfterPlay(s, i)
  {
    var tm := s.pending[i];
    if !tm.action.ctx {
      assert s.log + [] == s.log;
    }
  }

  /** Taking a timer out keeps every other pending timer well formed. */
  lemma {:induction false} TakenTimersOk(s: Sys, t0: int, i: nat, r: Sys)
    requires Started(s, t0) && i < |s.pending|
    requires r.pending == RemoveAt(s.pending, i)
    requires r.nextId == s.nextId && r.cleanup == s.cleanup && r.audio == s.audio
    ensures forall x :: x in r.pending ==> TimerOk(r, t0, x) && (x.action.Ambient? ==> x.action.ctx == r.audio)
  {
    RemoveAtKeeps(s.pending, i);
    forall x | x in r.pending ensures TimerOk(r, t0, x) && (x.action.Ambient? ==> x.action.ctx == r.audio) {
      assert x in s.pending && TimerOk(s, t0, x);
    }
  }

  /** The delayed tone is a sine tone after the switch to scene 2. */
  lemma AfterPlayLog(s: Sys, t0: int, i: nat)
    requires Started(s, t0) && i < |s.pending| && s.pending[i].action.Play?
    ensures forall e :: e in AfterPlay(s, i).log ==> EmissionOk(e, t0)
  {
    var tm := s.pending[i];
    assert tm in s.pending && TimerOk(s, t0, tm);
    forall e | e in AfterPlay(s, i).log ensures EmissionOk(e, t0) {
      if e !in s.log { assert e == Emission(tm.due, tm.action.tone); }
    }
  }

  lemma AfterPlayKeeps(s: Sys, t0: int, i: nat)
    requires Started(s, t0) && i < |s.pending| && s.pending[i].action.Play? && s.pending[i].due >= s.now
    ensures Started(AfterPlay(s, i), t0)
  {
    var r := AfterPlay(s, i);
    SceneTimersRemoveAt(s.pending, i);
    assert SceneEntry(s.pending[i]) == [];
    TakenTimersOk(s, t0, i, r);
    AfterPlayLog(s, t0, i);
    CallbackKeeps(s, t0, r);
  }

  /** A delayed phrase tone fires: a sine tone at its deadline, if the
      closure's audio context was set when the effect ran. */
  lemma FirePlayKeeps(rng: Random, s: Sys, t0: int, i: nat)
    requires Started(s, t0) && Valid(s) && IsEarliest(s.pending, i) && s.pending[i].action.Play?
    ensures var r := FireTimer(rng, s, i);
      && Started(r, t0) && r.scene == s.scene && r.now == s.pending[i].due
      && r.log == s.log + (if s.pending[i].action.ctx then [Emission(r.now, s.pending[i].action.tone)] else [])
  {
    PlayFired(rng, s, i);
    assert s.pending[i] in s.pending;
    AfterPlayKeeps(s, t0, i);
  }

  /** Any timer firing keeps the invariant and never moves the scene back. */
  lemma FireKeeps(rng: Random, s: Sys, t0: int, i: nat)
    requires Started(s, t0) && Valid(s) && IsEarliest(s.pending, i)
    ensures var r := FireTimer(rng, s, i);
      Started(r, t0) && s.scene <= r.scene && (s.scene == 3 ==> r.scene == 3)
  {
    match s.pending[i].action
    case SetScene(_) => FireSceneKeeps(rng, s, t0, i);
    case Ambient(_) => FireAmbientKeeps(rng, s, t0, i);
    case Play(_, _) => FirePlayKeeps(rng, s, t0, i);
  }

  // ---------------------------------------------------------------------------
  // The passing of time

  /** Once every due timer has fired, the scene is the one the reference
      schedule gives for the time elapsed since the start. */
  lemma SettledScene(s: Sys, t0: int)
    requires Started(s, t0) && Settled(s)
    ensures s.scene == SceneAt(s.now - t0)
  {
    if s.scene < 3 {
      SceneTimersMember(s.pending, (SwitchAt(t0, s.scene), s.scene + 1));
    }
  }

  /** Letting the clock run to `t` keeps the invariant, never moves the
      scene back, and ends in SceneAt(t - t0): 1 before 8000 ms, 2 from
      8000 ms, 3 from 16000 ms on, measured from the start and not chained. */
  lemma {:induction false} AdvanceKeeps(rng: Random, s: Sys, t0: int, t: int)
    requires Started(s, t0) && Valid(s) && s.now <= t
    ensures var r := AdvanceTo(rng, s, t);
      && Started(r, t0) && s.scene <= r.scene && r.scene == SceneAt(t - t0)
      && (s.scene == 3 ==> r.scene == 3)
    decreases t - s.now, CountDue(s.pending, s.now)
  {
    if s.pending != [] && s.pending[EarliestIndex(s.pending)].due <= t {
      var i := EarliestIndex(s.pending);
      FireProgress(rng, s, i);
      FireKeeps(rng, s, t0, i);
      AdvanceKeeps(rng, FireTimer(rng, s, i), t0, t);
    } else {
      var r := s.(now := t);
      assert Started(r, t0) by {
        forall x | x in r.pending ensures TimerOk(r, t0, x) { assert TimerOk(s, t0, x); }
      }
      SettledScene(r, t0);
    }
  }

  /** A second press during the overlay's exit fade changes no scene: at
      every later instant the scene is the one a single press shows, and the
      invariant of the first press still holds. */
  lemma DoublePressScene(rng: Random, s: Sys, t1: int, t: int)
    requires Quiet(s) && s.now <= t1 < s.now + ExitFadeMs && t1 <= t
    ensures var p := StartExperience(s);
      && Valid(p) && p.now == s.now
      && var a := AdvanceTo(rng, p, t1);
         && Valid(StartExperience(a)) && StartExperience(a).now == t1
         && var b := AdvanceTo(rng, StartExperience(a), t);
            && Started(b, s.now)
            && b.scene == SceneAt(t - s.now) == AdvanceTo(rng, p, t).scene
  {
    var p := StartExperience(s);
    PressStartStarts(s);
    PressStartArms(s);
    AdvanceKeeps(rng, p, s.now, t1);
    var a := AdvanceTo(rng, p, t1);
    RestartKeeps(a, s.now);
    AdvanceKeeps(rng, StartExperience(a), s.now, t);
    AdvanceKeeps(rng, p, s.now, t);
  }
}
