/** The whole timeline of one session, from a press of the start button
    with the audio context already set, as an exact log of emitted tones. */
module Scenario {
  import opened Tones
  import opened Timers
  import opened Experience
  import opened Properties

  /** The ambient tones of the first `k` interval ticks after a start at `t0`:
      tick j (from 1) comes j periods after the start with the j-th random draw. */
  function AmbientLog(rng: Random, t0: int, d: nat, k: nat): (r: seq<Emission>)
    ensures |r| == k
  {
    if k == 0 then []
    else AmbientLog(rng, t0, d, k - 1) + [Emission(t0 + 2000 * k, AmbientTone(rng(d + k - 1)))]
  }

  /** The progression timeouts and the interval registered by the press. */
  function ToScene2(s: Sys): Timer { Timer(s.nextId, s.now + Scene2DelayMs, SetScene(2)) }
  function ToScene3(s: Sys): Timer { Timer(s.nextId + 1, s.now + Scene3DelayMs, SetScene(3)) }
  function Tick(s: Sys, due: int): Timer { Timer(s.nextId + 2, due, Ambient(true)) }

  /** The state after `k` ticks of the interval, `s` being the state before the press. */
  function Ticked(rng: Random, s: Sys, k: nat): Sys
  {
    s.(playing := true,
       now := s.now + 2000 * k,
       pending := [ToScene2(s), ToScene3(s), Tick(s, s.now + 2000 * (k + 1))],
       log := AmbientLog(rng, s.now, s.draws, k),
       nextId := s.nextId + 3,
       cleanup := Some(s.nextId + 2),
       draws := s.draws + k)
  }

  /** The scene-2 phrase as emitted at the switch, `t0` ms being the start. */
  function Tone440(t0: int): Emission { Emission(t0 + Scene2DelayMs, Tone(440.0, 500, Sine)) }
  function Tone554(t0: int): Emission { Emission(t0 + Scene2DelayMs + 500, Tone(554.0, 500, Sine)) }
  function Tone523(t0: int): Emission { Emission(t0 + Scene3DelayMs, Tone(523.0, 300, Sine)) }
  function Tone659(t0: int): Emission { Emission(t0 + Scene3DelayMs + 300, Tone(659.0, 300, Sine)) }
  function Tone784(t0: int): Emission { Emission(t0 + Scene3DelayMs + 600, Tone(784.0, 500, Sine)) }

  function Play554(s: Sys): Timer { Timer(s.nextId + 3, s.now + Scene2DelayMs + 500, Play(Tone(554.0, 500, Sine), true)) }
  function Play659(s: Sys): Timer { Timer(s.nextId + 4, s.now + Scene3DelayMs + 300, Play(Tone(659.0, 300, Sine), true)) }
  function Play784(s: Sys): Timer { Timer(s.nextId + 5, s.now + Scene3DelayMs + 600, Play(Tone(784.0, 500, Sine), true)) }

  /** Right after the switch to scene 2. */
  function InScene2(rng: Random, s: Sys): Sys
  {
    s.(scene := 2, playing := true, now := s.now + Scene2DelayMs,
       pending := [ToScene3(s), Play554(s)],
       log := AmbientLog(rng, s.now, s.draws, 3) + [Tone440(s.now)],
       nextId := s.nextId + 4, cleanup := None, draws := s.draws + 3)
  }

  /** After the second tone of the scene-2 phrase. */
  function AfterPhrase2(rng: Random, s: Sys): Sys
  {
    InScene2(rng, s).(now := s.now + Scene2DelayMs + 500, pending := [ToScene3(s)],
                      log := InScene2(rng, s).log + [Tone554(s.now)])
  }

  /** Right after the switch to scene 3. */
  function InScene3(rng: Random, s: Sys): Sys
  {
    AfterPhrase2(rng, s).(scene := 3, now := s.now + Scene3DelayMs,
                          pending := [Play659(s), Play784(s)],
                          log := AfterPhrase2(rng, s).log + [Tone523(s.now)],
                          nextId := s.nextId + 6)
  }

  /** After the whole scene-3 phrase: nothing is pending any more. */
  function Finished(rng: Random, s: Sys): Sys
  {
    InScene3(rng, s).(now := s.now + Scene3DelayMs + 600, pending := [],
                      log := InScene3(rng, s).log + [Tone659(s.now), Tone784(s.now)])
  }

  ghost predicate Ready(s: Sys)
  {
    Quiet(s) && s.audio
  }

  // ---------------------------------------------------------------------------
  // One firing at a time

  lemma PressIsTicked0(rng: Random, s: Sys)
    requires Ready(s)
    ensures StartExperience(s) == Ticked(rng, s, 0)
  {
    PressStartArms(s);
  }

  /** A progression timeout that changes the scene re-runs the effect after its cleanup. */
  lemma FireSwitch(rng: Random, a: Sys, i: nat)
    requires i < |a.pending| && a.pending[i].action.SetScene? && a.pending[i].action.target != a.scene
    ensures FireTimer(rng, a, i) ==
      RunEffect(Cleanup(a.(now := a.pending[i].due, pending := RemoveAt(a.pending, i), scene := a.pending[i].action.target)))
  {
  }

  /** The first three ticks come before the switch to scene 2. */
  lemma TickFires(rng: Random, s: Sys, k: nat)
    requires Ready(s) && k < 3
    ensures EarliestIndex(Ticked(rng, s, k).pending) == 2
    ensures FireTimer(rng, Ticked(rng, s, k), 2) == Ticked(rng, s, k + 1)
  {
    var a := Ticked(rng, s, k);
    assert IsEarliest(a.pending, 2);
  }

  /** At start + 8000 ms the progression timeout and the fourth tick are
      due together; the timeout was registered first and fires first. */
  lemma SwitchTo2First(rng: Random, s: Sys)
    requires Ready(s)
    ensures EarliestIndex(Ticked(rng, s, 3).pending) == 0
  {
    assert IsEarliest(Ticked(rng, s, 3).pending, 0);
  }

  /** The effect re-run of the switch clears the interval before its fourth
      tick can fire, then plays the scene-2 phrase. */
  lemma SwitchTo2(rng: Random, s: Sys)
    requires Ready(s)
    ensures EarliestIndex(Ticked(rng, s, 3).pending) == 0
    ensures FireTimer(rng, Ticked(rng, s, 3), 0) == InScene2(rng, s)
  {
    SwitchTo2First(rng, s);
    var a := Ticked(rng, s, 3);
    var s1 := a.(now := s.now + Scene2DelayMs, pending := RemoveAt(a.pending, 0), scene := 2);
    FireSwitch(rng, a, 0);
    var c := s1.(pending := [ToScene3(s)], cleanup := None);
    assert Cleanup(s1) == c by {
      assert s1.pending == [ToScene3(s), Tick(s, s.now + Scene2DelayMs)];
      assert RemoveId(s1.pending, s.nextId + 2) == [ToScene3(s)];
    }
    assert RunEffect(c) == InScene2(rng, s) by {
      EffectPlaysPhrase(c);
      Phrase2Timers(s.nextId + 3, c.now, true);
    }
  }

  lemma Phrase2Second(rng: Random, s: Sys)
    requires Ready(s)
    ensures EarliestIndex(InScene2(rng, s).pending) == 1
    ensures FireTimer(rng, InScene2(rng, s), 1) == AfterPhrase2(rng, s)
  {
    assert IsEarliest(InScene2(rng, s).pending, 1);
  }

  /** The delayed tone of the scene-2 phrase, as registered at `now`. */
  lemma Phrase2Timers(id: nat, now: int, ctx: bool)
    ensures Scheduled(id, now, Phrase(2)[1..], ctx) == [Timer(id, now + 500, Play(Tone(554.0, 500, Sine), ctx))]
  {
    var later := Phrase(2)[1..];
    assert later == [Cue(500, Tone(554.0, 500, Sine))];
    ScheduledAt(id, now, later, ctx, 0);
  }

  /** The delayed tones of the scene-3 phrase, as registered at `now`. */
  lemma Phrase3Timers(id: nat, now: int, ctx: bool)
    ensures Scheduled(id, now, Phrase(3)[1..], ctx) ==
      [Timer(id, now + 300, Play(Tone(659.0, 300, Sine), ctx)), Timer(id + 1, now + 600, Play(Tone(784.0, 500, Sine), ctx))]
  {
    var later := Phrase(3)[1..];
    assert later == [Cue(300, Tone(659.0, 300, Sine)), Cue(600, Tone(784.0, 500, Sine))];
    ScheduledAt(id, now, later, ctx, 0);
    ScheduledAt(id, now, later, ctx, 1);
  }

  lemma SwitchTo3(rng: Random, s: Sys)
    requires Ready(s)
    ensures EarliestIndex(AfterPhrase2(rng, s).pending) == 0
    ensures FireTimer(rng, AfterPhrase2(rng, s), 0) == InScene3(rng, s)
  {
    var a := AfterPhrase2(rng, s);
    assert RemoveAt(a.pending, 0) == [];
    var c := a.(now := s.now + Scene3DelayMs, pending := [], scene := 3);
    FireSwitch(rng, a, 0);
    assert Cleanup(c) == c;
    EffectPlaysPhrase(c);
    Phrase3Timers(s.nextId + 4, c.now, true);
  }

  lemma Phrase3Rest(rng: Random, s: Sys)
    requires Ready(s)
    ensures EarliestIndex(InScene3(rng, s).pending) == 0
    ensures EarliestIndex(FireTimer(rng, InScene3(rng, s), 0).pending) == 0
    ensures FireTimer(rng, FireTimer(rng, InScene3(rng, s), 0), 0) == Finished(rng, s)
  {
    var a := InScene3(rng, s);
    assert IsEarliest(a.pending, 0);
    var b := FireTimer(rng, a, 0);
    assert b.pending == [Play784(s)];
  }

  // ---------------------------------------------------------------------------
  // Stretches of the timeline

  lemma TickedValid(rng: Random, s: Sys, k: nat)
    requires k <= 3
    ensures Valid(Ticked(rng, s, k))
  {
    var a := Ticked(rng, s, k);
    assert forall tm :: tm in a.pending ==> tm == a.pending[0] || tm == a.pending[1] || tm == a.pending[2];
  }

  /** Which timer fires next in the state after `k` ticks. */
  lemma TickedNext(rng: Random, s: Sys, k: nat)
    requires Ready(s) && k <= 3
    ensures Valid(Ticked(rng, s, k))
    ensures EarliestIndex(Ticked(rng, s, k).pending) == if k < 3 then 2 else 0
  {
    TickedValid(rng, s, k);
    if k < 3 {
      TickFires(rng, s, k);
    } else {
      SwitchTo2(rng, s);
    }
  }

  /** Running past the next tick is firing it first. */
  lemma TickStep(rng: Random, s: Sys, k: nat, t: int)
    requires Ready(s) && k < 3 && s.now + 2000 * (k + 1) <= t
    ensures AdvanceTo(rng, Ticked(rng, s, k), t) == AdvanceTo(rng, Ticked(rng, s, k + 1), t)
  {
    TickedNext(rng, s, k);
    TickedNext(rng, s, k + 1);
    TickFires(rng, s, k);
    AdvanceStep(rng, Ticked(rng, s, k), t);
  }

  /** Before start + 8000 ms: scene 1, and exactly one ambient tone per
      elapsed period, the first at start + 2000 ms (not at the start). */
  lemma {:induction false} BeforeScene2(rng: Random, s: Sys, k: nat, t: int)
    requires Ready(s) && k <= 3 && s.now + 2000 * k <= t < s.now + Scene2DelayMs
    ensures AdvanceTo(rng, Ticked(rng, s, k), t) ==
      Ticked(rng, s, (t - s.now) / 2000).(now := t)
    decreases 3 - k
  {
    TickedNext(rng, s, k);
    if t < s.now + 2000 * (k + 1) {
      var a := Ticked(rng, s, k);
      assert forall tm :: tm in a.pending ==> tm == a.pending[0] || tm == a.pending[1] || tm == a.pending[2];
      AdvanceStop(rng, a, t);
      assert (t - s.now) / 2000 == k;
    } else {
      TickStep(rng, s, k, t);
      BeforeScene2(rng, s, k + 1, t);
    }
  }

  /** From start + 6000 ms on, the first three ticks have all fired. */
  lemma TicksDone(rng: Random, s: Sys, t: int)
    requires Ready(s) && s.now + 6000 <= t
    ensures AdvanceTo(rng, Ticked(rng, s, 0), t) == AdvanceTo(rng, Ticked(rng, s, 3), t)
  {
    TickedNext(rng, s, 0);
    TickedNext(rng, s, 1);
    TickedNext(rng, s, 2);
    TickedNext(rng, s, 3);
    TickStep(rng, s, 0, t);
    TickStep(rng, s, 1, t);
    TickStep(rng, s, 2, t);
  }

  lemma ReachScene2(rng: Random, s: Sys, t: int)
    requires Ready(s) && s.now + Scene2DelayMs <= t
    ensures AdvanceTo(rng, StartExperience(s), t) == AdvanceTo(rng, InScene2(rng, s), t)
  {
    PressIsTicked0(rng, s);
    TicksDone(rng, s, t);
    TickedNext(rng, s, 0);
    TickedNext(rng, s, 3);
    Phrase2Second(rng, s);
    SwitchTo2(rng, s);
    AdvanceStep(rng, Ticked(rng, s, 3), t);
  }

  lemma StayScene2(rng: Random, s: Sys, t: int)
    requires Ready(s) && s.now + Scene2DelayMs <= t < s.now + Scene2DelayMs + 500
    ensures AdvanceTo(rng, InScene2(rng, s), t) == InScene2(rng, s).(now := t)
  {
    var a := InScene2(rng, s);
    Phrase2Second(rng, s);
    assert forall tm :: tm in a.pending ==> tm == a.pending[0] || tm == a.pending[1];
    AdvanceStop(rng, a, t);
  }

  lemma ReachPhrase2End(rng: Random, s: Sys, t: int)
    requires Ready(s) && s.now + Scene2DelayMs + 500 <= t
    ensures AdvanceTo(rng, InScene2(rng, s), t) == AdvanceTo(rng, AfterPhrase2(rng, s), t)
  {
    var a := InScene2(rng, s);
    assert forall tm :: tm in a.pending ==> tm == a.pending[0] || tm == a.pending[1];
    Phrase2Second(rng, s);
    SwitchTo3(rng, s);
    AdvanceStep(rng, a, t);
  }

  lemma StayPhrase2End(rng: Random, s: Sys, t: int)
    requires Ready(s) && s.now + Scene2DelayMs + 500 <= t < s.now + Scene3DelayMs
    ensures AdvanceTo(rng, AfterPhrase2(rng, s), t) == AfterPhrase2(rng, s).(now := t)
  {
    SwitchTo3(rng, s);
    AdvanceStop(rng, AfterPhrase2(rng, s), t);
  }

  lemma ReachFinished(rng: Random, s: Sys, t: int)
    requires Ready(s) && s.now + Scene3DelayMs + 600 <= t
    ensures AdvanceTo(rng, AfterPhrase2(rng, s), t) == Finished(rng, s).(now := t)
  {
    var a := AfterPhrase2(rng, s);
    SwitchTo3(rng, s);
    Phrase3Rest(rng, s);
    AdvanceStep(rng, a, t);
    var b := InScene3(rng, s);
    AdvanceStep(rng, b, t);
    var c := FireTimer(rng, b, 0);
    AdvanceStep(rng, c, t);
    AdvanceStop(rng, Finished(rng, s), t);
  }

  /** Scene 1 lasts 8000 ms and emits one ambient tone per elapsed period,
      the first 2000 ms after the start, none at the start itself. */
  lemma TimelineScene1(rng: Random, s: Sys, t: int)
    requires Ready(s) && s.now <= t < s.now + Scene2DelayMs
    ensures var r := AdvanceTo(rng, StartExperience(s), t);
      r.scene == 1 && r.log == AmbientLog(rng, s.now, s.draws, (t - s.now) / 2000)
  {
    PressIsTicked0(rng, s);
    TickedNext(rng, s, 0);
    BeforeScene2(rng, s, 0, t);
  }

  /** At the switch the 440 Hz tone plays and no fourth ambient tick does. */
  lemma TimelineSwitch(rng: Random, s: Sys, t: int)
    requires Ready(s) && s.now + Scene2DelayMs <= t < s.now + Scene2DelayMs + 500
    ensures var r := AdvanceTo(rng, StartExperience(s), t);
      r.scene == 2 && r.log == AmbientLog(rng, s.now, s.draws, 3) + [Tone440(s.now)]
  {
    ReachScene2(rng, s, t);
    StayScene2(rng, s, t);
  }

  /** The rest of scene 2: its phrase has played once, and nothing repeats. */
  lemma TimelineScene2(rng: Random, s: Sys, t: int)
    requires Ready(s) && s.now + Scene2DelayMs + 500 <= t < s.now + Scene3DelayMs
    ensures var r := AdvanceTo(rng, StartExperience(s), t);
      r.scene == 2 && r.log == AmbientLog(rng, s.now, s.draws, 3) + [Tone440(s.now), Tone554(s.now)]
  {
    ReachScene2(rng, s, t);
    ReachPhrase2End(rng, s, t);
    StayPhrase2End(rng, s, t);
  }

  lemma FinishedShape(rng: Random, s: Sys)
    ensures var f := Finished(rng, s);
      && f.scene == 3 && f.pending == []
      && f.log == AmbientLog(rng, s.now, s.draws, 3) + [Tone440(s.now), Tone554(s.now), Tone523(s.now), Tone659(s.now), Tone784(s.now)]
  {
  }

  /** Once the scene-3 phrase has played, nothing is pending: the page is
      silent for good, in scene 3. */
  lemma TimelineEnd(rng: Random, s: Sys, t: int)
    requires Ready(s) && s.now + Scene3DelayMs + 600 <= t
    ensures var r := AdvanceTo(rng, StartExperience(s), t);
      && r.scene == 3 && r.pending == []
      && r.log == AmbientLog(rng, s.now, s.draws, 3) + [Tone440(s.now), Tone554(s.now), Tone523(s.now), Tone659(s.now), Tone784(s.now)]
  {
    ReachScene2(rng, s, t);
    ReachPhrase2End(rng, s, t);
    ReachFinished(rng, s, t);
    FinishedShape(rng, s);
  }

  /** The three ambient tones of scene 1, spelled out. */
  lemma AmbientLogThree(rng: Random, t0: int, d: nat)
    ensures AmbientLog(rng, t0, d, 3) ==
      [Emission(t0 + 2000, AmbientTone(rng(d))),
       Emission(t0 + 4000, AmbientTone(rng(d + 1))),
       Emission(t0 + 6000, AmbientTone(rng(d + 2)))]
  {
    assert AmbientLog(rng, t0, d, 1) == [Emission(t0 + 2000, AmbientTone(rng(d)))];
  }
}
