/** Tone requests and the per-scene audio programs of the Home page
    (app/page.tsx:25-66). The Web Audio node graph is reduced to an
    emission event; durations are kept in milliseconds. */
module Tones {

  /** Oscillator shapes the page uses; `Sine` is playTone's default. */
  datatype Waveform = Sine | Triangle

  /** One playTone request: frequency in Hz, duration in ms, waveform. */
  datatype Tone = Tone(frequency: real, durationMs: nat, waveform: Waveform)

  /** A tone the audio backend started at time `at` (ms). */
  datatype Emission = Emission(at: int, tone: Tone)
  {
    /** By definition, not by proof: playTone schedules the oscillator's
        stop `durationMs` after its start, so an emission's stop instant is
        read off its start and its duration. */
    function Stop(): int
    {
      at + tone.durationMs
    }
  }

  /** A value returned by Math.random(). */
  type Unit = r: real | 0.0 <= r < 1.0

  /** Period of the scene-1 ambient interval. */
  const AmbientPeriodMs: nat := 2000

  /** The tone one ambient tick requests: 200 + random * 100 Hz, 0.3 s, triangle. */
  function AmbientTone(r: Unit): (t: Tone)
    ensures 200.0 <= t.frequency < 300.0
    ensures t.durationMs == 300 && t.waveform == Triangle
  {
    Tone(200.0 + r * 100.0, 300, Triangle)
  }

  /** One step of a one-shot phrase: the tone and its delay from the effect run. */
  datatype Cue = Cue(offsetMs: nat, tone: Tone)

  /** The one-shot phrase a scene plays when its effect runs. A cue at
      offset 0 is the direct playTone call; the others are setTimeout calls. */
  function Phrase(scene: int): (p: seq<Cue>)
    ensures (scene == 2 || scene == 3) <==> p != []
    ensures p != [] ==> p[0].offsetMs == 0
    ensures forall j :: 0 < j < |p| ==> p[j - 1].offsetMs < p[j].offsetMs
    ensures forall j :: 0 <= j < |p| ==> p[j].tone.waveform == Sine
  {
    if scene == 2 then
      [Cue(0, Tone(440.0, 500, Sine)), Cue(500, Tone(554.0, 500, Sine))]
    else if scene == 3 then
      [Cue(0, Tone(523.0, 300, Sine)), Cue(300, Tone(659.0, 300, Sine)), Cue(600, Tone(784.0, 500, Sine))]
    else
      []
  }
}
