# Home page timeline and scene audio, modelled in Dafny

The landing page of this site (`app/page.tsx`) is a three-scene animated
story with sound. The logic behind it lives in the `Home` component. Its
state is `scene` (1, 2 or 3), `isPlaying` and `audioContext`.

- A start button sits on an intro overlay that is rendered while nothing is
  playing. Its handler, `startExperience`, sets `isPlaying` and arms two
  one-shot timeouts. Both count from the press: scene 2 comes 8000 ms after
  the press and scene 3 comes 16000 ms after it.
- The overlay leaves through framer-motion's `AnimatePresence` with an exit
  fade to opacity 0. Until the fade ends the button stays mounted and still
  calls `startExperience`.
- An effect depends on `[scene, isPlaying, audioContext]` and drives the
  audio:
  - scene 1 runs a 2000 ms interval that plays a random triangle tone in
    [200, 300) Hz for 0.3 s, and its cleanup clears that interval;
  - scene 2 plays 440 Hz right away and 554 Hz after 500 ms;
  - scene 3 plays 523 Hz, then 659 Hz after 300 ms, then 784 Hz after 600 ms.
- `playTone` drops a request when there is no audio context.

The model has two layers. The pure layer describes the page as values and
functions and proves its properties:

- `tones.dfy` (module `Tones`) holds the tone data, the scene phrases and
  the ambient tone.
- `timers.dfy` (module `Timers`) holds the browser's pending-timer list.
  Timers fire in deadline order, first registered first among equal
  deadlines. `clearInterval` drops a registration by id.
- `experience.dfy` (module `Experience`) holds the whole page as a value
  `Sys`. Its transitions are functions: `StartExperience`, `AttachAudio`,
  `RunEffect`, `Cleanup`, `React`, `FireTimer` and `AdvanceTo` (the clock
  running to `t`).
  - React's re-render is `React(before, after)`: when a dependency changed,
    the previous cleanup runs and then the effect body runs.
  - Closures keep the audio context they saw. The interval tick and the
    delayed phrase tones carry that value in their `ctx` field.
- `properties.dfy` (module `Properties`) holds the invariant of every state
  reached after a start at `t0` (`Started`). Lemmas show that each
  transition keeps it, including further presses less than 8000 ms after
  the first. They also show that the scene never goes back, and that once
  due timers have fired the scene is `SceneAt(t - t0)`.
- `scenario.dfy` (module `Scenario`) works out the complete output of one
  session started with the audio context already set, as an exact log of
  tones.

The class layer is `home.dfy` (module `Home`), the component as an object.
Class `Page` has the three state variables, the cleanup React holds, and
the simulated clock, timer list and tone log. Each method updates these in
place and is proved to implement the matching `Experience` function.
`RunUntil` is the browser's event loop: a `while` loop that fires the
earliest due timer until none is due.

What the code does, as the model states it:

- `startExperience` has no guard of its own. A press during the overlay's
  exit fade runs it again and arms a second pair of timeouts
  (`Properties.RestartArmsAgain`). These can only set the scene already
  shown, so the scene at every instant is the one of a single press
  (`Properties.DoublePressScene`).
- The first ambient tick comes 2000 ms after the press, so three ambient
  tones play before scene 2.
- No `setTimeout` is ever cancelled. Only the scene-1 interval is cleared.
- When the audio context arrives after the start, the effect re-runs. In
  scenes 2 and 3 that replays the whole phrase. In scene 1 it re-arms the
  interval from that instant.

Ties between timers are broken in registration order, and React runs the
effect straight after each state change. Under that ordering, the
scene-2 timeout and the fourth interval tick are both due at start +
8000 ms, and the timeout fires first. Its effect re-run clears the interval,
so no ambient tone plays at that instant (`Scenario.TimelineSwitch`).

## Model

| member | source | states |
|---|---|---|
| Tones.AmbientTone | app/page.tsx:49-51 | an ambient tick asks for a triangle tone of 300 ms whose frequency lies in [200, 300) for every random value in [0, 1) |
| Tones.Phrase | app/page.tsx:55-66 | only scenes 2 and 3 have a phrase; it starts with a direct tone at offset 0, its offsets strictly increase (so tones come in declaration order) and every tone is sine |
| Timers.EarliestIndex | app/page.tsx:21-22 | the timer that fires next has the earliest deadline, and every timer registered before it is due strictly later |
| Timers.RemoveAt | app/page.tsx:21-22 | a fired timeout leaves the list, one entry shorter; Timers.RemoveAtKeeps states that the others stay in order |
| Timers.RemoveId | app/page.tsx:52 | clearInterval(id) never adds entries; Timers.RemoveIdMembers states exactly which survive |
| Timers.RemoveIdMembers | app/page.tsx:52 | clearInterval(id) drops exactly the registrations with that id and keeps all others |
| Experience.PlayTone | app/page.tsx:25-42 | playTone as a closure sees it; its property is Properties.PlayToneEmits |
| Experience.SetTimeout | app/page.tsx:21-22 | one registration due delay ms from now under the next id; Experience.SetTimeoutExtends states that nothing becomes due at once |
| Experience.Cleanup | app/page.tsx:52 | the effect's cleanup; its property is Properties.CleanupCore |
| Experience.PlayCue | app/page.tsx:56-65 | one statement of a phrase; Properties.PlayPhraseSchedules states what the later ones register |
| Experience.PlayPhrase | app/page.tsx:56-65 | the statements of a phrase in order; its property is Properties.PlayPhraseSchedules |
| Experience.RunEffect | app/page.tsx:44-66 | the effect body; its properties are Properties.EffectPlaysPhrase, Properties.EffectArmsInterval and Properties.EffectStarts |
| Experience.DepsChanged | app/page.tsx:67 | the effect's dependency array compared between renders; used by React |
| Experience.React | app/page.tsx:67 | cleanup then effect exactly when a dependency changed; Experience.ReactExtends states that it adds nothing due at once |
| Experience.StartExperience | app/page.tsx:17-23 | startExperience; its properties are Properties.PressStartArms, Properties.RestartArmsAgain and Properties.RestartKeeps |
| Experience.AttachAudio | app/page.tsx:11-15 | the mount effect's setAudioContext; its properties are Properties.QuietAttach and Properties.AttachKeeps |
| Experience.FireTimer | app/page.tsx:21-64 | one callback as the browser runs it; its properties are Properties.FireKeeps and Experience.FireProgress |
| Experience.SceneAt | app/page.tsx:21-22 | the reference schedule of scenes by time since the start; Properties.SettledScene and Properties.AdvanceKeeps tie the model to it |
| Experience.FireProgress | app/page.tsx:21-64 | firing the earliest timer keeps every timer in the future and either moves the clock or leaves one fewer due now |
| Experience.AdvanceTo | app/page.tsx:20-22 | running the clock to t ends at t with every timer due by t fired, and the tone log only grows |
| Experience.AdvanceStep | app/page.tsx:20-22 | when the earliest timer is due by t, running to t is firing it and then running on to t |
| Experience.AdvanceStop | app/page.tsx:20-22 | when no timer is due by t, running to t changes nothing but the clock |
| Properties.PlayToneEmits | app/page.tsx:25-42 | with an audio context the tone is logged at the current instant; without one the state is unchanged, so nothing is queued; the stop instant holds by the definition of Stop |
| Properties.QuietAdvance | app/page.tsx:44-46 | before the start no timer is pending, and however far the clock runs no tone is emitted |
| Properties.QuietAttach | app/page.tsx:11-15 | the audio context arriving before the start changes nothing but the flag |
| Properties.PressStartArms | app/page.tsx:17-53 | a press from the quiet state sets isPlaying, arms the two timeouts at press + 8000 ms and press + 16000 ms, then arms the scene-1 interval with its first tick at press + 2000 ms, and emits nothing |
| Properties.PressStartStarts | app/page.tsx:17-23 | after a press from the quiet state, the invariant of a start at that instant holds, in scene 1, with an empty log |
| Properties.RestartArmsAgain | app/page.tsx:17-23 | startExperience called while playing changes no effect dependency, so the effect does not re-run; it adds a second pair of progression timeouts from the current instant |
| Properties.RestartKeeps | app/page.tsx:17-23 | a further press less than 8000 ms after the start keeps that start's invariant, scene 1, the log and the clock |
| Properties.DoublePressScene | app/page.tsx:72-87 | a second press during the overlay's exit fade leaves the scene at every later instant equal to that of a single press, SceneAt(t - start) |
| Properties.CleanupCore | app/page.tsx:52 | the cleanup leaves no interval tick pending and keeps scene, clock, log and the progression timeouts |
| Properties.PlayPhraseSchedules | app/page.tsx:57-64 | phrase tones with a positive offset become one timeout each, at effect time plus the tone's own offset, not chained |
| Properties.ScheduledAt | app/page.tsx:57-64 | the j-th delayed phrase tone is registered with id base + j, at now + its offset, with the audio context seen at effect time |
| Properties.ScheduledKeepsScene | app/page.tsx:57-64 | phrase timeouts never change the scene |
| Properties.EffectPlaysPhrase | app/page.tsx:55-66 | an effect run in scene 2 or 3 emits the phrase's first tone at once (when the audio context is set) and registers the rest at their offsets; a re-run replays the phrase from offset 0 |
| Properties.EffectArmsInterval | app/page.tsx:48-53 | an effect run in scene 1 registers one 2000 ms interval and keeps its id as the cleanup |
| Properties.EffectStarts | app/page.tsx:44-67 | any effect run after the cleanup keeps the invariant, the scene, the audio flag and the clock, and only appends to the log |
| Properties.AttachKeeps | app/page.tsx:11-67 | the audio context arriving after the start keeps the scene and the invariant; in scene 2 or 3 it replays the first phrase tone now and re-registers the others |
| Properties.SceneTimerBounds | app/page.tsx:21-22 | whatever timer fires next, in scene 1 or 2, is due no later than the next scene switch |
| Properties.EarliestSceneTimer | app/page.tsx:21-22 | a progression timeout that fires next either sets the scene already shown or the next one exactly at the switch instant; in scene 1 it is always the switch to scene 2 |
| Properties.FireSceneKeeps | app/page.tsx:21-22 | a progression timeout keeps the invariant; either it moves the scene one step forward at start + 8000 ms or start + 16000 ms, or React sees no change and only the clock and the timer list move |
| Properties.AmbientFired | app/page.tsx:49-51 | an interval tick re-arms the interval one period later under the same id, draws one random number, and emits the ambient tone when its closure's audio context is set |
| Properties.FireAmbientKeeps | app/page.tsx:49-51 | an interval tick fires only in scene 1 and adds exactly the ambient tone at its deadline when the audio context is set |
| Properties.PlayFired | app/page.tsx:57-64 | a delayed phrase tone leaves the list and is logged at its deadline exactly when its closure saw an audio context |
| Properties.FirePlayKeeps | app/page.tsx:57-64 | a delayed phrase tone keeps the scene and the invariant and adds its sine tone at its deadline exactly when its closure saw an audio context |
| Properties.FireKeeps | app/page.tsx:21-64 | no timer firing moves the scene back, and scene 3 is never left |
| Properties.SettledScene | app/page.tsx:17-22 | once every due timer has fired, the scene is 1, 2 or 3 as less than 8000, less than 16000, or at least 16000 ms have passed since the start |
| Properties.AdvanceKeeps | app/page.tsx:17-23 | running the clock keeps the invariant (all ambient tones are triangles in [200, 300) Hz between start + 2000 and start + 8000 ms; every other tone comes at or after start + 8000 ms); the scene never decreases and equals SceneAt(t - start) |
| Scenario.TickFires | app/page.tsx:49-51 | each of the first three ticks fires before the switch and adds one ambient tone |
| Scenario.SwitchTo2 | app/page.tsx:21-59 | at start + 8000 ms the timeout fires before the tick due at the same instant; the re-run clears the interval and plays 440 Hz at once and 554 Hz at + 500 ms |
| Scenario.SwitchTo3 | app/page.tsx:61-66 | at start + 16000 ms scene 3 plays 523 Hz at once and registers 659 Hz at + 300 ms and 784 Hz at + 600 ms |
| Scenario.BeforeScene2 | app/page.tsx:48-53 | between the start and start + 8000 ms the log holds one ambient tone per elapsed 2000 ms |
| Scenario.TimelineScene1 | app/page.tsx:17-53 | t ms after a press with audio, before start + 8000: scene 1 and exactly floor((t - start) / 2000) ambient tones, the first at start + 2000 ms |
| Scenario.TimelineSwitch | app/page.tsx:21-58 | from start + 8000 ms to start + 8500 ms: scene 2, the three ambient tones and 440 Hz, and no ambient tone at the switch instant |
| Scenario.TimelineScene2 | app/page.tsx:56-59 | for the rest of scene 2 the log holds the phrase exactly once; nothing repeats |
| Scenario.TimelineEnd | app/page.tsx:22-66 | from start + 16600 ms on: scene 3, nothing pending, and the log is exactly the three ambient tones followed by 440, 554, 523, 659 and 784 Hz at their offsets |
| Scenario.AmbientLogThree | app/page.tsx:49-51 | the scene-1 tones come at start + 2000, 4000 and 6000 ms with the first three random draws |
| Home.Page.constructor | app/page.tsx:7-9 | the component mounts in scene 1, not playing, without audio context, with nothing pending or emitted |
| Home.Page.PlayTone | app/page.tsx:25-42 | implements playTone: appends the tone at the current instant exactly when the calling closure has an audio context |
| Home.Page.SetTimeout | app/page.tsx:21-22 | registers one timer at now + delay under a fresh id and returns that id |
| Home.Page.ClearInterval | app/page.tsx:52 | drops the registrations with the given id |
| Home.Page.RunCleanup | app/page.tsx:52 | runs the cleanup the previous effect run returned, if any, and forgets it |
| Home.Page.RunEffect | app/page.tsx:44-66 | the effect body, statement by statement, with the same result as the effect function |
| Home.Page.Commit | app/page.tsx:67 | re-runs the cleanup and the effect exactly when scene, isPlaying or audioContext changed |
| Home.Page.StartExperience | app/page.tsx:17-23 | sets isPlaying, registers the two progression timeouts, then lets React re-run the effect |
| Home.Page.PressStart | app/page.tsx:72-87 | a press while the button is on screen runs startExperience, before the first start or during the exit fade; it keeps the invariant, leaves scene 1 and the log as they were, and records the first press as the start |
| Home.Page.AttachAudio | app/page.tsx:11-15 | setting the audio context keeps the invariant and the scene and only appends to the log |
| Home.Page.FireTimer | app/page.tsx:21-64 | runs one timer's callback as the browser does |
| Home.Page.RunUntil | app/page.tsx:17-22 | the event loop up to t equals AdvanceTo; it keeps the invariant, the log only grows, the scene never decreases and, once started, equals SceneAt(t - start) |

## Left out

- JSX rendering, Tailwind classes and framer-motion animations (app/page.tsx:69 onward): presentation only, except that the intro overlay keeps its button during the exit fade.
- The Web Audio node graph and the gain envelope (app/page.tsx:28-38): a tone is an event of (time, frequency, duration, waveform).
- Frequencies are `real`, not floating point; durations are whole milliseconds.
- `Math.random()` is a parameter of the model, a stream of values in [0, 1); the model does not say how these values are spread.
- Browser timers and React's scheduling are a simulated integer clock with a list of pending timers. Equal deadlines fire in registration order, and an effect runs right after the state change that triggers it. Under another ordering the tick at start + 8000 ms could also fire.
- AudioContext construction (app/page.tsx:11-15) is a boolean flag. It turns true once, whenever the environment delivers it.
- Component unmount is not modelled. The page never unmounts and has no unmount cleanup besides the interval's.
- Home.Page.PressStart: a press is possible only while the overlay is mounted. The exit fade lasts `ExitFadeMs` = 300 ms, framer-motion's default tween for opacity; that value comes from the library, not from app/page.tsx.
- Experience.StartExperience: the invariant covers a repeated call less than 8000 ms after the first press (`Properties.RestartKeeps`). A call later than that is not possible on the page, and the model says nothing about one.
- Scenario.TimelineScene1 (and the other `Timeline` lemmas): they cover one press, with the audio context present from the start. When audio arrives later, or the button is pressed again during the fade, the model proves the invariant and the scene at every instant (`Properties.AttachKeeps`, `Properties.AdvanceKeeps`, `Properties.DoublePressScene`), not the exact log.
