# Drift sleep app: verified model of its state logic

Drift is a single-page React app to help people fall asleep. All of its logic lives in `src/App.jsx`.
This project models the deterministic state logic of that file in Dafny and proves properties of it.

- **Breathing guide** (`breathing.dfy`, module `Breathing`). This is the 4-7-8 exercise.
  - A tap on the circle starts the exercise at Inhale with 4 seconds, or stops it and returns to `Ready` with 0 seconds.
  - A one-second tick counts the current phase down.
  - When the tick finds at most one second left, it enters the next phase of the cycle Inhale → Hold → Exhale → Inhale with that phase's 4, 7 or 8 seconds.
  - `State`, `Toggle` and `Tick` form the specification. The class `BreathingExercise` follows the handlers step by step and is proved against them.
  - The lemmas show that a running exercise shows every phase for exactly its duration. They also show that the exercise repeats every 19 ticks, and that starting it follows the 4-7-8 schedule second by second.
- **Journal** (`journal.dfy`, module `Journal`). These are pure functions over the list of entries and the editor fields.
  - Saving with a blank title and a blank body (after `trim`) changes nothing.
  - Saving with no current id prepends one new entry. Its title becomes "Untitled Thought" when the title field is empty.
  - Saving with a current id updates every entry with that id, keeping each entry's id and creation time.
  - Deleting filters out every entry with the given id.
  - Opening an entry, creating a new one, resetting the editor and storing the "soothe" reply are modelled too.
  - `trim` is modelled with the ECMAScript whitespace set.
  - The clock is a parameter: the new entry's id and the save timestamp are passed in.
- **Noise button** (`noise.dfy`, module `Noise`). This is the control logic of `initAudio` and `toggleNoise`.
  - Initialisation runs at most once.
  - The looping source is started once.
  - Each toggle fades the gain towards `isMuted ? 0.2 : 0` and flips `isMuted`.
  - The class invariant ties `isMuted` to the parity of the number of toggles. It also ties the gain's target level to `isMuted`.
- **Onboarding and sheep counter** (`counters.dfy`, module `Counters`). The onboarding part is a four-card stepper whose last "Next" closes the overlay and records it as seen. The sheep counter is an unbounded tap counter.

Behaviour of the code as written, which the model keeps:

- `isMuted` starts `false`, so the speaker icon first shows "sound on", yet nothing plays until the first press. That press starts the source at the initial gain 0.15 and, because `isMuted` was false, fades it towards 0. The noise becomes audible (at 0.2) only on the second press. `Noise.FirstTwoPresses` proves this sequence. So 0.15 is only the gain the node is created with, and 0.2 is the audible target.
- When the host has no Web Audio, the `AudioContext` constructor throws before any ref is set. The model returns `ok = false` and leaves every field unchanged. It does not model a separate "disabled" state.
- When a phase runs out, the tick updater returns 0 and `startPhase` requests the next phase's duration from inside that updater. The model assumes the requested duration is applied after the returned 0, so the counter never shows 0 while running. `Breathing.Tick` gives that net effect.
- `if (currentId)` uses JavaScript truthiness. An empty-string id therefore saves as a new entry, just like a null id does (`Journal.HasCurrentId`).
- A title made only of spaces, saved with a non-blank body, is stored as it is. Only the empty title becomes "Untitled Thought".
- A blank save returns to the list without clearing the editor.

## Model

| member | source | states |
|---|---|---|
| `Breathing.NextIsThreeCycle` | src/App.jsx:306-311 | the successor of an active phase is another active phase; three steps return to the start; the three durations add up to 19 |
| `Breathing.Toggle` | src/App.jsx:281-291 | a tap flips `isActive`; stopping gives `Ready` with 0 seconds and starting gives Inhale with 4 seconds, both valid states |
| `Breathing.TickCountsDownOrAdvances` | src/App.jsx:305-314 | with more than one second left a tick subtracts exactly one and keeps the phase; otherwise it enters the successor with its full duration; validity is preserved |
| `Breathing.CountsDown` | src/App.jsx:305-313 | fewer ticks than the seconds left keep the phase and lower the counter by the number of ticks |
| `Breathing.RunsOut` | src/App.jsx:293-313 | after exactly as many ticks as seconds left, the successor phase starts with its duration |
| `Breathing.CycleIsNineteenTicks` | src/App.jsx:293-314 | every running state recurs after 19 ticks |
| `Breathing.FollowsSchedule` | src/App.jsx:281-314 | k ticks after starting, the phase and counter are those of the 4-7-8 schedule (Inhale 4..1, Hold 7..1, Exhale 8..1) |
| `Breathing.Tick` | src/App.jsx:305-314 | a tick never changes `isActive`, and from a running valid state it leads to a valid state |
| `Breathing.StopRestoresIdle` | src/App.jsx:270-291 | stopping any running state gives the mount state, so start then stop is a round trip |
| `Breathing.BreathingExercise.constructor` | src/App.jsx:270-272 | the component mounts as `Ready`, inactive, with 0 seconds |
| `Breathing.BreathingExercise.StartPhase` | src/App.jsx:293-300 | entering Inhale, Hold or Exhale sets 4, 7 or 8 seconds, and any other phase 0 |
| `Breathing.BreathingExercise.StartBreathing` | src/App.jsx:281-291 | the tap handler produces exactly `Toggle` of the old state and keeps the state valid |
| `Breathing.BreathingExercise.OnTick` | src/App.jsx:302-316 | the interval callback produces exactly `Tick` of the old state and keeps the state valid |
| `Journal.Mount` | src/App.jsx:420-441 | the journal mounts on the list view with the stored entries and an empty editor with no current id |
| `Journal.EditTitle` | src/App.jsx:597 | typing in the title field changes only the title |
| `Journal.EditBody` | src/App.jsx:604 | typing in the body field changes only the body |
| `Journal.TrimStart` | src/App.jsx:448 | the result is the suffix of the input after its leading whitespace, and it starts with a non-whitespace character |
| `Journal.TrimEnd` | src/App.jsx:448 | the result is the prefix of the input before its trailing whitespace, and it ends with a non-whitespace character |
| `Journal.BlankIffAllWhitespace` | src/App.jsx:448 | a field trims to empty exactly when every character of it is whitespace |
| `Journal.SavedTitle` | src/App.jsx:456 | an empty title becomes "Untitled Thought", a non-empty title is kept, so a saved title is never empty |
| `Journal.UpdateById` | src/App.jsx:463 | the length is kept; each entry with the id takes the new title, body, `updatedAt` and advice and keeps its id and `createdAt`; every other entry is untouched |
| `Journal.RemoveById` | src/App.jsx:485 | an entry is in the result exactly when it was in the list and its id differs, so no entry with the id remains |
| `Journal.RemoveByIdAppend` | src/App.jsx:485 | deleting distributes over concatenation, so the kept entries stay in their original order |
| `Journal.RemoveAbsentId` | src/App.jsx:485 | deleting an id that no entry has leaves the list unchanged |
| `Journal.RemoveByIdIdempotent` | src/App.jsx:485 | deleting an id twice is the same as deleting it once |
| `Journal.ResetEditor` | src/App.jsx:504-509 | the id, title, body and advice are cleared; the list and the view are kept |
| `Journal.CreateNew` | src/App.jsx:499-502 | the editor opens empty with the current id cleared to null and the list is kept |
| `Journal.OpenEntry` | src/App.jsx:491-497 | the editor opens holding the entry's id, title, body and advice, and the list is kept |
| `Journal.Soothe` | src/App.jsx:474-481 | with an empty body nothing changes; otherwise only the advice becomes the service's reply |
| `Journal.HandleSave` | src/App.jsx:447-472 | a blank title and body change only the view. Otherwise the editor is cleared, and either one entry with the fresh id, the timestamp and the editor's fields is prepended before the old entries, or the entries with the current id are updated in place |
| `Journal.HandleDelete` | src/App.jsx:483-489 | the new list is the filtered list of `RemoveById`, so the entries left are exactly those whose id differs, in their original order; the view returns to the list only if the deleted id was open; the editor is kept |
| `Journal.SaveNewThenDelete` | src/App.jsx:447-489 | saving a new entry under an unused id and then deleting that id restores the old list |
| `Journal.SaveToMissingIdIsLost` | src/App.jsx:462-463 | saving with a current id that no entry has leaves the list unchanged |
| `Journal.ReopenAndSaveTouchesOnlyUpdatedAt` | src/App.jsx:447-497 | with unique ids, opening an entry and saving it unedited changes only that entry's `updatedAt` |
| `Journal.SaveKeepsIdsUnique` | src/App.jsx:462-465 | a save keeps ids unique when the new id is not already used |
| `Journal.DeleteKeepsIdsUnique` | src/App.jsx:485 | a delete keeps ids unique |
| `Noise.TargetGain` | src/App.jsx:115 | the fade targets 0.2 exactly when the noise was muted, and 0 exactly when it was not |
| `Noise.FlipsParity` | src/App.jsx:120 | after n toggles the flag has changed exactly when n is odd |
| `Noise.MutedAfterOddToggles` | src/App.jsx:30 | from the initial `isMuted = false`, the flag is set exactly after an odd number of toggles |
| `Noise.NoiseControl.constructor` | src/App.jsx:28-50 | the app mounts unmuted, with no audio objects and no toggles |
| `Noise.NoiseControl.InitAudio` | src/App.jsx:52-100 | once initialised it does nothing. Without Web Audio it fails and changes nothing. Otherwise it builds one graph whose gain is 0.15 and whose buffer holds 2 × sampleRate samples, and it leaves the source unstarted |
| `Noise.NoiseControl.Toggle` | src/App.jsx:102-121 | initialises at most once, so the buffer keeps its length or, on the first toggle, gets 2 × sampleRate samples; resumes the context, starts the source, fades towards `isMuted ? 0.2 : 0` and flips `isMuted`. The invariant keeps `isMuted` equal to the parity of the toggles and the target equal to 0.2 exactly when unmuted |
| `Noise.FirstTwoPresses` | src/App.jsx:102-121 | on a fresh app the first press mutes and fades to 0, and the second unmutes and fades to 0.2 |
| `Counters.Onboarding.constructor` | src/App.jsx:31-39 | the overlay shows at card 0 exactly when the stored seen flag is absent |
| `Counters.Onboarding.Close` | src/App.jsx:41-44 | closing hides the overlay and records it as seen |
| `Counters.Onboarding.HandleNext` | src/App.jsx:222-228 | before the last card it moves one card on, and on the last card it closes the overlay; the card stays below 4 |
| `Counters.PressNextThroughAllCards` | src/App.jsx:196-228 | a first-time user's fourth Next press, and not the third, closes the overlay and marks it as seen |
| `Counters.SheepCounter.constructor` | src/App.jsx:381-382 | the count starts at 0 and not animating |
| `Counters.SheepCounter.Increment` | src/App.jsx:384-386 | a tap adds exactly one to the count and starts the animation |
| `Counters.SheepCounter.EndAnimation` | src/App.jsx:387 | the timeout ends the animation and keeps the count |

## Left out

- `callGemini` and the prompt text of `handleSoothe` and `generateStory` are left out because they are network calls to an external service. `Journal.Soothe` takes the service's reply as a parameter.
- The pink-noise recursion that fills the buffer is left out because it is floating-point arithmetic over `Math.random()`. The model keeps only the buffer's length.
- The Web Audio graph (`createBufferSource`, the 5000 Hz lowpass filter, `connect`) and the gain automation (`cancelScheduledValues`, `setTargetAtTime` with its 0.5 s time constant) are platform calls. The gain is modelled only by the level it settles at.
- `resume()` is modelled as succeeding. Its asynchronous outcome, and the host suspending the context later, are platform behaviour.
- `localStorage` reads and writes, and `JSON.parse`/`JSON.stringify`, are I/O and serialisation. Stored entries are a parameter of `Journal.Mount`, and the stored onboarding flag is a parameter of the `Onboarding` constructor.
- `setInterval`, `clearInterval` and `setTimeout` are scheduling. A tick is a call to `OnTick`, which needs an active exercise because the interval exists only then. The animation timeout is a call to `EndAnimation`.
- `formatDate` is left out because it is locale-dependent date formatting.
- JSX rendering, CSS classes, animations, tab navigation (`activeTab`), the story generator's theme and story state, and the `isGenerating` flags are view state with no logic.
- React's batching and stale closures are left out. Each handler is modelled as seeing the state left by the previous one. Two taps handled before a re-render could both read the same `isMuted` or `isActive`.
- Journal entries read from storage may lack `aiAdvice`. The model gives every entry a string, which `openEntry`'s `|| ''` would produce anyway.
- Breathing.Tick: assumes React applies the duration that `startPhase` requests inside the `setTimeLeft` updater after the updater's returned 0. This is the order when the updater runs during rendering. If React computes the updater eagerly, the returned 0 is applied last. The new phase then shows 0 and ends on the next tick. The model does not capture that ordering.
- Journal.Soothe: models the reply as arriving before any other handler runs. In the code the `currentBody` check happens before the awaited service call and the reply is stored after it. If the user resets the editor or opens another entry meanwhile, the reply lands in that editor and the next save stores it with a different entry. The model does not capture that interleaving.
