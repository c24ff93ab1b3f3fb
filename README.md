# Smart waste management page: bin simulator and contact form

This project models the two pieces of logic in the page script `main.js`. The page
code around them is removed.

- **Bin fill-level simulator.** `binData` holds a fill percentage per bin name. The
  seed levels are plastic 75, paper 45 and organic 90. `emptyBin` sets a bin to 0.
  Every tick of the interval timer raises each bin below 100 by a random 1..5,
  capped at 100. When a bin reaches 90 or more, its card gets a `warning-shown`
  flag if it does not have one yet, and a one-shot timeout clears the flag later,
  whatever the level is by then.
- **Contact-form validator.** An empty name, email or message is rejected first.
  Then the email must match `^[^\s@]+@[^\s@]+\.[^\s@]+$`. Otherwise the
  submission is acknowledged with the name and email. `capitalize` upper-cases
  the first character of the bin name in the "emptied" notification.

Files:

- `text.dfy` (module `Text`): JavaScript's `\s` class, and `capitalize` over ASCII.
- `contact_form.dfy` (module `ContactForm`): the email regular expression as a
  predicate over strings, and a proof that it equals a structural description.
  Also the validator, with result `MissingField | InvalidEmail | Ok(name, email)`.
- `bin_model.dfy` (module `BinModel`): the simulator as a pure state machine on
  `Sim(levels, warned, timers)`. `levels` is `binData`. `warned` is the set of
  flagged cards. `timers` is a multiset with one entry per armed clear-warning
  timeout. The module gives the steps for emptying, ticking, showing a warning and a timer firing,
  the invariant `Inv` they keep, and the lemmas about them.
- `bin_simulation.dfy` (module `BinSimulation`): class `Bins` holds the state
  that the page mutates in place. `EmptyBin`, `Tick` (a loop over the bin names),
  `FillBin` (the `forEach` callback), `ShowWarning` and `ClearWarning` each
  update the fields. Each one is proved to move the abstract state `State()` by
  the matching `BinModel` step (`EmptyStep`, `TickStep`, `VisitBin`, `ShowStep`,
  `ClearStep`) and to keep `Valid()`.

Randomness and time are parameters. A tick takes the drawn increments as a map
from bin name to an integer in 1..5. A timeout firing is an explicit
`ClearWarning(bin)` call, allowed only for a timer that was armed.

`emptyBin` with an unknown name is not a no-op: `binData[binType] = 0`
(main.js:13) adds the key, and later ticks fill it. The model does the same:
`EmptyStep` inserts the key and `EmptyBin` appends the name. A bin added this
way has no card on the page, so it never gets a warning flag.

## Model

| member | source | states |
|---|---|---|
| Text.ToUpper | main.js:103 | An ASCII lower-case letter becomes the upper-case letter at the same alphabet position. Every other character is kept. The result is never a lower-case letter. |
| Text.IsSpace | main.js:121 | JavaScript's `\s` class: the ECMAScript WhiteSpace and LineTerminator code points. It is a definition; `ContactForm.PatternIsShape` carries what the regular expression does with it. |
| Text.Capitalize | main.js:102-104 | Same length as the input. The first character is `ToUpper` of the input's first. The tail `s[1..]` is unchanged. `""` maps to `""`. |
| Text.CapitalizeIdempotent | main.js:102-104 | Capitalizing twice gives the same result as capitalizing once. |
| Text.CapitalizeFixedPoints | main.js:102-104 | A string equals its capitalization exactly when it is empty or does not start with a lower-case letter. |
| ContactForm.MatchesEmailPattern | main.js:121-122 | The regular expression `^[^\s@]+@[^\s@]+\.[^\s@]+$` read literally: an `@` and a later `.` split the string into three non-empty runs of characters that are neither whitespace nor `@`. Its properties are carried by `ContactForm.PatternIsShape`. |
| ContactForm.PatternHasShape | main.js:121-122 | Every string the email regular expression accepts has exactly one `@` and no whitespace. The part before the `@` is non-empty. The part after it has a `.` that is neither first nor last. |
| ContactForm.ShapeMatchesPattern | main.js:121-122 | Every string of that shape is accepted by the regular expression. |
| ContactForm.PatternIsShape | main.js:121-122 | The regular expression and the structural shape accept exactly the same strings. |
| ContactForm.Validate | main.js:115-128 | `MissingField` exactly when a field is empty, checked before the email. `InvalidEmail` exactly when all fields are filled and the email fails the pattern. `Ok` exactly otherwise, carrying the submitted name and email unchanged. |
| ContactForm.ValidationExamples | main.js:115-128 | `("", "a@b.com", "hi")` gives `MissingField`. `("Jo", "not-an-email", "hi")` gives `InvalidEmail`. `("Jo", "a@b.com", "hi")` gives `Ok("Jo", "a@b.com")`. |
| BinModel.Seed | main.js:5-9 | The initial state has exactly the bins plastic, paper and organic, with no flag set and no timer armed. |
| BinModel.Fill | main.js:44-45 | A bin below 100 raised by an increment in 1..5 ends strictly higher and at most 100. The result is either 100 or the old level plus the increment. |
| BinModel.ShowStep | main.js:58-68 | `showWarning` on the state: an unflagged card gets its flag and one armed clear-warning timer; anything else is unchanged. Its properties are carried by `BinModel.TickRaisesWarning` and `BinModel.TickKeepsRaisedWarning`. |
| BinModel.VisitBin | main.js:42-51 | One bin's `forEach` callback: a bin below 100 rises by the draw, capped at 100, and shows its warning when it reaches 90. Its properties are carried by `BinModel.ProgressVisit`. |
| BinModel.TickStep | main.js:40-53 | One run of the interval callback over all bins. Its properties are carried by `BinModel.TickLevel`, `BinModel.TickKeepsNames`, `BinModel.TickIsPerBin` and `BinModel.TickKeepsInv`. |
| BinModel.TickLevel | main.js:42-45 | A tick leaves a bin at 100 or more unchanged. A bin below 100 goes to `min(old + inc, 100)`, which is strictly higher, at most 100, and at most 5 more. |
| BinModel.TickKeepsNames | main.js:40-46 | A tick never changes the set of bin names. |
| BinModel.TickIsPerBin | main.js:40-46 | A bin's new level depends only on its own old level and its own increment. Other bins do not matter. |
| BinModel.ProgressVisit | main.js:40-53 | Visiting a not-yet-visited bin in the middle of a tick has the same effect as visiting it first. Its level and flag are still the original ones. |
| BinModel.ProgressAll | main.js:40-53 | After every bin has been visited once, in any order, the state is the whole-tick step `TickStep`. |
| BinModel.TickRaisesWarning | main.js:49-62 | A clear flag becomes set during a tick exactly when the bin has a card, was below 100, and the tick took it to 90 or more. |
| BinModel.TickKeepsRaisedWarning | main.js:60-62 | A flag already set stays set through a tick, and no second clear-timer is armed for it. |
| BinModel.FullBinStaysUnwarned | main.js:42-50 | A bin at 100 whose flag has been cleared gets no new warning from a tick, and its level stays the same. |
| BinModel.TickKeepsInv | main.js:40-67 | A tick keeps `Inv`: every level in 0..100, every card's bin present, flags only on cards, and exactly one armed timer for each set flag and none otherwise. |
| BinModel.EmptyStep | main.js:13 | The assignment `binData[binType] = 0`. Its properties are carried by `BinModel.EmptyEffect`. |
| BinModel.EmptyEffect | main.js:12-13 | After `emptyBin(b)`, `b` is at 0 and every other bin is unchanged. The name set grows by `b`, and its size grows exactly when `b` was absent. Flags and timers are untouched. |
| BinModel.EmptyKeepsInv | main.js:12-13 | Emptying keeps `Inv`, including for an unknown name. |
| BinModel.ClearStep | main.js:64-67 | The clear-warning timeout firing. Its properties are carried by `BinModel.ClearEffect`. |
| BinModel.ClearEffect | main.js:64-67 | The timeout clears the flag and uses up its own timer. Levels are unchanged, whatever they are at that moment. |
| BinModel.ClearKeepsInv | main.js:64-67 | A timeout firing keeps `Inv`. |
| BinModel.ApplyKeepsInv | main.js:12-67 | Any one enabled event keeps `Inv`: an emptying, a tick, or a timeout. |
| BinModel.RunKeepsInv | main.js:12-67 | `Inv` holds after any sequence of enabled emptyings, ticks and timeouts. |
| BinModel.LevelsStayInRange | main.js:5-53 | From the seed levels 75/45/90, every level stays within 0..100 after any sequence of events. |
| BinModel.EmptyOrganicFromSeed | main.js:5-13 | Emptying organic from the seed gives plastic 75, paper 45 and organic 0. |
| BinSimulation.EmptiedNotice | main.js:17 | The notification is the capitalized bin name followed by " bin has been emptied!". |
| BinSimulation.OrganicNotice | main.js:17 | Emptying organic announces "Organic bin has been emptied!". |
| BinSimulation.Bins.constructor | main.js:5-9 | The page starts in the `Seed` state, with the names in the order plastic, paper, organic. |
| BinSimulation.Bins.EmptyBin | main.js:12-18 | The new state is `EmptyStep` of the old one. The name is appended only if it was new. `Valid` is kept. The returned text is the "emptied" notification. |
| BinSimulation.Bins.ShowWarning | main.js:58-68 | The new state is `ShowStep` of the old one: a card not yet flagged gets the flag and one armed timer, and a flagged card or a bin without a card is left alone. Names are unchanged. `Valid` is kept. |
| BinSimulation.Bins.FillBin | main.js:40-53 | One bin's `forEach` callback moves the state by `VisitBin`, leaves the names unchanged and keeps `Valid`. |
| BinSimulation.Bins.Tick | main.js:39-54 | The loop over the bin names moves the state by `TickStep`, keeps `Valid` and leaves the names unchanged. |
| BinSimulation.Bins.ClearWarning | main.js:64-67 | The state moves by `ClearStep` and `Valid` is kept. |

## Left out

- Page rendering is not modelled: `updateBinDisplay`, `showNotification`, the border colour set in `showWarning`, `initSmoothScroll`, `initScrollAnimations` and `addNotificationStyles`. None of them changes the state modelled here.
- `alert`, `form.reset()`, `event.preventDefault()` and the `DOMContentLoaded` wiring, including `window.emptyBin`, are page I/O. Only the validation outcome is modelled, not the alert text.
- Timer durations (10000 ms interval, 3000 ms warning timeout) are not modelled. Ticks and timeouts may interleave in any order, which allows more orders than the real page. On the page, a clear-warning timeout always fires before the next tick. The proved properties hold for every order.
- BinSimulation.Bins.ClearWarning: any armed timer may fire next. The first-in, first-out order of same-delay timeouts is not modelled.
- `Math.random` is a parameter. A tick takes the increments drawn for the bins below 100, each in 1..5 as `Math.floor(Math.random() * 5) + 1` yields.
- BinModel.Cards: the set of bins with a card on the page is fixed to plastic, paper and organic. The page markup is not part of this model. A bin without a card never gets a warning, as the `?.`/`if (binCard …)` guard in `showWarning` makes it.
- BinSimulation.Bins.EmptyBin: a new name is appended at the end of `names`. JavaScript puts integer-like property names first. The order only matters for which bin a tick visits first, and `ProgressAll` shows the result does not depend on it.
- BinSimulation.Bins.EmptyBin: property names with special meaning on a plain object, such as `__proto__`, are treated as ordinary bin names.
- Text.ToUpper: only ASCII letters are upper-cased. For other characters JavaScript's `toUpperCase` may map differently, for example `é` to `É` or `ß` to `SS`. The JavaScript string is UTF-16 code units, while Dafny's `char` is a Unicode scalar value.
- Text.IsSpace follows the ECMAScript list of WhiteSpace and LineTerminator code points, with the space separators of current Unicode.
