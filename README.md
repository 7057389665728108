# Anime tracker: theme animation engine and tracked-anime list

This project models the two pieces of sequential logic in the anime tracker page's `script.js` and proves properties of them.

- **Theme animation engine** (`theme_animation.dfy`, module `ThemeAnimation`). The page has four background variants: sakura petals, a purple glow, dark stars and light bubbles. Each is a two-state machine over an `active` flag. `start` does nothing when the flag is already set. Otherwise it sets the flag, and the sakura variant also rebuilds its petals, 40 new ones. `stop` always clears the flag. `switchThemeCanvas` stops all four variants, then starts the one the theme name selects: `sakura`, `default`, `dark` or `light`. Any other name starts nothing.
  - The class `Variant` stands for all four JavaScript classes. Its constant `kind` says which one it is.
  - The class `ThemeCanvas` holds the four page-level objects.
  - The same behaviour is stated on values (`Started`, `Stopped`, `Run`, `Switched`, `RunSwitches`), and the lemmas are proved about those. The methods' `ensures` tie each object's state (flag and entity count) to these functions.
- **Tracked-anime list** (`anime_store.dfy`, module `AnimeStore`). `animeList` is a sequence of `{title, image, status}` records. The class `Tracker` holds:
  - the list;
  - an abstract `stored` copy standing for the browser's storage;
  - the three add-form fields;
  - the filter last rendered and the resulting view.

  `Filter` is the status filter. `Render` is `displayAnime`, giving either the placeholder or the sequence of cards. `Add`, `Delete` and `Edit` are the button handlers, and `Save` is `saveToLocalStorage`.
- `wrappers.dfy` holds an `Option` type. It stands for storage that may hold nothing and for theme names that select no variant.

Points where the code decides:
- Petal count: `SakuraPetals` builds `this.numPetals` petals, which is 40. The top-level constant `numPetals = 60` is never read.
- Placeholder: the placeholder depends only on `animeList.length` (script.js:265). A non-empty list with no record matching the filter gives an empty card area (`Cards([])`), not the placeholder. `StoreScenario` proves this case.
- `StoreScenario` and `ThemeScenario` are client methods whose assertions are proved from the contracts alone.

## Model

| member | source | states |
|---|---|---|
| `ThemeAnimation.RunActiveIsLastCall` | anime-tracker/script.js:51-64 | after any non-empty series of start/stop calls, a variant is active exactly when the last call was start |
| `ThemeAnimation.RunStutter` | anime-tracker/script.js:51-64 | repeating a start or a stop immediately has no effect beyond the first one (the `if (this.active) return` guard and the unconditional clear) |
| `ThemeAnimation.RunKeepsEntities` | anime-tracker/script.js:77-188 | the circle, star and bubble variants own the same number of entities after any series of start/stop calls |
| `ThemeAnimation.RunPetalCount` | anime-tracker/script.js:44-64 | the petal variant owns either its initial petals or exactly 40. It owns exactly 40 once a start has found it inactive, whether that start met the inactive initial state or followed some stop |
| `ThemeAnimation.SwitchSelects` | anime-tracker/script.js:223-233 | after `switchThemeCanvas(theme)`, a variant is active iff the theme names it, so at most one is. Unknown names leave none active. Circles, stars and bubbles keep their counts. The petals are rebuilt to 40 iff the theme is `sakura` |
| `ThemeAnimation.SwitchIdempotent` | anime-tracker/script.js:223-233 | a redundant switch to the same theme leaves the same flags and entity counts |
| `ThemeAnimation.RunSwitchesFollowsLast` | anime-tracker/script.js:223-249 | after any non-empty series of theme changes, the active variant is the one the last theme names |
| `ThemeAnimation.RunSwitchesAtMostOne` | anime-tracker/script.js:223-233 | the at-most-one-active invariant is preserved by every series of theme switches |
| `ThemeAnimation.RunSwitchesKeepsEntities` | anime-tracker/script.js:223-233 | no series of switches changes the circle, star or bubble counts |
| `ThemeAnimation.NewEntities` | anime-tracker/script.js:54-57 | the push loop yields exactly `n` entities, all newly allocated and pairwise distinct objects |
| `ThemeAnimation.Variant.constructor` | anime-tracker/script.js:45-49 | a variant starts inactive, with no petals, 30 circles, 100 stars or 40 bubbles according to its kind |
| `ThemeAnimation.Variant.Start` | anime-tracker/script.js:51-59 | the new state is `Started` of the old state. An active variant keeps its entities. An inactive sakura variant gets 40 newly allocated petals, and the other kinds keep theirs |
| `ThemeAnimation.Variant.Stop` | anime-tracker/script.js:61-64 | the flag is cleared whatever its value, and the entities are untouched |
| `ThemeAnimation.Variant.Animate` | anime-tracker/script.js:66-74 | a frame callback reschedules itself iff the variant is active. An inactive variant returns at once. `StopThenFrame` and `SwitchThenFrame` use it for cancellation |
| `ThemeAnimation.Variant.StopThenFrame` | anime-tracker/script.js:61-74 | cancellation is cooperative: a frame requested before `stop` still runs, finds the flag cleared and does not reschedule. The entities are untouched |
| `ThemeAnimation.SwitchThenFrame` | anime-tracker/script.js:66-74 | after `switchThemeCanvas(theme)`, the next frame of variant `k` reschedules iff `theme` names `k`, so only the variant the theme names keeps animating (possibly with two frame loops, see "Left out") |
| `ThemeAnimation.ThemeCanvas.constructor` | anime-tracker/script.js:218-221 | the page's four variant objects all start inactive, with their initial entity counts |
| `ThemeAnimation.ThemeCanvas.SwitchThemeCanvas` | anime-tracker/script.js:223-233 | the new state is `Switched(theme, old state)`. Each flag is set iff its theme name was given. The circle, star and bubble objects keep their entity sequences. The petals are replaced by 40 new ones iff the theme is `sakura` |
| `AnimeStore.Filter` | anime-tracker/script.js:273-274 | the filtered view is never longer than the list |
| `AnimeStore.FilterMembers` | anime-tracker/script.js:273-274 | a record is shown iff it is in the list and its status equals the filter, or the filter is "All" |
| `AnimeStore.FilterAll` | anime-tracker/script.js:273-274 | under "All", the view is the whole list, in order |
| `AnimeStore.FilterAppend` | anime-tracker/script.js:273-274 | filtering distributes over concatenation, so a newly appended record shows last when it matches |
| `AnimeStore.SourceIndex` | anime-tracker/script.js:273-275 | card `i` of the filtered view shows the record at a list position `j >= i`, and that record matches the filter |
| `AnimeStore.SourceIndexMonotone` | anime-tracker/script.js:273-275 | cards keep the list's order: a later card comes from a later list position |
| `AnimeStore.SourceIndexAll` | anime-tracker/script.js:273-275 | under "All", card `i` shows list position `i` |
| `AnimeStore.Render` | anime-tracker/script.js:264-275 | the placeholder appears iff the list is empty, whatever the filter. Otherwise the cards are exactly the matching records |
| `AnimeStore.RemoveAt` | anime-tracker/script.js:292 | `splice(i, 1)` shortens the list by one. Earlier records stay in place, later ones move down by one, and only the record at `i` is lost |
| `AnimeStore.RemoveClicked` | anime-tracker/script.js:290-296 | corrected removal: drops exactly the clicked card's record, so the list loses one copy of that record |
| `AnimeStore.ClickedRemovedUnderAll` | anime-tracker/script.js:273-305 | under "All", the card's position is its list position, so the code's splice removes the clicked record |
| `AnimeStore.FilteredRemovalHitsOtherRecord` | anime-tracker/script.js:273-305 | counterexample: under a status filter, the splice at the card's position removes a different record |
| `AnimeStore.Loaded` | anime-tracker/script.js:252-257 | at load the list is the stored one, or empty when nothing is stored. It is the read side of the `Tracker.Persisted` invariant `Loaded(stored) == animeList`, which `Tracker.Valid` includes |
| `AnimeStore.Tracker.constructor` | anime-tracker/script.js:252-316 | page load: the list is read from storage and rendered unfiltered. This establishes `Valid`: the view is `Render(list, "All")`, and `Loaded(stored)` is the list |
| `AnimeStore.Reload` | anime-tracker/script.js:252-257 | round trip: from any valid state, reloading the page from the stored copy gives back exactly the list in memory, rendered unfiltered |
| `AnimeStore.Tracker.DisplayAnime` | anime-tracker/script.js:264-314 | the view becomes `Render(list, filter)`, and nothing else changes |
| `AnimeStore.Tracker.Save` | anime-tracker/script.js:349-351 | the stored copy becomes the whole current list |
| `AnimeStore.Tracker.Add` | anime-tracker/script.js:327-347 | if any field is empty, nothing changes. Otherwise the list becomes `old + [record]`, the stored copy equals the list, the view is re-rendered unfiltered, and the form resets to "", "", "Watching". `Valid` (rendered and persisted) holds afterwards, and a valid state stays valid on rejection |
| `AnimeStore.Tracker.Delete` | anime-tracker/script.js:289-296 | when declined, nothing changes. When confirmed, the list becomes `RemoveAt(old list, index)`, where `index` is the card's position in the filtered view. The stored copy equals the list, the view is re-rendered unfiltered, and `Valid` is re-established |
| `AnimeStore.Tracker.Edit` | anime-tracker/script.js:298-310 | when declined, nothing changes. When confirmed, the clicked card's record is copied into the form, then the same splice, save and re-render as delete follow, re-establishing `Valid` |

## Findings

| source | as written | input that shows it | evidently intended | confidence | as-written member | corrected member |
|---|---|---|---|---|---|---|
| anime-tracker/script.js:275-305 | the delete and edit handlers call `animeList.splice(index, 1)` with `index` taken from `.forEach` over the filtered array, so it is the card's position in the view | list [A (Watching), B (Completed)], filter "Completed": the only card shows B, and confirming delete on it removes A and keeps B. Edit copies B into the form and removes A | remove the clicked record, at its own position in `animeList` | high (proved of the model, not executed) | `AnimeStore.FilteredRemovalHitsOtherRecord` | `AnimeStore.RemoveClicked` |

`Tracker.Delete` and `Tracker.Edit` keep the code's behaviour, so that the class matches the page as it runs. `RemoveClicked` is the corrected removal, and `ClickedRemovedUnderAll` proves the two agree whenever the filter is "All".

## Left out

- Canvas drawing, particle motion and randomness are not modelled. This covers `Petal.reset/update/draw`, alpha oscillation, star and bubble wrap-around, `resizeCanvas` and `Math.random`. They are floating-point arithmetic on random values plus draw calls. An entity is a field-less object, and the model keeps only how many a variant owns and whether they are new.
- `ctx.clearRect` in `stop` and in each frame is a draw call and is not modelled.
- `requestAnimationFrame` scheduling is event-loop timing and is not modelled. `Variant.Animate` models one frame callback as a decision to reschedule.
- `SwitchIdempotent`: states flags and entity counts only. The number of live frame loops is not modelled. Take a `stop()` followed by a `start()` before the pending frame fires, as in a redundant switch to the active theme or X, then Y, then X within one frame. The pending frame finds `active` true again (script.js:67) and reschedules, and `start` requests its own frame (script.js:58). That variant can then run two frame loops.
- `Variant.Start`: does not model the first `animate()` call made at the end of `start`. That call is `Animate` on an active variant and changes nothing the model keeps.
- `Variant.Animate`: does not model the per-frame motion of the entities, because the positions are not modelled.
- The theme-change and page-load listeners are not modelled: reading and writing the saved theme name, the `|| "default"` fallback and setting `data-theme` (script.js:235-249). They are storage and DOM glue. Their effect on the canvas is `switchThemeCanvas`, modelled by `RunSwitches`.
- The DOM is modelled only as the sequence of records shown. This covers `innerHTML`, `createElement`, the card markup and event-listener wiring. The nav buttons (script.js:318-325) call `displayAnime(status)`, which is `Tracker.DisplayAnime`.
- `confirm` is a boolean parameter of `Delete` and `Edit`. `alert` and `setTimeout` are user feedback and are not modelled. `Add` returns whether it succeeded, which decides which alert would show.
- User input into the add form is `Tracker.FillForm`. Its initial field values are taken to be the post-add reset values, because the page markup is not part of this model.
- `localStorage`, `JSON.stringify` and `JSON.parse` are foreign calls. Persistence is the abstract `stored` copy. Malformed stored data (a record missing a field) cannot arise in the model because records are typed.
