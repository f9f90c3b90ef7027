# Slideshow controller and search-result message of the front page

The front page script (`js/main.js`) runs an auto-advancing slideshow. It
keeps the current slide index, the handle of the recurring 15-second
interval (`slideInterval`) and a pause flag. Beside them it holds two
fixed, parallel lists: the `.slide` elements and the `.dot` indicators.
`showSlide` moves the `active` class and starts entry and exit animations.
`nextSlide` is the interval's callback. `startSlides`/`stopSlides` create
and clear the interval. A dot click jumps to a slide and restarts the
interval unless paused. The pause button toggles the flag and stops or
starts the interval. The page also fakes a search: on submit it shows
"`<n> result`" or "`<n> results`", with `n` zero for a blank query and
otherwise a random integer below 40.

The project has three files:

- `slideshow_spec.dfy` (module `SlideshowSpec`) describes the controller's
  state as a value. A slide is `Shown` (it is `active` and entering),
  `Exiting` (still `active`, exit animation running) or `Hidden` (not
  `active`, opacity 0). The timer is the stored handle `interval`, the set
  `live` of intervals started and not yet cleared, and a counter `issued`
  of handles handed out. Each handler is a function from the state before
  to the state after. `Valid` is the invariant: exactly one slide `Shown`
  and exactly one dot lit, both at `current`, and `live == {interval}`
  when running, `live == {}` when paused. Lemmas prove what each handler
  promises and that every handler, and so every run of events after page
  load, keeps `Valid`.
- `slideshow.dfy` (module `Slideshow`) is the controller as the page runs
  it. The class `Controller` has the page's variables as fields, and its
  methods update them in place. `ShowSlide` keeps the slide-by-slide loop
  of the source. Each method is proved to leave the fields exactly as the
  matching `SlideshowSpec` function says, and the handlers to keep
  `Valid()`. `FourSlideScenario` is a client that uses only these
  contracts: three ticks, a wrap, then navigation while paused.
- `search_results.dfy` (module `SearchResults`) holds the result-count
  message: `trim`, the count rule and the message text. The random draw is
  a parameter.

Two choices of the model follow the code closely:

- `showSlide` does not check its index. Here `idx < |slides|` is a
  precondition, because its callers only pass dot indices
  (js/main.js:294-297) or a value reduced modulo the slide count
  (js/main.js:283).
- Re-selecting the current dot still restarts the interval while the show
  is running (js/main.js:296-300), and `AfterDotClick` does the same.
  `ReselectCurrentIsNoOp` proves that `showSlide` itself changes nothing
  in that case.

## Model

| member | source | states |
|---|---|---|
| SlideshowSpec.ShowSlideEffect | js/main.js:257-280 | `AfterShow(c, idx)` is the state after showSlide(idx): `current == idx`; exactly one dot is lit (count 1), the one at `idx`; slide `idx` is Shown at once; every other slide that was active is Exiting; every other slide is Hidden; pause flag and timer unchanged |
| SlideshowSpec.DotsForExactlyOne | js/main.js:277 | for an index in range, exactly one dot is lit |
| SlideshowSpec.ShowSlidePreservesValid | js/main.js:257-280 | showSlide keeps the invariant (one slide Shown, one dot lit, timer discipline) |
| SlideshowSpec.ShowSlideIdempotent | js/main.js:257-280 | calling showSlide(idx) twice gives the same state as calling it once |
| SlideshowSpec.ReselectCurrentIsNoOp | js/main.js:257-280 | in a valid state, showSlide(current) changes no slide, no dot and no index |
| SlideshowSpec.NextSlideEffect | js/main.js:282-284 | `AfterNext(c)` is the state after nextSlide, which sets `current` to `(current + 1) % N`, which stays in [0, N), and keeps the invariant |
| SlideshowSpec.AdvanceValid | js/main.js:282-284 | any number of consecutive nextSlide calls keep the invariant |
| SlideshowSpec.AdvanceCurrent | js/main.js:282-284 | after `k` calls of nextSlide the index is `(start + k) % N` |
| SlideshowSpec.FullCycleReturns | js/main.js:282-284 | N consecutive calls of nextSlide return to the starting index |
| SlideshowSpec.StartEffect | js/main.js:286-288 | `AfterStart(c)` is the state after startSlides: from any state whose handles were all handed out (as at page load, after the dot handler's stop and when the pause handler resumes), it stores a handle that was neither live nor the stored one, adds it to the live intervals, keeps the others and keeps every handle handed out |
| SlideshowSpec.StartWhileRunningLeaks | js/main.js:286-288 | starting while running leaves two live intervals, and a later stop clears only the new one: this is why the handlers only start after a stop or while paused |
| SlideshowSpec.StopEffect | js/main.js:290-292 | `AfterStop(c)` is the state after stopSlides: when at most the stored interval is live (as at both places the page calls it, including the pause handler after the flag is already set), no interval is live afterwards, and a second stop changes nothing |
| SlideshowSpec.DotClickEffect | js/main.js:294-302 | `AfterDotClick(c, i)` is the state after a click on dot `i`, which sets `current == i` even while paused and keeps the invariant; running, it leaves exactly one live interval under a fresh handle and the old one cleared; paused, the live intervals stay empty and the handle is untouched |
| SlideshowSpec.PauseClickEffect | js/main.js:304-312 | `AfterPauseClick(c)` is the state after a pause click, which flips `paused` and nothing about slides, dots or index; now paused, no live interval; now running, exactly one, under a fresh handle |
| SlideshowSpec.PauseTwiceRestores | js/main.js:304-312 | two pause clicks restore the flag, slides, dots and index; from the running state they leave exactly one live interval, with a new handle, and the old one is not live |
| SlideshowSpec.ExitCompleteEffect | js/main.js:266-272 | `AfterExitComplete(c, i)` is the state after slide `i`'s exit completes, which hides it if it was Exiting and otherwise changes nothing at all (a superseded exit has no completion left to fire); it never touches the current slide or any other slide, the dots, the timer or the handle counter, and keeps the invariant |
| SlideshowSpec.FromMarkup | js/main.js:250 | the slides as the markup delivers them: active exactly where the markup says (`Shown` here stands only for carrying `active`) |
| SlideshowSpec.PageLoadEffect | js/main.js:314-316 | `PageLoad(active, dots)` is the state after page load: index 0, dot 0 lit, slide 0 Shown, not paused, exactly one live interval, which is the stored handle; the invariant holds |
| SlideshowSpec.StepPreservesValid | js/main.js:282-312 | `Step(c, e)` is the state after event `e`; every event (interval tick, dot click, pause click, exit completion) keeps the invariant; in particular paused means no live interval and running means exactly the stored one |
| SlideshowSpec.RunPreservesValid | js/main.js:282-312 | any run of events from a valid state, such as the state after page load, ends valid with the same slide count |
| Slideshow.Controller.constructor | js/main.js:253-316 | the variables start at index 0, running and with no interval, then showSlide(0) and startSlides() run; the result is the page-load state, which is valid, with dot 0 lit and one live interval |
| Slideshow.Controller.ShowSlide | js/main.js:257-280 | the loop over slides and dots leaves exactly the state `AfterShow` gives (see ShowSlideEffect) |
| Slideshow.Controller.NextSlide | js/main.js:282-284 | leaves the state `AfterNext` gives |
| Slideshow.Controller.StartSlides | js/main.js:286-288 | stores a fresh handle and adds it to the live intervals; nothing else changes |
| Slideshow.Controller.StopSlides | js/main.js:290-292 | removes the stored handle from the live intervals; nothing else changes |
| Slideshow.Controller.Tick | js/main.js:287 | a live interval firing advances the index modulo N and keeps the invariant |
| Slideshow.Controller.DotClick | js/main.js:294-302 | navigates to `i`, keeps the invariant and the pause flag; running, the one live interval is a new one |
| Slideshow.Controller.PauseClick | js/main.js:304-312 | flips `paused`, keeps slides, dots, index and the invariant |
| Slideshow.Controller.ExitComplete | js/main.js:269-270 | removes `active` from an exiting slide; the current slide and the invariant are kept |
| SearchResults.LeadingSpace | js/main.js:233 | the length of the whitespace run a string starts with: every character in it is whitespace and the next one is not |
| SearchResults.TrailingSpace | js/main.js:233 | the length of the whitespace run a string ends with: every character in it is whitespace and the one before it is not |
| SearchResults.Trim | js/main.js:233 | `query.trim()` is the slice of the query that starts after its leading whitespace and is followed only by whitespace; it is empty exactly when the query is all whitespace; otherwise it neither starts nor ends with whitespace |
| SearchResults.ResultCount | js/main.js:242-243 | the count is below 40; it is 0 for an all-whitespace query and the draw otherwise |
| SearchResults.Decimal | js/main.js:246 | the rendering of the count is a non-empty run of decimal digits with no leading zero: it starts with `0` only when it is exactly "0", for the count 0 |
| SearchResults.DecimalRoundTrip | js/main.js:246 | reading the rendered digits gives the count back |
| SearchResults.ResultMessage | js/main.js:246 | the message starts with the count's digits followed by " result", and ends in "s" exactly when the count is not 1 |
| SearchResults.MessageRoundTrip | js/main.js:246 | the number a message starts with is the count it was built from |
| SearchResults.MessageInjective | js/main.js:246 | different counts give different messages |
| SearchResults.SearchMessage | js/main.js:240-246 | the text shown starts with the result count and ends in "s" exactly when that count is not 1 |
| SearchResults.BlankQueryMessage | js/main.js:233-246 | a blank query always shows "0 results", whatever the draw |
| SearchResults.NonBlankQueryMessage | js/main.js:233-246 | a non-blank query shows the drawn count: "1 result" for 1, otherwise the digits and " results" |

## Left out

- Animation details: durations, easing, offsets, and the `x`/`scale`/opacity values in between (js/main.js:260-272). They belong to the GSAP library, whose code is not part of this model. A slide's visual state is reduced to Shown, Exiting or Hidden. The exit's completion is an explicit event, `ExitComplete`. GSAP's `overwrite: "auto"` is modelled by its effect: a slide that is shown again, or sent on a new exit, has no stale completion left to fire.
- Failures of the animation library are not modelled; the library is not part of this model.
- Timing: the 15000 ms period, the 1200 ms search delay and the 100 ms focus delay are not modelled. That a dot click restarts the 15-second countdown (stop, then start: js/main.js:297-300) is captured only as "the one live interval is a new one".
- Timer handles are modelled as a counter: `setInterval` returns `issued + 1`. The browser only promises a handle that is unique among live timers. Fresh counter values are one such choice.
- An interval fires only while it is live: `Tick(h)` requires `h in live`. This is the browser's guarantee, not code of the page.
- An empty slide list and a dot list whose length differs from the slide list are excluded by preconditions. With no slides the source computes `% 0`; with fewer dots it throws on `dots[i]`.
- The `paused` class the pause handler toggles on its button (js/main.js:306) only mirrors `paused` for display and is not modelled.
- Three.js scene setup, texture loading and the rotation loop (js/main.js:70-136); the continuous logo rotation and glow (143-161); the logo entry animation (6-11) and the tagline fade (319-323). These are rendering code with floating-point values.
- Hover dialogue show and hide (js/main.js:17-64): presentation only, no state kept.
- Search overlay opening, closing on Escape or on a logo click, and input focus (js/main.js:174-189, 215-222): a CSS class toggled on and off, with no rule to state.
- `Math.random` and `Math.floor` (js/main.js:242): the draw is a parameter below 40.
- The "Searching..." placeholder, the `search-loading` class and the `top` class (js/main.js:198-202, 236-237, 245): display only.
- The first submit handler (js/main.js:193-211) is a duplicate of the second (231-248). Both are registered and both write the message, each with its own draw. The rule is modelled once; which of the two texts stays visible is not modelled.
- The page is assumed to contain the pause button and the search form. The script dereferences both without a check (js/main.js:231, 304); on a page without them it throws before `showSlide(0); startSlides();` (js/main.js:315-316), so the slideshow is never initialised and no interval starts. That error path is not modelled.
