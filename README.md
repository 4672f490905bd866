# PixieBooth photo studio, modelled in Dafny

PixieBooth is a browser photobooth built as one React component,
`PhotoStudio`. The user picks how many photos a strip should have
(1, 2, 3 or 6). The user then picks one of ten filters and presses
capture. For each photo the component shows a countdown ("3..", "2..",
"1..", "Smile!"), grabs a webcam frame drawn through a canvas filter, and
pauses. When all passes are done it shows the strip, with each photo
styled by a CSS class derived from its filter name. "Reshoot" discards the
photos and goes back to the studio.

This project models the logic below the UI and proves properties of it:

- `Filters` (`filters.dfy`): the filter catalogue and its two lookups.
  `FilterClass` is `getFilterClass`. `CanvasFilter` is the `switch` inside
  `takePhoto`. Both switch on the lower-cased name. The model proves that
  `FilterClass`'s `"Soft Glow"` / `"Rose Gold"` cases can never match, because a
  lower-cased string has no capitals. So the catalogue names "Soft Glow"
  and "Rose Gold" get the classes `"soft glow"` / `"rose gold"`. They also
  miss the hyphenated `"soft-glow"` / `"rose-gold"` canvas cases and are
  drawn with `"none"`. The canvas switch is also proved equal to a static
  lookup table with `"none"` as its fallback.
- `Capture` (`capture.dfy`): the webcam as `takePhoto` sees it.
  `NoVideo`, or a video with its `readyState` and current frame. The
  camera of a whole sequence is a function from pass number to that view.
  An encoded photo is an opaque token: the frame plus the canvas filter it
  was drawn through. `Shots` is the photo list a sequence builds, with
  lemmas on its length, order and tags.
- `Countdown` (`countdown.dfy`): the sequence's timing, recorded as events.
  These are countdown shown or cleared, one animation frame, a delay of so
  many milliseconds, and a capture. The lemmas place every capture after a
  full countdown and before the clear and the pause. The pause is 800 ms
  when more than three photos were asked for and 500 ms otherwise.
- `Strip` (`strip.dfy`): the result strip. It is a grid exactly when the
  count is 6, and the cells follow the photo list in order.
- `Studio` (`studio.dfy`): the component as a class, `PhotoStudio`. Each
  `useState` hook is a field. Each handler is a method that assigns those
  fields; React setters are modelled as immediate assignments. Every
  awaited step of the capture sequence is appended to the `log` field
  instead of taking real time. `StartPhotoSequence` has the source's `for`
  loop, with its invariants.
- `Wrappers` (`wrappers.dfy`): the `Option` type used for the countdown
  overlay and the result strip.

Three behaviours of the code that a reader might not expect, and that the
model keeps as written:

- The code has no "session already running" guard. `startPhotoSequence`
  can run at any time, and only the disabled capture button prevents a
  second run. In the model each method runs to completion, so
  `isCapturing` is false between calls.
- An unknown filter name is not an error in the code. It falls through to
  `"none"`.
- The catalogue names "Soft Glow" and "Rose Gold" do not resolve to their
  intended transforms (see above).

## Model

| member | source | states |
|---|---|---|
| `Filters.CatalogKeys` | photobooth-main/vite-project/src/components/PhotoStudio.jsx:7-18 | the ten catalogue names, lower-cased, are the keys both switches see ("soft glow" and "rose gold" keep their space) |
| `Filters.ToLowerHasNoUpper` | photobooth-main/vite-project/src/components/PhotoStudio.jsx:40 | the model's ASCII lower-casing `ToLower` keeps the length and leaves no letter A-Z |
| `Filters.ToLowerIdempotent` | photobooth-main/vite-project/src/components/PhotoStudio.jsx:119 | lower-casing an already lower-cased name changes nothing |
| `Filters.NeverLowered` | photobooth-main/vite-project/src/components/PhotoStudio.jsx:45-48 | no lower-cased name equals a literal that starts with a capital |
| `Filters.DeadCases` | photobooth-main/vite-project/src/components/PhotoStudio.jsx:40-48 | the `"Soft Glow"` and `"Rose Gold"` cases of `getFilterClass` can never be taken |
| `Filters.FilterClassCases` | photobooth-main/vite-project/src/components/PhotoStudio.jsx:39-52 | `"90s"` maps to `"_90s"`, `"2000s"` to `"_2000s"`, and every other name (in any case) to its lower-cased form |
| `Filters.FilterClassIgnoresCase` | photobooth-main/vite-project/src/components/PhotoStudio.jsx:39-52 | the class of a name equals the class of its lower-cased form |
| `Filters.FilterClassIsLowerCase` | photobooth-main/vite-project/src/components/PhotoStudio.jsx:39-52 | no class contains an upper-case letter |
| `Filters.NamedStyles` | photobooth-main/vite-project/src/components/PhotoStudio.jsx:39-52 | "Soft Glow" and "Rose Gold" get canvas filter `"none"` and classes `"soft glow"` / `"rose gold"`; "90s" and "2000s" get `"_90s"` / `"_2000s"` |
| `Filters.CanvasFilterIsLookup` | photobooth-main/vite-project/src/components/PhotoStudio.jsx:118-153 | the switch is total. It equals a lookup of the lower-cased name in the ten-entry table, and it gives `"none"` exactly when that name is not a key |
| `Filters.CanvasFilterIgnoresCase` | photobooth-main/vite-project/src/components/PhotoStudio.jsx:118-153 | the canvas filter of a name equals that of its lower-cased form |
| `Filters.CatalogFallback` | photobooth-main/vite-project/src/components/PhotoStudio.jsx:118-153 | of the ten catalogue names, exactly "Soft Glow" and "Rose Gold" are drawn with `"none"` |
| `Filters.NoirStyle` | photobooth-main/vite-project/src/components/PhotoStudio.jsx:120-122 | "Noir" is drawn with `grayscale(1) contrast(0.8) brightness(1.1)` and has class `"noir"` |
| `Capture.ShotsCount` | photobooth-main/vite-project/src/components/PhotoStudio.jsx:176-186 | after `n` passes the list holds exactly one photo per ready pass, so at most `n` |
| `Capture.ShotsNoneReady` | photobooth-main/vite-project/src/components/PhotoStudio.jsx:110-111 | if no pass sees a ready video, the list stays empty |
| `Capture.ShotsAllReady` | photobooth-main/vite-project/src/components/PhotoStudio.jsx:176-186 | if every pass sees a ready video, there are exactly `n` photos and photo `i` holds pass `i`'s frame |
| `Capture.ShotsFilter` | photobooth-main/vite-project/src/components/PhotoStudio.jsx:159-162 | every photo is tagged with the session's filter name and drawn through that name's canvas filter |
| `Capture.ShotsGrowAtEnd` | photobooth-main/vite-project/src/components/PhotoStudio.jsx:159-162 | the list only grows at its end: earlier photos keep their place |
| `Countdown.Pass` | photobooth-main/vite-project/src/components/PhotoStudio.jsx:177-185 | one pass is fifteen events: four countdown steps, the capture, the clear, the pause |
| `Countdown.SessionLength` | photobooth-main/vite-project/src/components/PhotoStudio.jsx:176-186 | `n` passes leave exactly `15 * n` events |
| `Countdown.SessionAt` | photobooth-main/vite-project/src/components/PhotoStudio.jsx:176-186 | event `j` of pass `i` sits at position `15 * i + j` |
| `Countdown.SessionEvent` | photobooth-main/vite-project/src/components/PhotoStudio.jsx:176-186 | every event equals the event at the same offset of a pass |
| `Countdown.CaptureOffsets` | photobooth-main/vite-project/src/components/PhotoStudio.jsx:177-181 | an event is a capture exactly when it sits at offset 12 of its pass, so each pass captures once |
| `Countdown.CaptureInContext` | photobooth-main/vite-project/src/components/PhotoStudio.jsx:177-185 | each capture comes right after "3..", "2..", "1..", "Smile!" (each a frame and 1000 ms). It is followed by the countdown cleared and a pause of 800 ms if the count is over 3, else 500 ms |
| `Strip.Cells` | photobooth-main/vite-project/src/components/PhotoStudio.jsx:292-300 | one cell per photo, in list order, with the photo's image and its filter class |
| `Strip.Compose` | photobooth-main/vite-project/src/components/PhotoStudio.jsx:289-322 | the grid is used if and only if the count is 6. Both layouts show every photo in list order with its image and filter class |
| `Studio.PhotoStudio.constructor` | photobooth-main/vite-project/src/components/PhotoStudio.jsx:25-33 | the hooks' initial values. Filter "90s", no photos, count 3, count selection shown |
| `Studio.PhotoStudio.SelectPhotoCount` | photobooth-main/vite-project/src/components/PhotoStudio.jsx:63-67 | stores the count and swaps the count selection for the studio, leaving exactly one screen shown |
| `Studio.PhotoStudio.ChangeCount` | photobooth-main/vite-project/src/components/PhotoStudio.jsx:236-239 | from the studio, goes back to the count selection |
| `Studio.PhotoStudio.SelectFilter` | photobooth-main/vite-project/src/components/PhotoStudio.jsx:261 | sets the selected filter |
| `Studio.PhotoStudio.TakePhoto` | photobooth-main/vite-project/src/components/PhotoStudio.jsx:109-163 | with no video or `readyState < 2`, the list is unchanged. Otherwise exactly one photo is appended at the end, tagged with the selected filter and drawn through its canvas filter. Either way a capture event is logged |
| `Studio.PhotoStudio.CountdownStep` | photobooth-main/vite-project/src/components/PhotoStudio.jsx:165-169 | shows the label, then logs one animation frame and a 1000 ms delay |
| `Studio.PhotoStudio.ShootPass` | photobooth-main/vite-project/src/components/PhotoStudio.jsx:177-185 | one loop pass logs exactly one `Pass`, clears the countdown, and appends at most the one photo of `takePhoto` |
| `Studio.PhotoStudio.StartPhotoSequence` | photobooth-main/vite-project/src/components/PhotoStudio.jsx:171-190 | the list is emptied first, then `selectedPhotoCount` passes run (none if it is not positive). The list ends as the photos of the ready passes, in order, at most the count. The log grows by exactly that many passes. On exit it is no longer capturing and the result is shown |
| `Studio.PhotoStudio.HandleReshoot` | photobooth-main/vite-project/src/components/PhotoStudio.jsx:192-197 | empties the list and hides the result, keeping count and filter; from the result screen it lands on the studio |
| `Studio.NoirSession` | photobooth-main/vite-project/src/components/PhotoStudio.jsx:171-190 | a 3-photo "Noir" session on an always-ready camera. The result is a vertical strip of three cells in pass order, each with the grayscale-drawn frame and class "noir" |

## Left out

- JSX rendering, the count-selection screen's markup, framer-motion animations and the slide-in variants: presentation only.
- Actual frame capture (canvas creation, `ctx.filter`, `drawImage`, `toDataURL`): browser graphics. The image is the opaque token `Rendered(frame, canvasFilter)`.
- Real timing (`delay`, `setTimeout`, `requestAnimationFrame`): asynchronous scheduling. Each awaited step is a `log` event instead.
- `handleDownload` and `html2canvas`: a foreign library call and a DOM lookup.
- The date caption (`toLocaleDateString("en-IN", …)`): it depends on the locale library and the clock. `Strip.Composition` has no caption.
- The strip frame's `count-N` class and each image's `snap-idx` alt text: markup strings with no logic.
- React's batching of state updates and stale closures: every setter is an immediate assignment. The filter bar and the capture button are disabled during a sequence, but the studio's "Change" link is not (see the next line).
- Studio.PhotoStudio.StartPhotoSequence: the whole sequence is one atomic method call, so no other handler can run between its passes. In the code the "Change" link (`PhotoStudio.jsx:236-239`) has no `disabled={isCapturing}` and stays live while the sequence runs. The model does not capture what that allows: a click on "Change" mid-sequence unmounts the webcam, so the later passes find no video and add no photo; a new count picked then (`handlePhotoCountSelect`) differs from the count the running loop read when it started (lines 176 and 184), so the list can hold more photos than the newly selected count; and the sequence can end with the count selection and the result both flagged as shown.
- Filters.ToLower: lower-cases only the ASCII letters A-Z and keeps the length. `toLowerCase` also maps other Unicode letters (the Kelvin sign to `k`, for one) and can change the length (`"İ"` becomes two characters). No catalogue name or switch literal contains such a character.
- The body of the loop in `startPhotoSequence` is its own method, `ShootPass`, to keep each proof small. The source has no such function.
