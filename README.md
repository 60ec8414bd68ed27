# Resume-matching landing page: the logic behind the components

This project models, in Dafny, the small amount of behaviour in the landing page of a
resume-to-job-matching demo site, and proves properties of it:

- **Resume intake** (`ResumeUploader`, file `resume_uploader.dfy`). When a file is submitted, the widget
  clears the error and success flags. It then checks the declared MIME type against three allowed strings,
  and only if that passes checks the byte size against 5 × 1024 × 1024. On failure it records the matching
  message. On success it holds the file, marks it as uploading and schedules a completion step. That step
  later marks the upload as finished and calls `onUploadComplete` with the file. Reset empties the slot.
  The drag handlers toggle a flag, and drop and picker selection both submit only the first file.
  The component is the class `Uploader`. Each of its methods is tied to a transition function on the
  snapshot datatype `Intake`. The lemmas about those functions cover single calls and whole event sequences.
  Scheduled completion steps sit in a queue (`pending`) in firing order. The calls made to the callback are
  logged in `notified`.
- **Score tiers** (`JobMatch`, `CourseCard`). These cover the match-percentage colour, the course relevance
  colour, the five-star rating row (full, half and empty stars over an exact `real` rating) and the skill
  chips: every chip on a job card, and the first three plus a "+N" badge on a course card.
- **Lookup tables** (`SkillGauge`). The colour and size props map to classes, with fallbacks. The component's
  default props apply, and the bar's target width is `${percentage}%`.
- **Header flags** (`Header`). The "scrolled" flag uses a strict threshold at 10 pixels. The mobile menu
  toggle also writes `document.body.style.overflow`. The menu's link and button handlers close the menu but
  leave the body's overflow alone. A lemma exhibits that gap: after opening the menu and tapping a link, the
  menu is closed and the page is still locked.
- Two helper modules: `NumberText`, which writes integers the way template strings and JSX text print them and parses
  them back, and `SkillChips`, which renders skill chips the way `skills.map((skill, idx) => …)` does.

Two behaviours of the code that the model keeps as written:

- A rejected submission does **not** clear the file slot. A previously accepted file stays held, and so does
  its `uploading` flag (`RejectionKeepsHeldFile`).
- Nothing cancels a scheduled completion step. A reset or a newer submission does not stop an earlier step
  from firing, setting `uploadSuccess` and calling the callback with the file it was scheduled for
  (`ResetDoesNotCancel`).

## Model

| member | source | states |
|---|---|---|
| ResumeUploader.Validate | src/components/ResumeUploader.tsx:41-52 | a size rejection only ever follows a passed type check, and acceptance means an allowed type within the limit; ValidateOrder states all three outcomes |
| ResumeUploader.Submit | src/components/ResumeUploader.tsx:36-65 | `processFile` on the snapshot: it never touches dragging or the callback log, and it either keeps the held file and queue or holds f and queues f; SubmitRejectsType, SubmitSizeLimit, SubmitClearsFirst and SubmitAccepts state the rest |
| ResumeUploader.Fire | src/components/ResumeUploader.tsx:58-64 | the timer body keeps the file, the error and dragging, removes one queued step and sets success when one was queued, and reports at most one file; FireCompletes says which |
| ResumeUploader.Clear | src/components/ResumeUploader.tsx:87-94 | `resetUpload`: file, error and success cleared, while uploading, the queue and the callback log are kept; ClearEmpties adds idempotence |
| ResumeUploader.Drag | src/components/ResumeUploader.tsx:19-29 | sets the dragging flag to the given value and changes nothing else |
| ResumeUploader.DropFiles | src/components/ResumeUploader.tsx:67-75 | `handleDrop` always ends dragging and does nothing else when no file was dropped; FirstFileOnly states the first-file rule |
| ResumeUploader.SelectFiles | src/components/ResumeUploader.tsx:77-81 | `handleFileSelect` keeps the dragging flag and does nothing when no file was chosen; FirstFileOnly states the first-file rule |
| ResumeUploader.ValidateOrder | src/components/ResumeUploader.tsx:41-52 | the type check decides first; the size error arises exactly for an allowed type over the limit; acceptance exactly for an allowed type within it |
| ResumeUploader.Message | src/components/ResumeUploader.tsx:44-50 | each rejection has a non-empty message text |
| ResumeUploader.SubmitShowsMessage | src/components/ResumeUploader.tsx:43-52 | an unlisted type shows "Please upload a PDF or Word document.", an allowed type over the limit shows "File size should be less than 5MB.", the two texts differ, and no message exactly for an accepted file |
| ResumeUploader.SubmitRejectsType | src/components/ResumeUploader.tsx:42-46 | an unlisted MIME type gets the type error, and the held file, the uploading flag and the scheduled steps are unchanged |
| ResumeUploader.SubmitTypeBeforeSize | src/components/ResumeUploader.tsx:43-52 | for an unlisted type the outcome is the same whatever the file's size |
| ResumeUploader.SubmitSizeLimit | src/components/ResumeUploader.tsx:49-52 | with an allowed type, the size error arises iff size > 5242880; 5242880 bytes and 0 bytes are accepted |
| ResumeUploader.SubmitClearsFirst | src/components/ResumeUploader.tsx:38-39 | after any submission the success flag is false and the error is exactly the validation outcome, whatever they were before |
| ResumeUploader.SubmitAccepts | src/components/ResumeUploader.tsx:54-58 | an accepted file is held, uploading is true, the error is null, and one completion step for that file is queued |
| ResumeUploader.FireCompletes | src/components/ResumeUploader.tsx:58-64 | the completion step clears uploading, sets success, and calls the callback once with its own file when a callback exists; the file slot and error are untouched |
| ResumeUploader.ClearEmpties | src/components/ResumeUploader.tsx:87-94 | reset empties the slot, the success flag and the error, leaves uploading and the queued steps alone, and is idempotent |
| ResumeUploader.DragFlags | src/components/ResumeUploader.tsx:19-29 | drag enter sets the dragging flag, drag leave clears it, and nothing else changes |
| ResumeUploader.FirstFileOnly | src/components/ResumeUploader.tsx:67-81 | drop always clears dragging; drop and select submit only the first file and do nothing else on an empty list |
| ResumeUploader.StepHoldsOnlyAccepted | src/components/ResumeUploader.tsx:36-94 | every event keeps the invariant that the held, queued and reported files all passed validation |
| ResumeUploader.RunHoldsOnlyAccepted | src/components/ResumeUploader.tsx:36-94 | the same invariant holds after any sequence of events |
| ResumeUploader.SessionHoldsOnlyAccepted | src/components/ResumeUploader.tsx:11-94 | from a fresh widget, every session only ever holds, schedules and reports accepted files |
| ResumeUploader.StepAccounting | src/components/ResumeUploader.tsx:54-81 | one event appends to "reported, then still queued" exactly the file it accepted, if any |
| ResumeUploader.SubmitAccounting | src/components/ResumeUploader.tsx:54-64 | a submission appends to "reported, then still queued" exactly the first file, when it is accepted |
| ResumeUploader.CallbackOncePerAcceptedFile | src/components/ResumeUploader.tsx:54-64 | with a callback, "reported, then still queued" grows by exactly the accepted files, in submission order, so each is reported once |
| ResumeUploader.NoCallbackNoReports | src/components/ResumeUploader.tsx:61-63 | without a callback nothing is ever reported |
| ResumeUploader.AllTimersFire | src/components/ResumeUploader.tsx:58-64 | once every queued step has fired, nothing is queued and each queued file was reported in turn |
| ResumeUploader.AcceptedPdfScenario | src/components/ResumeUploader.tsx:36-79 | a 1024-byte PDF is held and uploading; after the step fires it is complete and the callback got it |
| ResumeUploader.RejectedScenarios | src/components/ResumeUploader.tsx:43-52 | a PNG gets the type error; a 6291456-byte PDF gets the size error and is not held |
| ResumeUploader.ResetDoesNotCancel | src/components/ResumeUploader.tsx:58-94 | after accept then reset, the queued step still fires: no file held, success shown, callback called |
| ResumeUploader.RejectionKeepsHeldFile | src/components/ResumeUploader.tsx:43-55 | a rejected submission after an accepted one leaves that file held and still uploading |
| ResumeUploader.Uploader.constructor | src/components/ResumeUploader.tsx:12-16 | the widget starts not dragging, with no file, no flags, no error and nothing queued |
| ResumeUploader.Uploader.ProcessFile | src/components/ResumeUploader.tsx:36-65 | clears success; the error is the validation outcome; the file and uploading change only on acceptance; the whole new state is Submit of the old |
| ResumeUploader.Uploader.Complete | src/components/ResumeUploader.tsx:58-64 | runs the oldest queued step, returning the file passed to the callback; the new state is Fire of the old |
| ResumeUploader.Uploader.Reset | src/components/ResumeUploader.tsx:87-94 | file, success and error cleared, uploading kept; the new state is Clear of the old |
| ResumeUploader.Uploader.DragEnter | src/components/ResumeUploader.tsx:19-23 | sets dragging and changes nothing else |
| ResumeUploader.Uploader.DragLeave | src/components/ResumeUploader.tsx:25-29 | clears dragging and changes nothing else |
| ResumeUploader.Uploader.Drop | src/components/ResumeUploader.tsx:67-75 | clears dragging, then processes the first dropped file if there is one |
| ResumeUploader.Uploader.Select | src/components/ResumeUploader.tsx:77-81 | processes the first chosen file if there is one |
| JobMatch.MatchColor | src/components/JobMatch.tsx:25-30 | the result is one of the four tier colours |
| JobMatch.MatchColorTiers | src/components/JobMatch.tsx:26-29 | green iff ≥ 90, primary iff 75..89, amber iff 60..74, gray iff < 60 |
| JobMatch.MatchColorPartition | src/components/JobMatch.tsx:25-30 | exactly one of the four colours applies to any percentage |
| JobMatch.MatchColorMonotone | src/components/JobMatch.tsx:25-30 | a lower percentage never gets a better tier |
| JobMatch.Badge | src/components/JobMatch.tsx:56-60 | the badge has the tier colour, and its text is the percentage's numeral followed by "%" |
| JobMatch.KeySkills | src/components/JobMatch.tsx:84-91 | the chips show exactly the job's skills, in order |
| SkillChips.Chips | src/components/JobMatch.tsx:84-91 | one chip per skill: chip i has key i and shows skill i |
| SkillChips.Labels | src/components/JobMatch.tsx:89 | the visible text of each chip, in rendering order, one per chip |
| SkillChips.ChipsShowEverySkill | src/components/JobMatch.tsx:84-91 | reading the chips' texts back gives the skill list unchanged |
| SkillChips.ChipKeysDistinct | src/components/CourseCard.tsx:109-116 | no two chips share a key |
| CourseCard.RelevanceColor | src/components/CourseCard.tsx:51-55 | the result is one of the three relevance colours |
| CourseCard.RelevanceColorTiers | src/components/CourseCard.tsx:52-54 | green iff ≥ 90, primary iff 70..89, amber iff < 70 |
| CourseCard.RelevanceColorMonotone | src/components/CourseCard.tsx:51-55 | a lower score never gets a better colour |
| CourseCard.StarKindOf | src/components/CourseCard.tsx:34-38 | a full star never lies above the rating, a half star lies within half a point above it, and an empty star lies more than half a point above; StarRule states the rule itself |
| CourseCard.Stars | src/components/CourseCard.tsx:29-38 | exactly five stars, each no better than the one before it; StarsShape and StarCounts give the exact row |
| CourseCard.StarRule | src/components/CourseCard.tsx:34-38 | star i is full iff i ≤ floor(rating), half iff not full and i ≤ rating + 0.5, empty otherwise |
| CourseCard.StarsShape | src/components/CourseCard.tsx:29-38 | the five stars are the full ones, then at most one half star, then the empty ones |
| CourseCard.StarCounts | src/components/CourseCard.tsx:29-38 | five stars; full count min(5, floor(rating)) for rating ≥ 0; at most one half; the three counts total 5 |
| CourseCard.StarsMonotone | src/components/CourseCard.tsx:34-38 | a higher rating never makes any star worse |
| CourseCard.ShownSkills | src/components/CourseCard.tsx:109 | the shown skills are a prefix of the list of length min(3, count) |
| CourseCard.OverflowCount | src/components/CourseCard.tsx:117-121 | the "+N" badge is present iff there are more than 3 skills |
| CourseCard.OverflowText | src/components/CourseCard.tsx:117-121 | the badge text exists iff there are more than 3 skills, and is "+" followed by the numeral of count − 3 |
| CourseCard.SkillSummary | src/components/CourseCard.tsx:109-121 | N = count − 3, shown chips plus N equal the count, and the chips show the shown skills in order |
| SkillGauge.ColorClass | src/components/SkillGauge.tsx:25-38 | the class is always one of the table's eight classes |
| SkillGauge.SizeClass | src/components/SkillGauge.tsx:41-49 | the class is always one of the table's three heights |
| SkillGauge.KnownColors | src/components/SkillGauge.tsx:26-35 | each of the eight colour keys maps to its listed class |
| SkillGauge.ColorLookup | src/components/SkillGauge.tsx:37 | a known key gets its table entry; any other key falls back to bg-primary |
| SkillGauge.ColorFallbackExactly | src/components/SkillGauge.tsx:26-37 | bg-primary results iff the key is "primary" or unknown |
| SkillGauge.SizeLookup | src/components/SkillGauge.tsx:41-48 | sm, md and lg map to h-1.5, h-2 and h-3; any other size falls back to h-2 |
| SkillGauge.Render | src/components/SkillGauge.tsx:14-85 | the track and bar classes come from the lookups, the label row appears iff showLabel, and the target width is the percentage's numeral followed by "%" |
| SkillGauge.DefaultProps | src/components/SkillGauge.tsx:17-19 | with color and size left out, the bar is bg-primary, the track h-2, and the label is shown |
| SkillGauge.WidthDeterminesPercentage | src/components/SkillGauge.tsx:53 | two gauges have the same target width iff their percentages are equal |
| NumberText.IntText | src/components/SkillGauge.tsx:53 | a canonical numeral: a minus sign exactly for negative integers, then one or more digits with no leading zero; IntTextRoundTrip shows it denotes the integer |
| NumberText.PercentText | src/components/SkillGauge.tsx:53 | the text ends in "%" after a non-empty numeral; PercentTextRoundTrip reads the numeral back |
| NumberText.ParseInt | src/components/SkillGauge.tsx:53 | a parsed value is negative only after a leading minus, and otherwise the text is all digits; the reference reading that the round-trip lemmas use |
| NumberText.IntTextRoundTrip | src/components/SkillGauge.tsx:53 | parsing the printed numeral of an integer gives the integer back |
| NumberText.IntTextInjective | src/components/JobMatch.tsx:60 | different integers print differently |
| NumberText.PercentTextRoundTrip | src/components/SkillGauge.tsx:72 | the text before the "%" parses to the percentage |
| Header.Scrolled | src/components/Header.tsx:12-14 | `handleScroll`: scrolled iff scrollY > 10, with the menu flag and the body's overflow unchanged |
| Header.Toggled | src/components/Header.tsx:20-27 | `toggleMobileMenu`: flips the menu flag, keeps the scrolled flag, and leaves the body hidden iff the menu is open; ToggleSetsOverflow gives the two assignments |
| Header.LinkClicked | src/components/Header.tsx:88 | the mobile link and button handler closes the menu and keeps the scrolled flag and the body's overflow |
| Header.DocumentBody.constructor | src/components/Header.tsx:22-26 | the body's inline overflow is unset until `toggleMobileMenu` first writes it |
| Header.ScrollThresholdStrict | src/components/Header.tsx:12-14 | scrolled iff scrollY > 10, so 10 is not scrolled; menu and body untouched |
| Header.ToggleFlips | src/components/Header.tsx:20-21 | toggling flips the menu flag, and toggling twice restores it |
| Header.ToggleSetsOverflow | src/components/Header.tsx:22-26 | toggling from closed sets hidden, from open sets auto; afterwards hidden iff open |
| Header.LinkClickKeepsOverflow | src/components/Header.tsx:88 | a menu link click closes the menu and leaves the body's overflow as it was |
| Header.LinkClickBreaksOverflow | src/components/Header.tsx:85-112 | closing an open menu by a link leaves the body hidden with the menu closed, breaking the relation |
| Header.LinkClickLeavesPageLocked | src/components/Header.tsx:20-109 | from the initial header, toggle then link click ends closed with the body still hidden |
| Header.NoLinkClicksKeepOverflow | src/components/Header.tsx:12-26 | any sequence of scroll and toggle events keeps "hidden iff open" |
| Header.LinkClickOnClosedMenu | src/components/Header.tsx:109 | a link click on a closed menu changes nothing |
| Header.HeaderComponent.constructor | src/components/Header.tsx:8-9 | the header starts not scrolled and with the menu closed |
| Header.HeaderComponent.HandleScroll | src/components/Header.tsx:12-14 | sets the scrolled flag to scrollY > 10 and changes nothing else |
| Header.HeaderComponent.ToggleMobileMenu | src/components/Header.tsx:20-27 | flips the menu flag and sets the body to hidden (was closed) or auto (was open) |
| Header.HeaderComponent.CloseMobileMenu | src/components/Header.tsx:85-112 | closes the menu and changes nothing else, the body's overflow included |

## Left out

- All JSX markup, class composition through `cn`, framer-motion animations and the staggered `index * 0.1` delays: these are presentation only.
- `src/pages/Index.tsx`, `src/components/Hero.tsx` and `src/components/Footer.tsx` are not part of this model. They are page composition over hard-coded mock data.
- The real timers (2000 ms in the uploader, 1500 ms in the gauge). Completion is the explicit `Complete` event. Steps fire in the order they were scheduled, because all of them use the same delay.
- `(file.size / 1024).toFixed(1)` and `rating.toFixed(1)`: floating-point display formatting.
- DOM effects: the `fileInputRef` click and its value reset in `resetUpload`, `triggerFileInput`, registering and removing the window scroll listener, and the gauge's `useEffect` (animation start and the `shadow-glow` class timer). `handleDragOver` only stops the browser default and changes no state.
- The browser `File` object is reduced to its type, size and name; no contents are read.
- ResumeUploader.Uploader.Select: a `null` file list is treated like an empty one. Both leave the state unchanged.
- ResumeUploader.Uploader.constructor: the `onUploadComplete` prop is fixed for the component's lifetime (`hasCallback`). A callback prop that changes between renders is not modelled.
- Every read of state inside a handler sees the value from the render, as React's batched updates give. The only handler that reads state after setting it is `toggleMobileMenu` (src/components/Header.tsx:21-22); the model keeps the earlier value in `wasOpen` before flipping the flag. Every other handler only writes, so applying its updates in order gives the same final state.
- JobMatch.MatchColor: percentages are integers, so fractional and NaN values are not modelled. The same holds for CourseCard.RelevanceColor and the gauge's percentage.
- NumberText.IntText: JavaScript writes numbers of 10^21 and beyond in exponent notation; the model always writes plain digits.
- SkillGauge.ColorClass: keys inherited from `Object.prototype` (such as `toString`) are not modelled. In JavaScript they return a truthy inherited member instead of the fallback. SkillGauge.SizeClass leaves them out the same way.
- CourseCard.StarKindOf: the rating is an exact real. Rounding in the double sum `rating + 0.5` is not modelled: in JavaScript 0.49999999999999994 + 0.5 is exactly 1, so star 1 would be half, while the model keeps it empty. A `NaN` rating, which shows five empty stars, cannot be represented either.
- ResumeUploader.Submit: the page renders the drop zone and the file input only while no file is held (src/components/ResumeUploader.tsx:105-159). A second submission while a file is held therefore cannot come from the page's own controls. The model allows that submission, which is a sound over-approximation.
- The file-held panel's reset button renders `<X …/>` (src/components/ResumeUploader.tsx:209), but `X` is not among the icons imported on line 3. Read as written, that panel would fail with a ReferenceError when rendered. This is markup and is not modelled.
