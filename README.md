# GlobalWell AI — a Dafny model of the wellness app's core

GlobalWell AI is a single-page Streamlit app (`app.py`). A user fills in a
profile and a goal, the app asks a generative-language service for a wellness
plan, shows the plan split into sections, offers it as a PDF, answers
questions about it, fetches local produce tips, and runs a few sidebar and tab
tools: ambient noise, a chime, a Pomodoro timer, a gratitude journal, a daily
tip, a fact of the day, a hydration reminder and a quiz.

This project models the logic behind those features and proves what it
promises:

- `wrappers.dfy` — `Option`.
- `text.dfy` (module `Text`) — the string primitives the code relies on:
  `sanitize_input` (marker removal, then Python's `str.strip` with the full
  Unicode whitespace set), `str.replace`, `str.split('\n')` (with `'\n'.join` to state its
  round-trips), decimal rendering, `padStart(2, '0')`, and Python's string ordering.
- `prompts.dfy` (module `Prompts`) — the user profile as read from the
  widgets, and the three prompts (plan, local info, chat) written out
  character for character as a concatenation of parts.
- `plan_doc.dfy` (module `PlanDoc`) — the section split `re.split(r'\n(?=## )', plan)`
  and the PDF story list built by `generate_plan_pdf`.
- `widgets.dfy` (module `Widgets`) — the noise selectbox index, tip and fact of
  the day, the hydration interval, the quiz check, and the gratitude-history
  listing.
- `session.dfy` (module `Session`) — `st.session_state` as a class `Store`
  holding a map from the eleven session keys to typed values, with one method
  per user action. `TwoPlansInARow` is a small client that generates two plans
  in a row and asserts that the second wipes the chat and the local info.
- `pomodoro.dfy` (module `Pomodoro`) — the browser timer's `tick` rule as a
  class `Timer` whose new state is proved to be `Step` of the old one.

The outside world enters as parameters: the language service's reply is an
`Option<string>` (`None` when the call raised), the clock is an integer number
of seconds (milliseconds for the timer), and loading an audio file gives
`Option<string>` (`None` when the read failed).

Four behaviours of the code a reader might not expect, all modelled as written:

- Only the health, goal and reason inputs pass through `sanitize_input`.
  Country, state and region are used as typed.
- A failed local-info request stores `None` over any earlier local info.
  It does not keep the old value.
- An empty reply (`""`) to the plan request counts as no plan, exactly like a
  failed call.
- The PDF clean-up removes `###` before `**`, so a `**` inside a run of `#`
  can leave `###` in the PDF text: `"#**##"` cleans to `"###"`
  (`PlanDoc.CleanPlanCanLeaveHashes`).

## Model

| member | source | states |
|---|---|---|
| Text.RemoveMarkers | app.py:33 | the result has no backslash, `*` or `_`; every other character occurs as often as in the input; marker-free text is unchanged |
| Text.RemoveMarkersChar | app.py:33 | one character is deleted when it is a marker and kept otherwise |
| Text.RemoveMarkersAppend | app.py:33 | deleting markers from a concatenation concatenates the results, so with the one-character case the kept characters stay in their order |
| Text.TrimLeft | app.py:33 | the result is a suffix of the input, everything cut off is whitespace, and it does not start with whitespace |
| Text.TrimRight | app.py:33 | the result is a prefix of the input, everything cut off is whitespace, and it does not end with whitespace |
| Text.Strip | app.py:33 | the result is a slice of the input with only whitespace removed at each end and no whitespace left at either end |
| Text.StripEmpty | app.py:589 | stripping leaves nothing exactly when the text is all whitespace |
| Text.Sanitize | app.py:30-33 | empty input gives empty output; the output contains no markers, has no surrounding whitespace and is no longer than the input |
| Text.SanitizeIdempotent | app.py:30-33 | sanitizing an already sanitized text changes nothing |
| Text.Replace | app.py:42 | a text without the pattern comes back unchanged |
| Text.ReplaceFirst | app.py:42 | the leftmost occurrence of the pattern becomes the replacement, the text before it is kept, and the scan goes on after it without overlap |
| Text.SplitLines | app.py:43 | splitting on newline gives at least one piece and no piece contains a newline |
| Text.JoinSplitLines | app.py:43 | joining the pieces with newline gives back the original text |
| Text.NatToString | app.py:75 | the age is rendered with decimal digits only, without a leading zero, one digit exactly below 10, at most two below 100 |
| Text.ParseNatToString | app.py:75 | reading the rendered number back gives the number |
| Text.Pad2 | app.py:541-542 | digits only, at least two of them, exactly two for values below 100, and no leading zero from 10 on |
| Text.ParsePad2 | app.py:541-542 | reading the padded number back gives the number |
| Text.LessTransitive | app.py:586 | Python's string order is transitive |
| Text.LessTotal | app.py:586 | of two different strings one is smaller |
| Text.LessAsymmetric | app.py:586 | no two strings are each smaller than the other |
| Prompts.ReadProfile | app.py:431-445 | health, goal and reason are sanitized (no markers, no surrounding whitespace, empty stays empty); the other fields are taken as given |
| Prompts.PlanPromptEmbedsProfile | app.py:62-78 | the plan prompt contains the region, state, country, age, gender, diet, activity and goal |
| Prompts.PlanPromptHealth | app.py:76 | the plan prompt names the health conditions, or "None" when none were given |
| Prompts.PlanPromptReason | app.py:77 | the plan prompt names the reason, or "Not specified" when none was given |
| Prompts.Location | app.py:608 | the location is the region, then a comma and a space, then the country |
| Prompts.LocalInfoPromptEmbedsLocation | app.py:81-87 | the local-info prompt contains the location in bold |
| Prompts.ChatPromptEmbeds | app.py:638 | the chat prompt contains the whole plan and the question |
| PlanDoc.FirstBreak | app.py:471 | the first position at or after `from` where a newline is followed by `## `, or the end of the text |
| PlanDoc.SectionsJoin | app.py:471 | joining the sections with newline gives back the plan |
| PlanDoc.SectionsStartWithHeading | app.py:471 | every section after the first starts with `## ` |
| PlanDoc.SectionsHaveNoBreak | app.py:471 | no section contains a newline followed by `## ` |
| PlanDoc.SectionsUnique | app.py:471 | any split with these three properties is the computed one |
| PlanDoc.BuildStory | app.py:36-47 | the story is the title, a 1×24 spacer, then one block per line of the cleaned plan: a heading with every `## ` removed when the line starts with `## `, otherwise the line as body text |
| PlanDoc.CleanPlanHasNoBold | app.py:42 | after the clean-up the text contains no `**` |
| PlanDoc.CleanPlanCanLeaveHashes | app.py:42 | the clean-up can leave `###` behind: `"#**##"` becomes `"###"` |
| PlanDoc.HeadingText | app.py:44-45 | a heading's text drops the leading `## ` and every later `## `; without a second one the rest of the line is kept as is |
| Widgets.IndexOf | app.py:201 | the first position holding the value |
| Widgets.NoiseIndex | app.py:201 | the index is valid; it points at the stored choice when that is an option, else it is 0 |
| Widgets.TipIndex | app.py:421 | the tip index is within the list |
| Widgets.TipOfTheDay | app.py:420-421 | the tip is one of the five tips and is not empty, so it is stored as truthy |
| Widgets.FactIndex | app.py:601 | the fact index is within the list |
| Widgets.FactOfTheDay | app.py:601-602 | the fact is one of the five facts |
| Widgets.FactIndexOfDay | app.py:601 | throughout day `d` since the epoch the fact index is `d mod 5` |
| Widgets.FactStableWithinDay | app.py:601 | two instants of the same day show the same fact |
| Widgets.FactNextDay | app.py:601 | one day later the next fact is shown, wrapping after the last |
| Widgets.CheckAnswer | app.py:619-626 | no pick gives the "pick an option" verdict, the consistent wake-up time is correct, everything else is wrong, each in both directions |
| Widgets.ExactlyOneCorrectOption | app.py:617-622 | of the four options exactly the second is judged correct |
| Widgets.NumberNonBlank | app.py:588-590 | only non-blank items are listed, each with its original 1-based number, and no more items than were saved |
| Widgets.NumberNonBlankIncreasing | app.py:588 | the listed numbers increase strictly |
| Widgets.NumberNonBlankComplete | app.py:588-590 | every non-blank item is listed under its original number |
| Widgets.LatestExists | app.py:586 | a non-empty set of dates has a latest one |
| Widgets.SortedDescending | app.py:586 | the result holds every date exactly once, latest first |
| Widgets.HistoryOf | app.py:586-590 | one entry per date in the given order, each with that date's non-blank items numbered from 1 |
| Widgets.GratitudeHistory | app.py:584-590 | one entry per saved date, every date present, latest first, each with its non-blank items numbered from 1 |
| Session.EveryKeyHasDefault | app.py:165-177 | every session key has a default |
| Session.Default | app.py:165-177 | each default has the kind its key calls for |
| Session.SaveGratitudeUpsert | app.py:582 | saving a day sets that day, keeps every other day, and saving the same entries again changes nothing |
| Session.Store.constructor | app.py:178 | a new session holds nothing |
| Session.Store.FillDefaults | app.py:178-180 | afterwards every key is present; keys already stored keep their values and the missing ones get their defaults |
| Session.Store.GeneratePlan | app.py:451-461 | an empty goal changes nothing and sends nothing; otherwise the plan prompt is sent; a non-empty reply becomes the plan, clears the chat and the local info, and touches nothing else; an empty or missing reply changes nothing |
| Session.Store.AskQuestion | app.py:629-640 | with a plan and a non-empty question, the question and then the answer (possibly none) are appended to the chat and the chat prompt is sent; otherwise nothing changes |
| Session.Store.FetchLocalInfo | app.py:606-610 | the local-info prompt for "region, country" is sent and the reply, even a missing one, replaces the local info; nothing else changes |
| Session.Store.SaveGratitude | app.py:581-582 | today's three entries replace any earlier ones for today; nothing else changes |
| Session.Store.SelectNoise | app.py:201-202 | the stored choice becomes the picked option, or the option the box opened at; it is always one of the options |
| Session.Store.NoiseButtons | app.py:214-224 | noise plays exactly when stop was not pressed and either start loaded the track or it was already playing; the audio changes only on a successful start; other keys are untouched |
| Session.Store.ChimeButtons | app.py:245-248 | the chime plays exactly when stop was not pressed and start was pressed or it was playing; other keys are untouched |
| Session.Store.ChooseDailyTip | app.py:420-421 | a stored tip is kept; otherwise the tip of the day is stored; afterwards a tip is present |
| Session.Store.CheckHydration | app.py:481-483 | the reminder fires exactly when more than two hours have passed, and then the last-reminder time becomes now; otherwise nothing changes |
| Pomodoro.Remaining | app.py:540 | the remaining whole seconds: zero once the end is past, else the floor of the milliseconds left over 1000 |
| Pomodoro.ClockReadsBack | app.py:541-542 | the seconds field has two digits below 60, the minutes field at least two, and minutes × 60 + seconds is the remaining time |
| Pomodoro.StepEndsOnePhase | app.py:544-559 | a tick with time left changes nothing; a tick at expiry ends exactly one phase, work turning into a break of the break length |
| Pomodoro.PhasesLeftZero | app.py:550-555 | only a completed timer has no phase left; a fresh timer of `n` rounds has `2n` phases left |
| Pomodoro.Timer.Start | app.py:498-508 | the durations are the minutes in milliseconds and the timer runs a work phase ending one work length from now |
| Pomodoro.Timer.Tick | app.py:538-560 | the new state is `Step` of the old one and the timer line is `Display` of the old state |

## Left out

- Installing packages and restarting the app (app.py:4-15) are deployment steps, not logic.
- The language-service client (app.py:53-59) and the loading of its API key (app.py:124-130) are left out. The reply is a parameter of each action, and the error banner shown on a failure is not modelled.
- CSS, HTML cards, markdown rendering, spinners, toasts, balloons, the disclaimer and the download button are display only.
- Reading and base64-encoding the audio files (app.py:189-212) are file I/O. Their outcome is the `loaded` parameter of `NoiseButtons`.
- The HTML audio player (app.py:226-235) is display only and is not modelled.
- The chime's Web Audio script (app.py:250 onwards) is left out. `chime_duration_sec` is stored with its default but read only by that script.
- The ReportLab page layout, fonts and styles are left out. Paragraph markup is kept as plain block text (`PlanDoc.Block`).
- The timer's confetti, the breathing orb's CSS class and the `setInterval` scheduling are display and browser timing only.
- Widget mechanics are left out: text inputs, sliders, radios, number inputs and tabs. Their values are parameters. The slider's age range 1-100 and the number-input ranges are not enforced by the model.
- `TimerText` renders the timer line; no property beyond its definition is proved.
- Session.Store.CheckHydration, Pomodoro.Timer.Tick: the source reads the clock twice in one step; the model uses one reading for both.
- Session.Store.CheckHydration, Widgets.TipOfTheDay: `time.time()` is a float; the model uses whole seconds, which agrees with `int(time.time())` for the tip.
- Widgets.SortedDescending, Widgets.GratitudeHistory: these are ghost functions, defined by picking the latest date, not an executable sort.
- Widgets.GratitudeHistory: the markdown lines it would print (the bold date, then "- i. item") are not modelled, only their content and order.
- Calendar dates (`datetime.date.today()`) are left out. The day key is a parameter, compared as a string, as Python does.
