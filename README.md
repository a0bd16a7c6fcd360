# Portfolio site interaction logic, modelled in Dafny

The portfolio site is a single page of animated sections. A few of its
components hold small state machines and classification rules, and this
project models them and proves what they promise:

- **Direction-aware hover overlay** (`hover.dfy`, module `HoverOverlay`): the
  dominant-axis rule that decides which edge a pointer crossed; the card's
  state `{direction, isHovered, isTouched, isMobile}` and its event handlers
  (mouse enter/leave, touch start/end, click, resize); the pending auto-clear
  timers; and the overlay's animation target.
- **Typewriter** (`typewriter.dfy`, module `TypewriterModel`): the per-tick
  machine over `{currentTextIndex, currentText, isDeleting, isPaused}`, its
  invariant (the shown text is a prefix of the current target), and a full
  type–pause–delete–advance cycle with its duration.
- **Start-up loader** (`loader.dfy`, module `LoaderModel`): the stage table,
  the `find` of the next stage, the tick, and the single dismissal request.
- **Projects filter** (`projects.dfy`, module `ProjectsModel`): the project
  list, `String.prototype.includes`, `Array.prototype.filter`, the filter
  selection, and the category cards' counts.
- **Text reveal** (`text_reveal.dfy`, module `TextRevealModel`): the span per
  character with spaces made non-breaking, the visibility flag, and the
  rotating index of the animated variant.
- **Contact form** (`contact.dfy`, module `ContactModel`): the one-field
  update, the submission phases with their timers, the submit button, and the
  floating-label rule.

`common.dfy` holds the `Option` type.

Timers are modelled as explicit firing events. A method such as
`ClearFires`, `Tick` or `ResetFires` is one firing, and the state records
which timers are pending. Pointer coordinates are reals taken as already
relative to the element. The element's size, the viewport width and the
time are parameters.

Three behaviours of the code are worth noting:

- `getOverlayTransform` tests for a missing direction before it tests for
  mobile. So on mobile with no direction yet, the target is the top resting
  position with no opacity, not the fade.
- The touch-end and tap timers are never cleared or replaced. Each one stays
  pending and fires. `HoverOverlay.EarlierClearStillFires` shows an earlier
  timer hiding the overlay while a later one is still pending.
- On mobile, mouse leave keeps the direction it had. Only mouse enter, touch
  start and an activating tap set it to `Top`.

## Model

| member | source | states |
|---|---|---|
| HoverOverlay.Classify | src/components/ui/direction-aware-hover.tsx:56-69 | the result is the wedge between the two diagonals through the centre that holds the point; ties and the exact centre go to the vertical axis (Top/Bottom) |
| HoverOverlay.GetDirection | src/components/ui/direction-aware-hover.tsx:38-54 | never null: a missing element or missing coordinates give Top, otherwise the point's classification |
| HoverOverlay.MirrorHorizontally | src/components/ui/direction-aware-hover.tsx:62-69 | reflecting the point across the vertical centre line swaps Left and Right and keeps Top and Bottom |
| HoverOverlay.MirrorVertically | src/components/ui/direction-aware-hover.tsx:62-69 | reflecting across the horizontal centre line swaps Top and Bottom except at the exact centre, which is Top both ways |
| HoverOverlay.SquareCardExamples | src/components/ui/direction-aware-hover.tsx:56-69 | on a 100 by 100 card, (90,50), (10,50), (50,90), (50,10) and (50,50) give Right, Left, Bottom, Top and Top |
| HoverOverlay.Resting | src/components/ui/direction-aware-hover.tsx:131-136 | the four resting offsets: (0, -100) for Top, (100, 0) for Right, (0, 100) for Bottom, (-100, 0) for Left, given by the signs of x and y and one card size off the card |
| HoverOverlay.OverlayTransform | src/components/ui/direction-aware-hover.tsx:120-139 | checked in order: no direction gives (0%, -100%); mobile gives (0%, 0%) with opacity 1 iff hovered or touched; desktop visible gives (0%, 0%); desktop hidden gives the direction's resting offset |
| HoverOverlay.RestingFacesPointer | src/components/ui/direction-aware-hover.tsx:65-69 | the hidden desktop overlay rests on the pointer's side of the card: its offset never points away from the pointer, and points towards it except at the centre |
| HoverOverlay.DesktopVisibilityIsPosition | src/components/ui/direction-aware-hover.tsx:121-138 | on desktop with a direction, the overlay is on the card exactly when hovered or touched |
| HoverOverlay.HoverCard.constructor | src/components/ui/direction-aware-hover.tsx:20-23 | starts with no direction, not hovered, not touched, not mobile, no pending timers |
| HoverOverlay.HoverCard.CheckMobile | src/components/ui/direction-aware-hover.tsx:28-30 | isMobile becomes exactly viewportWidth <= 1024; nothing else changes |
| HoverOverlay.HoverCard.MouseEnter | src/components/ui/direction-aware-hover.tsx:72-81 | hovered; direction is the entry point's classification on desktop and Top on mobile |
| HoverOverlay.HoverCard.MouseLeave | src/components/ui/direction-aware-hover.tsx:83-90 | not hovered; direction reclassified from the exit point on desktop, unchanged on mobile |
| HoverOverlay.HoverCard.TouchStart | src/components/ui/direction-aware-hover.tsx:93-97 | direction Top and touched, whatever the viewport |
| HoverOverlay.HoverCard.TouchEnd | src/components/ui/direction-aware-hover.tsx:99-104 | adds one pending 3000 ms clear and changes nothing else |
| HoverOverlay.HoverCard.Click | src/components/ui/direction-aware-hover.tsx:107-118 | nothing on desktop; on mobile toggles touched, and only when turning it on sets Top and adds a pending 5000 ms clear |
| HoverOverlay.HoverCard.ClearFires | src/components/ui/direction-aware-hover.tsx:101-103 | a pending clear firing is one of the two delays (3000 or 5000), only sets touched to false and removes itself |
| HoverOverlay.MobileIgnoresPointer | src/components/ui/direction-aware-hover.tsx:72-90 | on mobile, enter then leave leaves direction Top and the target a pure fade |
| HoverOverlay.HoverCard.Target | src/components/ui/direction-aware-hover.tsx:178 | the rendered target: the top resting position before any direction is set, and afterwards fully on the card and not faded out exactly when hovered or touched |
| HoverOverlay.EarlierClearStillFires | src/components/ui/direction-aware-hover.tsx:99-104 | a second touch end does not replace the first timer: after the first fires, one clear is still pending, the card is untouched, and unless hovered the target is the hidden fade |
| TypewriterModel.Step | src/components/ui/typewriter.tsx:31-56 | one timer firing keeps the reachable-state invariant and grows or shrinks the shown text by at most one character, one text being a prefix of the other (each branch in StepSpec) |
| TypewriterModel.Delay | src/components/ui/typewriter.tsx:35-57 | the pending timer waits the pause while paused, else the deleting speed while deleting, else the typing speed |
| TypewriterModel.InitialInv | src/components/ui/typewriter.tsx:23-26 | the mount state is index 0, empty text, not deleting, not paused, and satisfies the invariant |
| TypewriterModel.StepSpec | src/components/ui/typewriter.tsx:28-60 | a tick keeps the invariant: the pause ends into deleting; typing appends exactly the next character or pauses on the complete text; deleting drops the last character or, on empty text, moves to index+1 mod n |
| TypewriterModel.Run | src/components/ui/typewriter.tsx:23-60 | after any number of ticks the index is in range, the text a prefix of its target, and pausing and deleting never both hold |
| TypewriterModel.RunAdd | src/components/ui/typewriter.tsx:28-60 | a+b ticks (and their total delay) are a ticks followed by b ticks |
| TypewriterModel.TypeOut | src/components/ui/typewriter.tsx:41-44 | typing from any prefix reaches the full text after one typing delay per missing character |
| TypewriterModel.EraseAll | src/components/ui/typewriter.tsx:48-51 | deleting empties the text after one deleting delay per character |
| TypewriterModel.Cycle | src/components/ui/typewriter.tsx:28-60 | from the empty start on text i, 2k+3 ticks (k the length of text i) lead to the empty start of text i+1 mod n, taking k+1 typing delays, one pause and k+1 deleting delays |
| TypewriterModel.Typewriter.constructor | src/components/ui/typewriter.tsx:23-26 | mounts in the initial state |
| TypewriterModel.Typewriter.Tick | src/components/ui/typewriter.tsx:28-57 | one timer firing changes the fields as Step says and waited the delay that state scheduled: pause while paused, else deleting or typing speed |
| LoaderModel.FindAbove | src/components/ui/advanced-loader.tsx:24 | find: the first stage whose threshold is strictly above the progress, or none when every threshold is at most the progress |
| LoaderModel.FindAboveStages | src/components/ui/advanced-loader.tsx:14-20 | on the stage table find picks stage 0..4 for progress below 20, 40, 60, 80, 100, and none from 100 on |
| LoaderModel.Stages | src/components/ui/advanced-loader.tsx:14-20 | the five stages 20, 40, 60, 80, 100 with their texts, in order (which one `find` picks is FindAboveStages) |
| LoaderModel.Next | src/components/ui/advanced-loader.tsx:23-35 | a tick changes the state exactly when some stage lies above the progress; progress never falls and at most one dismissal request is added |
| LoaderModel.NextSpec | src/components/ui/advanced-loader.tsx:22-38 | a tick keeps progress in {0,20,...,100} and moves it up exactly 20 below 100 and changes nothing at 100; the text is then the text of the stage whose threshold is the progress; one dismissal is requested exactly from 100 on |
| LoaderModel.Run | src/components/ui/advanced-loader.tsx:11-38 | every state reached from the start satisfies the invariant |
| LoaderModel.RunProgress | src/components/ui/advanced-loader.tsx:22-35 | after n ticks progress is min(20n, 100) and exactly one dismissal has been requested iff n >= 5 |
| LoaderModel.Loader.constructor | src/components/ui/advanced-loader.tsx:11-12 | starts at progress 0 with "Initializing..." and no dismissal requested |
| LoaderModel.Loader.Tick | src/components/ui/advanced-loader.tsx:23-35 | one firing changes the state as Next says and keeps the invariant |
| ProjectsModel.Includes | src/components/sections/projects-section.tsx:151-152 | includes holds exactly when the pattern occurs at some offset |
| ProjectsModel.MissingCharExcludes | src/components/sections/projects-section.tsx:151-152 | a pattern with a character the string lacks does not occur in it |
| ProjectsModel.Filter | src/components/sections/projects-section.tsx:149-153 | the result is an order-preserving subsequence holding exactly the elements the predicate keeps |
| ProjectsModel.FilterAgree | src/components/sections/projects-section.tsx:134-152 | filters with pointwise-equal predicates give the same list |
| ProjectsModel.FilterPartition | src/components/sections/projects-section.tsx:149-153 | a filter and its negation together keep every element exactly once |
| ProjectsModel.FilteredProjects | src/components/sections/projects-section.tsx:147-153 | "All" gives the list unchanged; "ML/Analytics" keeps exactly the projects whose category contains "Machine Learning" or "Analytics"; any other selection keeps exactly those containing "Frontend"; always a subsequence |
| ProjectsModel.Categories | src/components/sections/projects-section.tsx:131-142 | two cards, "Machine Learning & Analytics" then "Frontend Development", each counting at most the number of projects |
| ProjectsModel.CountsMatchFilters | src/components/sections/projects-section.tsx:131-153 | each card's count equals the number of projects its filter button shows |
| ProjectsModel.FilterPrefix | src/components/sections/projects-section.tsx:149-153 | a filter keeping exactly the first k elements returns that prefix |
| ProjectsModel.FilterSuffix | src/components/sections/projects-section.tsx:149-153 | a filter keeping exactly the elements from k on returns that suffix |
| ProjectsModel.MachineLearningCategory | src/components/sections/projects-section.tsx:27 | "Machine Learning" passes the first card's test and not the second's |
| ProjectsModel.DataAnalyticsCategory | src/components/sections/projects-section.tsx:40 | "Data Analytics" passes the first card's test and not the second's |
| ProjectsModel.FinancialAnalyticsCategory | src/components/sections/projects-section.tsx:53 | "Financial Analytics" passes the first card's test and not the second's |
| ProjectsModel.FrontendDevelopmentCategory | src/components/sections/projects-section.tsx:106 | "Frontend Development" passes the second card's test and not the first's |
| ProjectsModel.NotMLOrAnalytics | src/components/sections/projects-section.tsx:134 | a category with no 'M' and no 'A' fails the first card's test |
| ProjectsModel.ListCategoryNames | src/components/sections/projects-section.tsx:22-129 | the six data projects come first, in the category order of the list, then the two frontend ones |
| ProjectsModel.Projects | src/components/sections/projects-section.tsx:22-129 | the eight projects' titles and categories in list order (their categories are ListCategoryNames) |
| ProjectsModel.ListCategories | src/components/sections/projects-section.tsx:22-129 | the first six projects pass only the first card's test, the last two only the second's |
| ProjectsModel.SiteMLCount | src/components/sections/projects-section.tsx:131-136 | the first card counts 6 |
| ProjectsModel.SiteFrontendCount | src/components/sections/projects-section.tsx:137-141 | the second card counts 2 |
| ProjectsModel.SiteCounts | src/components/sections/projects-section.tsx:22-142 | every project matches exactly one card; the counts are 6 and 2 and add up to the 8 projects |
| ProjectsModel.ProjectsSection.constructor | src/components/sections/projects-section.tsx:145 | the selection starts as "All" |
| ProjectsModel.ProjectsSection.SelectCategory | src/components/sections/projects-section.tsx:238-241 | a button click sets only the selection, and the shown list becomes that selection's filter |
| TextRevealModel.Spans | src/components/ui/text-reveal.tsx:61-68 | one span per character, in order; a space becomes U+00A0 and every other character is unchanged |
| TextRevealModel.SpansAppend | src/components/ui/text-reveal.tsx:61-68 | the spans of a concatenation are the concatenated spans |
| TextRevealModel.Unspan | src/components/ui/text-reveal.tsx:68 | the inverse mapping: U+00A0 back to a space, per position |
| TextRevealModel.SpansRoundTrip | src/components/ui/text-reveal.tsx:61-68 | no span shows a plain space, and a text without U+00A0 is recovered from its spans |
| TextRevealModel.TextReveal.constructor | src/components/ui/text-reveal.tsx:14-19 | starts hidden, with a start timer of delay*1000 ms |
| TextRevealModel.TextReveal.TimerFires | src/components/ui/text-reveal.tsx:17-18 | the timer makes the text visible; no operation hides it again |
| TextRevealModel.Advance | src/components/ui/text-reveal.tsx:92 | (prev+1) mod n stays in range: the next position, or 0 after the last |
| TextRevealModel.AdvanceByForward | src/components/ui/text-reveal.tsx:91-93 | before wrapping, k ticks move k places forward |
| TextRevealModel.AdvanceByAdd | src/components/ui/text-reveal.tsx:91-93 | a+b ticks are a ticks then b ticks |
| TextRevealModel.AdvanceByCycles | src/components/ui/text-reveal.tsx:91-93 | every position comes back after exactly n ticks |
| TextRevealModel.Opacities | src/components/ui/text-reveal.tsx:100-107 | one opacity per text: 1 for the current index and 0 for every other |
| TextRevealModel.OneOpaque | src/components/ui/text-reveal.tsx:104-107 | exactly one layer, the one at the current index, has opacity 1 |
| TextRevealModel.TextRotator.constructor | src/components/ui/text-reveal.tsx:88 | starts at index 0 |
| TextRevealModel.TextRotator.IntervalTick | src/components/ui/text-reveal.tsx:91-93 | each tick sets the index to (prev+1) mod n, which stays in range |
| TextRevealModel.TextRotator.LayerOpacities | src/components/ui/text-reveal.tsx:100-107 | the rendered layers have exactly one opaque text, the current one, and every other layer has opacity 0 |
| ContactModel.WithField | src/components/sections/contact-section.tsx:179-184 | the named field gets the new value and every other field keeps its value |
| ContactModel.WithFieldLaws | src/components/sections/contact-section.tsx:179-184 | writing back a field's own value changes nothing; a later write to a field overrides an earlier one |
| ContactModel.ButtonLabel | src/components/sections/contact-section.tsx:365-380 | "Sending..." if submitting, else "Message Sent!" if succeeded, else "Send Message" |
| ContactModel.ButtonDisabled | src/components/sections/contact-section.tsx:355 | the button is disabled while submitting or after success (its agreement with the label is LabelDisabledAgree) |
| ContactModel.LabelDisabledAgree | src/components/sections/contact-section.tsx:355-380 | the button is disabled exactly when it does not read "Send Message" |
| ContactModel.ContactForm.constructor | src/components/sections/contact-section.tsx:169-177 | all four fields empty, not submitting, not succeeded |
| ContactModel.ContactForm.Change | src/components/sections/contact-section.tsx:179-184 | only the named field changes; the submission state is untouched |
| ContactModel.ContactForm.Submit | src/components/sections/contact-section.tsx:186-191 | accepted exactly when the button is enabled (Idle) and every field is non-empty with an email address the browser accepts; then submitting with the 2 s timer pending; otherwise nothing changes |
| ContactModel.PassesValidation | src/components/sections/contact-section.tsx:273-341 | the four `required` controls are non-empty and the `type="email"` control holds an email address |
| ContactModel.EmptyFormIsNotSubmitted | src/components/sections/contact-section.tsx:169-191 | submitting a freshly mounted form is refused and leaves it Idle |
| ContactModel.ContactForm.SubmissionCompletes | src/components/sections/contact-section.tsx:191-200 | Submitting becomes Succeeded: not submitting, succeeded, reset timer pending, form kept |
| ContactModel.ContactForm.ResetFires | src/components/sections/contact-section.tsx:197-200 | Succeeded becomes Idle with all four fields empty |
| ContactModel.ContactForm.Button | src/components/sections/contact-section.tsx:353-380 | disabled exactly outside Idle, and the label is the phase's own |
| ContactModel.LabelTarget | src/components/sections/contact-section.tsx:89-92 | the label is raised (y -8, scale 0.85) exactly when focused or holding a value; at rest y is 8 for an input and 20 for a textarea; purple exactly when focused |
| ContactModel.FloatingLabel.constructor | src/components/sections/contact-section.tsx:51-57 | unfocused, with hasValue equal to value.length > 0 |
| ContactModel.FloatingLabel.Focus | src/components/sections/contact-section.tsx:73 | focusing raises the label |
| ContactModel.FloatingLabel.Blur | src/components/sections/contact-section.tsx:74 | after blur the label is raised exactly when the field holds text |
| ContactModel.FloatingLabel.ValueChanged | src/components/sections/contact-section.tsx:55-57 | the value effect keeps hasValue equal to value.length > 0, so the label is raised iff focused or non-empty |

## Left out

- Animation parameters: every duration, easing curve, stagger, spring and colour gradient. The shadow effects, particles and other decoration are left out too, because they are presentation only and use floating point and `Math.random`.
- The glow, the profile text and the social links of the hover card. They only mirror `isHovered || isTouched`.
- The mobile touch indicator of the hover card, for the same reason.
- Real time: timers are firing events and the model does not order them by their delays. A pending 3000 ms clear and a pending 5000 ms clear may fire in either order.
- Timer cleanup when an effect re-runs or a component unmounts: `clearTimeout` in the typewriter, loader and text reveal is modelled only in that each effect has one pending timer. Unmounting is not modelled.
- `getBoundingClientRect` and `window.innerWidth` are browser calls. Their results are parameters.
- Touch coordinates: `getDirection` is only called from the mouse handlers. The touch branch would classify `touches[0]` the same way when it runs.
- The typewriter and the text rotator with an empty `texts` list, so their constructors require a non-empty list. The typewriter's `texts[0]` is then undefined, and its first timer callback throws when it reads the length. The rotator passes that undefined `texts[0]` to its height placeholder, whose `text.split` throws.
- A change of the `texts` prop while mounted: the index could then exceed the new list, and that is not modelled.
- `handleChange` with an input name other than the four fields. The form only renders those four, so the model restricts names to a four-valued type.
- Contact submission through a disabled button, or with a field failing the browser's constraint validation: the browser never dispatches it. `Submit` models this as accepted = false and no change.
- ContactModel.PassesValidation: the browser's email-address syntax is not modelled; it is the parameter `isEmailAddress`.
- TextRevealModel.Spans: JavaScript's `split("")` splits into UTF-16 code units, but the model splits a string into Unicode scalar values. So a character outside the Basic Multilingual Plane is one span here and two spans in the component.
- TypewriterModel.Step (and TypeOut, EraseAll, Cycle, which count its ticks): `.length` and `.slice` in the component count UTF-16 code units. A character outside the Basic Multilingual Plane therefore takes one tick to type or delete here and two there, and the component briefly shows a lone surrogate, which the model cannot represent.
- Project fields other than title and category: icons, images, links, technologies, stats and the featured flag are only rendered; no filtering or state logic reads them.
- The project cards' rendering.
- The category cards' colours.
- The filter buttons' highlight class.
- `AdvancedTypewriter` is only a wrapper. Its speeds appear as `TypewriterModel.AdvancedSpeeds`.
