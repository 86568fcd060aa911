# Portfolio site: hero scene, contact form, theme menu and project list in Dafny

This project models the stateful logic of a one-page portfolio site and proves properties of it.

- **Hero scene** (`hero_scene.dfy`, module `HeroScene`). Six 3D tech labels sit in two groups of three: REACT, JS and TS on the frontend, NODE, PYTHON and API on the backend. A scene-wide activation picks the emphasised label. It is made of a group flag, which starts at `frontend`, and an index in {0, 1, 2}, which starts at 0. Each label also has its own hover flag, its spin about the vertical axis, and its tilt and scale (its "pose"). Events are pure transitions on an immutable `Scene` record:
  - group-timer fire;
  - index-timer fire;
  - animation frame;
  - pointer over and pointer out.
- **Virtual clock** (`hero_clock.dfy`, module `HeroClock`). A millisecond counter replaces the browser intervals. The 4000 ms group interval and the 1500 ms index interval fire at every positive multiple of their period. When both are due at once, the model delivers the group fire first; the order does not matter, because the two fires commute (`HeroScene.TimerStepsCommute`). The effect's cleanup clears both intervals.
- **Contact form** (`contact_form.dfy`, module `ContactForm`). It covers:
  - the four-field form;
  - the submit lifecycle around one email send, split into its synchronous start and its settled end;
  - the template parameters sent;
  - the submit button;
  - the colour-class lookup of the social links.
- **Theme menu** (`theme_menu.dfy`, module `ThemeMenu`). It covers the palette toggle, option selection and the marking of the current option.
- **Project list** (`project_catalog.dfy`, module `ProjectCatalog`). It covers:
  - the static project list;
  - its split by category into the web list and the mobile list;
  - the category badge;
  - the conditions for the wide layout, the Featured badge and the two link buttons.

Stand-ins for values the model does not compute:
- Spin is counted in frame steps, not radians.
- The sine-driven tilt and scale of the active label are represented by the frame-clock value they were computed from (`Pose.Swayed(at)`).
- Positions are integers in tenths of a scene unit, which keeps them exact.
- Emissive intensities are exact Dafny reals (0.4 and 0.2).

Facts about the code that the model keeps:
- **The t = 8000 instant.** At t = 8000 the index is `(8000 div 1500) mod 3 = 2`, not 1, so the activation is `(frontend, 2)` (`HeroClock.Timeline`).
- **The period of the pair.** The pair (group, index) does not repeat every lcm(4000, 1500) = 12000 ms. The group repeats every 8000 ms and the index every 4500 ms, so the pair repeats every 72000 ms (`HeroClock.ActivationPeriodic`). At 12000 ms the group has switched three times, so the backend group is active (`HeroClock.TwelveSecondsIsNotAPeriod`).
- **No defensive policies.** The code does not clamp frame deltas, check a liveness flag in the interval callbacks, or reset tilt and scale on a label that stops being active; neither does the model. An inactive label keeps the pose of its last active frame (`HeroScene.PoseSurvivesDeactivation`). Cleanup is modelled as clearing the intervals, after which they never fire again (`HeroClock.CleanupFreezes`).

## Model

| member | source | states |
|---|---|---|
| HeroScene.Flip | src/components/Hero3D.tsx:131 | the group switch always yields the other group |
| HeroScene.FlipTwice | src/components/Hero3D.tsx:131 | switching twice restores the group |
| HeroScene.GroupFire | src/components/Hero3D.tsx:130-132 | a group fire changes the group to the other one and keeps the index |
| HeroScene.IndexFire | src/components/Hero3D.tsx:134-136 | an index fire keeps the group, keeps the index below 3, steps 0 to 1 and 1 to 2, and wraps 2 to 0 |
| HeroScene.GroupFireTwice | src/components/Hero3D.tsx:130-132 | two group fires give back the activation they started from |
| HeroScene.IndexFireThrice | src/components/Hero3D.tsx:134-136 | one or two index fires change the activation, and three restore it |
| HeroScene.FiresCommute | src/components/Hero3D.tsx:130-136 | a group fire and an index fire commute |
| HeroScene.SlotOf | src/components/Hero3D.tsx:80-88 | each (group, position) pair names exactly one of the six labels |
| HeroScene.ActiveSlot | src/components/Hero3D.tsx:80-113 | for a reachable activation, one label is active (matching group and position) and no other label is |
| HeroScene.ExactlyOneActive | src/components/Hero3D.tsx:80-113 | the set of active labels has exactly one element |
| HeroScene.LabelColors | src/components/Hero3D.tsx:75-87 | two labels share their base colour exactly when they are in the same group, likewise their glow colour, and no label glows in its own base colour |
| HeroScene.HeadlineTellsGroup | src/components/Hero3D.tsx:179 | the overlay headline differs between the two groups, so it changes on every group fire |
| HeroScene.WorldPosition | src/components/Hero3D.tsx:79-111 | a label lies left of the origin exactly when it is a frontend label; its height is 1.2 units per position step, centred on the middle label |
| HeroScene.TechNamesDistinct | src/components/Hero3D.tsx:71-82 | no two labels share a text, so the keys among sibling labels are unique |
| HeroScene.PositionsDistinct | src/components/Hero3D.tsx:79-111 | no two labels share a resting position |
| HeroScene.InitialScene | src/components/Hero3D.tsx:126-127 | the mounted scene has group frontend and index 0, so REACT is active, and no label is hovered, spun or posed |
| HeroScene.Emissive | src/components/Hero3D.tsx:53 | the intensity is 0.4 exactly when the label is hovered or active, and 0.2 otherwise |
| HeroScene.IntensityCases | src/components/Hero3D.tsx:50-53 | the active label is always bright; any other label is bright exactly while hovered |
| HeroScene.SetHover | src/components/Hero3D.tsx:33-35 | pointer over or out sets only that label's hover flag; the activation and every other label are unchanged |
| HeroScene.HoverNotExclusive | src/components/Hero3D.tsx:17-35 | two labels can be hovered at the same time |
| HeroScene.FrameStep | src/components/Hero3D.tsx:19-27 | a frame spins every label one step and keeps hover flags and activation; it writes a fresh pose on the active label only, and every other label keeps its pose |
| HeroScene.Step | src/components/Hero3D.tsx:129-137 | timer fires leave every label's state unchanged; frames and pointer events leave the activation unchanged |
| HeroScene.TimerStepsCommute | src/components/Hero3D.tsx:130-136 | at an instant when both intervals are due, the resulting scene is the same in either delivery order |
| HeroScene.Run | src/components/Hero3D.tsx:19-21 | over any event sequence, every label's spin grows by exactly the number of frames, active or not, so spin never decreases |
| HeroScene.OnlyTimersActivate | src/components/Hero3D.tsx:126-136 | a run with no timer fire leaves the activation unchanged |
| HeroScene.PoseSurvivesDeactivation | src/components/Hero3D.tsx:23-26 | a label that stops being active keeps the pose of its last active frame |
| HeroClock.Mount | src/components/Hero3D.tsx:126-136 | mounting starts the clock at 0 with both intervals registered and activation (frontend, 0) |
| HeroClock.Cleanup | src/components/Hero3D.tsx:138-141 | cleanup clears both intervals and leaves the scene untouched |
| HeroClock.FireDue | src/components/Hero3D.tsx:130-136 | fires due at an instant change only the activation, and nothing fires once the intervals are cleared |
| HeroClock.Tick | src/components/Hero3D.tsx:130-136 | one millisecond advances the clock by 1, and the timer fires due at its end change no label state |
| HeroClock.Advance | src/components/Hero3D.tsx:130-136 | n milliseconds advance the clock by n and keep the registration, and the timer fires in them change no label state |
| HeroClock.FlipTimesParity | src/components/Hero3D.tsx:131 | after n group switches the group is the original when n is even and the other group when n is odd |
| HeroClock.TickActivation | src/components/Hero3D.tsx:130-136 | a millisecond ending on a multiple of 4000 switches the group, and one ending on a multiple of 1500 steps the index (the group first when both apply) |
| HeroClock.ActivationAt | src/components/Hero3D.tsx:129-137 | at time t the group has switched t div 4000 times and the index is (t div 1500) mod 3 |
| HeroClock.ActivationAtParity | src/components/Hero3D.tsx:129-137 | at time t the group is frontend exactly when t div 4000 is even, and the index is (t div 1500) mod 3 |
| HeroClock.Timeline | src/components/Hero3D.tsx:126-136 | the activation at t = 0, 1500, 3000, 3999, 4000, 4500, 6000 and 8000 is (frontend,0), (frontend,1), (frontend,2), (frontend,2), (backend,2), (backend,0), (backend,1), (frontend,2) |
| HeroClock.ActivationPeriodic | src/components/Hero3D.tsx:130-136 | the activation at t + 72000 equals the activation at t |
| HeroClock.TwelveSecondsIsNotAPeriod | src/components/Hero3D.tsx:130-136 | at t = 12000 the activation is (backend, 2), which differs from the one at mount |
| HeroClock.CleanupFreezes | src/components/Hero3D.tsx:138-141 | after cleanup no interval fires again: however many milliseconds pass, the timers leave the scene unchanged |
| ContactForm.InitialContact | src/components/ContactSection.tsx:28-35 | the section mounts with all four fields empty and no send in flight, so the button is enabled and reads "Send Message" |
| ContactForm.InitialFormNotSubmittable | src/components/ContactSection.tsx:131-182 | the form as mounted cannot be submitted, because its required fields are empty |
| ContactForm.UpdateField | src/components/ContactSection.tsx:37-40 | a change sets the named field to the new value and leaves the other three unchanged |
| ContactForm.UpdateFieldLaws | src/components/ContactSection.tsx:37-40 | writing a field's own value back is a no-op, and a later write to the same field overrides an earlier one |
| ContactForm.Payload | src/components/ContactSection.tsx:57-62 | from_name, from_email, subject and message carry the name, email, subject and message fields |
| ContactForm.FormOf | src/components/ContactSection.tsx:57-62 | every payload is the payload of the form recovered from it |
| ContactForm.PayloadRoundTrip | src/components/ContactSection.tsx:57-62 | the form can be recovered from its payload, so the payload drops no field |
| ContactForm.Edit | src/components/ContactSection.tsx:131-182 | field edits apply whether or not a send is in flight and do not touch the submitting flag |
| ContactForm.SubmitButton | src/components/ContactSection.tsx:185-191 | the button is disabled and reads "Sending..." exactly while submitting, and reads "Send Message" otherwise |
| ContactForm.BeginSubmit | src/components/ContactSection.tsx:42-62 | on a form whose four required fields are filled, submit sets the submitting flag, keeps the form, and sends exactly the form as it is at that moment |
| ContactForm.FinishSubmit | src/components/ContactSection.tsx:64-84 | when the send settles the flag is cleared on both paths; success empties all four fields and failure keeps the form |
| ContactForm.SubmitLifecycle | src/components/ContactSection.tsx:42-85 | across one submit the button is locked during the send and free after it; the form ends empty on success and unchanged on failure |
| ContactForm.EditDuringSend | src/components/ContactSection.tsx:42-85 | an edit made during the send is not in the payload; success discards it and failure keeps it |
| ContactForm.FallbackIsPrimary | src/components/ContactSection.tsx:242-279 | looking up any name gives the same classes as looking up the known colour it resolves to; an unknown name gets exactly the cyber-primary entry |
| ContactForm.GetColorClasses | src/components/ContactSection.tsx:242-279 | the result is the cyber-primary entry exactly when the name is cyber-primary or not one of the four known colours |
| ContactForm.IconClassNamesColor | src/components/ContactSection.tsx:242-271 | the icon class of each known colour is "text-" followed by the colour name |
| ContactForm.SocialLinksUseOwnColors | src/components/ContactSection.tsx:10-15 | every social link names a known colour, so its icon class is "text-" followed by its own colour rather than the fallback's, and no two links share a colour |
| ThemeMenu.ThemeNamesDistinct | src/components/ThemeToggle.tsx:7-12 | the four theme names are pairwise distinct |
| ThemeMenu.InitialMenu | src/components/ThemeToggle.tsx:15-16 | the menu mounts closed, showing the context's theme |
| ThemeMenu.ToggleOpen | src/components/ThemeToggle.tsx:23 | the palette button negates isOpen and keeps the theme |
| ThemeMenu.ToggleTwice | src/components/ThemeToggle.tsx:23 | toggling twice restores the menu |
| ThemeMenu.Select | src/components/ThemeToggle.tsx:46-49 | selecting an option sets the theme to its name and closes the list |
| ThemeMenu.SelectIdempotent | src/components/ThemeToggle.tsx:46-49 | selecting the current theme only closes the list, and selecting the same option twice equals selecting it once |
| ThemeMenu.Options | src/components/ThemeToggle.tsx:29-67 | the option list is empty while closed; while open it shows all four options in order, each marked exactly when its name is the current theme |
| ThemeMenu.AtMostOneMarked | src/components/ThemeToggle.tsx:37-39 | at most one option is marked, and exactly one when the list is open and the theme is one of the four names |
| ThemeMenu.SelectionIsMarked | src/components/ThemeToggle.tsx:23-49 | after a selection the list is gone, and reopening it marks the chosen option |
| ProjectCatalog.ProjectIdsDistinct | src/components/ProjectsSection.tsx:18-81 | the project ids are pairwise distinct, so they can serve as card keys |
| ProjectCatalog.Filter | src/components/ProjectsSection.tsx:204-205 | a category filter is no longer than its input and holds only projects of that category |
| ProjectCatalog.FilterIsSubsequence | src/components/ProjectsSection.tsx:204-205 | a category filter keeps the list order of what it keeps |
| ProjectCatalog.FilterMembers | src/components/ProjectsSection.tsx:204-205 | a project is in a category filter exactly when it is in the list and has that category |
| ProjectCatalog.FilterPartition | src/components/ProjectsSection.tsx:204-205 | the web and mobile lists split any list: their lengths add up to its length, and together they hold each project as often as it does |
| ProjectCatalog.InExactlyOneList | src/components/ProjectsSection.tsx:204-205 | every listed project is on exactly one of the two lists |
| ProjectCatalog.WebListContents | src/components/ProjectsSection.tsx:18-81 | the web list is projects 1, 3 and 5, in that order |
| ProjectCatalog.AppListContents | src/components/ProjectsSection.tsx:18-81 | the mobile list is projects 2, 4 and 6, in that order |
| ProjectCatalog.Config | src/components/ProjectsSection.tsx:87-92 | web projects get the globe badge "Web App" and app projects the smartphone badge "Mobile App" |
| ProjectCatalog.CardOf | src/components/ProjectsSection.tsx:106-189 | the wide layout and the Featured badge come together, exactly when featured is true; Live Demo and Code appear exactly when their address is present and non-empty, and link to it |
| ProjectCatalog.CardsOfTheList | src/components/ProjectsSection.tsx:18-81 | on the static list only Pesa Track lacks a Live Demo link, every project has a Code link, and projects 1 and 2 are featured |

## Left out

- Rendering through three.js and react-three-fiber is not modelled. This covers the canvas, lights, environment, orbit controls, 3D text geometry and remote font loading. These are foreign library calls with no logic of the site's own.
- Floating-point animation values are not modelled: the 0.005 rad spin step, `Math.sin`, and framer-motion delays and durations. Spin is a step count, and a pose records the frame-clock value it was computed from.
- HeroScene.FrameStep: does not compute the tilt (0.1·sin t) or the scale (1 + 0.05·sin 2t). It records the clock value t they come from, because `sin` is a floating-point library function.
- React scheduling is not modelled: state batching, re-render timing and the effect lifecycle. Timer fires, frames, pointer events and cleanup are explicit events applied one at a time, as the single-threaded event loop delivers them.
- The email send is not modelled: the EmailJS call, the environment variables holding its keys, the toasts and console logging. The send's outcome is an input (`SendOutcome`).
- ContactForm.BeginSubmit: requires only that the four required fields are non-empty. The browser's check that the email field holds a well-formed address (`type="email"`) is not modelled.
- ContactForm.UpdateField: takes the field as one of the four form fields rather than an arbitrary input name. Every input that calls the handler carries one of those four names, so an unknown key is never spread into the form.
- Theme persistence and the shared theme context are not modelled. The theme is a plain field of the menu state.
- The WhatsApp button is not modelled. It reads the DOM layout on scroll, and its only logic is one viewport-overlap comparison.
- The skills section and the page layout are not modelled. They hold static data and animation delays only.

