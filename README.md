# TextField: a verified model of the styled UIKit text field

This project models `TextField`, the `UITextField` subclass of the TextField pod.
The field themes itself along three axes: active/inactive focus, enabled/disabled and
valid/invalid. It also gates keystrokes through an optional validator, reformats assigned
text through an optional formatter, installs a clear button, and tells a delegate about
text changes and the return key.

Files:

- `field_state.dfy`, module `FieldState`. The state of one field as a value (`Field`): the
  visual fields the appliers write (`Look`), the fifteen theme colours (`Palette`), the
  flags, the text, the attached collaborators (`Hooks`), the layer and font properties
  (`Appearance`), and the log of what the delegate was told. It also defines the three
  appliers (`ActiveTheme`, `EnabledTheme`, `ValidTheme`) and one transition function per
  call. `Step` dispatches a `Call` to its transition, and `Run` replays a sequence of calls.
- `field_lemmas.dfy`, module `FieldLemmas`: what one call changes and leaves alone, and
  invariants over any sequence of calls.
- `text_field.dfy`, module `TextFieldControl`. Class `TextField` holds the same state in
  fields that its methods overwrite in place, as the Swift observers do. Every method
  that changes state ensures that its new `State()` equals that call's transition applied
  to the old state. `Validate` and `ShouldChangeCharacters` are read-only functions.

Outside collaborators are modelled as follows:

- Colours (`UIColor`, with `CGColor` taken to be the same value), fonts and `NSRange` are
  opaque types.
- `Validatable` and `Formattable` are records of uninterpreted functions.
- The weak delegate is a flag saying whether it is present, plus a ghost log of the
  notices it received.

Where the code and its prose description differ, the model follows the code:

- `textFieldDidUpdate` applies the valid theme when `valid` is false but never assigns
  `valid`, so the flag stays false (`EditingChangedEffect`, `ValidOnlyByAssignment`).
- Re-enabling after `valid = false` while disabled shows the enabled theme, because
  `updateEnabled` runs last (`ReenableShowsEnabledTheme`).
- Tapping clear assigns nil through the `text` observer. With a formatter attached, the
  text therefore becomes `formatString("", false)` rather than empty (`ClearTappedEffect`).
- Begin and end editing only restyle. The delegate's `didBeginEditing` and
  `didEndEditing` are declared but never called (`FocusEffect`).
- The `customFont` observer assigns `font` to itself, so setting `customFont` never
  changes the font shown (`AssignCustomFontKeepsFont`).

## Model

| member | source | states |
|---|---|---|
| FieldState.OrEmpty | Pod/Source/TextField.swift:193 | `text ?? ""`: the text when present, the empty string when nil |
| FieldState.Palette.With | Pod/Source/TextField.swift:38-78 | assigning one theme colour property changes that property only; every other one reads back as before |
| FieldState.UniformPalette | Pod/Source/TextField.swift:38-78 | every theme colour starts as the same placeholder colour |
| FieldState.ActiveTheme | Pod/Source/TextField.swift:150-162 | `updateActive` installs the clear button and sets both background colours and the border to the active (or inactive) colours; the text colour is never touched |
| FieldState.EnabledTheme | Pod/Source/TextField.swift:164-176 | `updateEnabled` sets exactly the four colour fields (both backgrounds, border, text) from the enabled or disabled colours and keeps the right view |
| FieldState.ValidTheme | Pod/Source/TextField.swift:178-188 | `updateValid` sets both backgrounds and the border to the valid or invalid colours; text colour and right view are kept |
| FieldState.FormattedText | Pod/Source/TextField.swift:120-126 | the value the `text` observer leaves: `formatString(t ?? "", false)` (never nil) with a formatter, `t` itself (nil included) without |
| FieldLemmas.EnabledThemeForgetsLook | Pod/Source/TextField.swift:164-176 | what `updateEnabled` shows depends only on the palette and the flag, not on what was shown before |
| FieldLemmas.AssignEnabledEffect | Pod/Source/TextField.swift:128-132 | `enabled = b` stores `b`, applies the enabled/disabled theme, changes nothing else and keeps `valid` |
| FieldLemmas.DisableThenEnableRestores | Pod/Source/TextField.swift:128-132 | `enabled = false` then `enabled = true` leaves exactly the state that enabling alone leaves, showing the enabled theme |
| FieldLemmas.AssignValidEffect | Pod/Source/TextField.swift:134-140 | `valid = b` stores `b`; while disabled no visual field changes, while enabled the valid or invalid theme is applied |
| FieldLemmas.AssignColorEffect | Pod/Source/TextField.swift:38-77 | an enabled/disabled colour re-runs `updateEnabled(enabled)`, so the current enabled state's colours show even while disabled; active, inactive, valid, invalid and accessory colours change no visual field |
| FieldLemmas.LayerSettersEffect | Pod/Source/TextField.swift:22-36 | `borderColor` overwrites the layer border colour and no other visual field; `borderWidth` and `cornerRadius` are copied to the layer |
| FieldLemmas.AssignCustomFontKeepsFont | Pod/Source/TextField.swift:17-21 | setting `customFont` stores it and leaves the displayed font unchanged |
| FieldLemmas.AssignTextEffect | Pod/Source/TextField.swift:120-126 | `text = t` stores `formatString(t ?? "", false)` with a formatter and `t` without, and changes nothing but the text |
| FieldLemmas.FocusEffect | Pod/Source/TextField.swift:201-207 | begin/end editing apply the active/inactive theme, keep `valid` and send no notice |
| FieldLemmas.EditingChangedEffect | Pod/Source/TextField.swift:223-229 | when `valid` is false the valid theme is shown but the flag stays false; exactly one text-changed notice with the current text is logged iff a delegate is present |
| FieldLemmas.ReturnPressedEffect | Pod/Source/TextField.swift:231-233 | the return key only forwards one `didReturn` notice, when a delegate is present |
| FieldLemmas.ClearTappedEffect | Pod/Source/TextField.swift:237-241 | clear leaves the text nil, or `formatString("", false)` with a formatter; style, palette and `valid` are unchanged; exactly one text-changed notice carrying the new text iff a delegate is present |
| FieldLemmas.RunAppend | Pod/Source/TextField.swift:16-242 | replaying two sequences of calls one after the other equals replaying their concatenation |
| FieldLemmas.TextColorOnlyFromEnabledTheme | Pod/Source/TextField.swift:150-188 | over any sequence of calls none of which runs `updateEnabled`, the text colour never changes |
| FieldLemmas.ValidOnlyByAssignment | Pod/Source/TextField.swift:223-229 | over any sequence without `valid = …`, the `valid` flag never changes; edits do not reset it |
| FieldLemmas.LookHeldWhileQuiet | Pod/Source/TextField.swift:134-140 | non-restyling calls, plus any `valid = …` while disabled, leave every visual field and `enabled` unchanged |
| FieldLemmas.ReenableShowsEnabledTheme | Pod/Source/TextField.swift:128-140 | any number of `valid = …` while disabled shows nothing; then `enabled = true` shows the enabled theme, not the invalid one, and `valid` is the last value assigned |
| FieldLemmas.LastValidWins | Pod/Source/TextField.swift:134-140 | after a non-empty sequence of `valid = …`, the flag holds the last value assigned |
| FieldLemmas.PaletteOnlyByColors | Pod/Source/TextField.swift:38-77 | the theme colours change only through colour assignments |
| FieldLemmas.StepKeepsClearButton | Pod/Source/TextField.swift:151 | no single call removes the clear button once it is the right view |
| FieldLemmas.ClearButtonStays | Pod/Source/TextField.swift:151 | once installed by `updateActive`, the clear button remains the right view whatever follows |
| FieldLemmas.StepNoticeGrowth | Pod/Source/TextField.swift:228-240 | one call appends at most one notice and removes none |
| FieldLemmas.NoticesOnlyGrow | Pod/Source/TextField.swift:228-240 | the delegate's log only grows, keeps its earlier entries, and gains at most one notice per call |
| FieldLemmas.QueryInputsUnchanged | Pod/Source/TextField.swift:190-219 | without text, clear or validator assignments, the text and validator that `validate()` and the keystroke gate read stay as they were |
| TextFieldControl.TextField.constructor | Pod/Source/TextField.swift:88-104 | all theme colours and `borderColor` start as the placeholder colour, widths and radii at 0, enabled and valid, no text, no collaborators, no right view, empty log |
| TextFieldControl.TextField.UpdateActive | Pod/Source/TextField.swift:150-162 | new state = old state with the active/inactive theme applied |
| TextFieldControl.TextField.UpdateEnabled | Pod/Source/TextField.swift:164-176 | new state = old state with the enabled/disabled theme applied |
| TextFieldControl.TextField.UpdateValid | Pod/Source/TextField.swift:178-188 | new state = old state with the valid/invalid theme applied |
| TextFieldControl.TextField.SetText | Pod/Source/TextField.swift:120-126 | new state = the text assignment transition, text passed through the formatter |
| TextFieldControl.TextField.SetEnabled | Pod/Source/TextField.swift:128-132 | new state = the `enabled` transition; `valid` is kept |
| TextFieldControl.TextField.SetValid | Pod/Source/TextField.swift:134-140 | new state = the `valid` transition; while disabled the visuals are unchanged |
| TextFieldControl.TextField.SetColor | Pod/Source/TextField.swift:38-78 | new state = the colour-assignment transition; observed colours re-run `updateEnabled(enabled)` |
| TextFieldControl.TextField.SetBorderWidth | Pod/Source/TextField.swift:22-26 | new state = `Step` of the border-width call; the width is copied to the layer |
| TextFieldControl.TextField.SetBorderColor | Pod/Source/TextField.swift:27-31 | new state = `Step` of the border-colour call; the layer border is overwritten |
| TextFieldControl.TextField.SetCornerRadius | Pod/Source/TextField.swift:32-36 | new state = `Step` of the corner-radius call; the radius is copied to the layer |
| TextFieldControl.TextField.SetCustomFont | Pod/Source/TextField.swift:17-21 | new state = `Step` of the custom-font call; the displayed font is unchanged |
| TextFieldControl.TextField.SetInputType | Pod/Source/TextField.swift:142-146 | new state = `Step` of the input-type call; only the input type changes |
| TextFieldControl.TextField.SetInputValidator | Pod/Source/TextField.swift:80 | new state = `Step` of the validator assignment |
| TextFieldControl.TextField.SetFormatter | Pod/Source/TextField.swift:81 | new state = `Step` of the formatter assignment; the current text is not reformatted |
| TextFieldControl.TextField.SetDelegate | Pod/Source/TextField.swift:82 | new state = `Step` of the delegate assignment |
| TextFieldControl.TextField.Validate | Pod/Source/TextField.swift:190-197 | true without a validator, otherwise exactly the validator's verdict on `text ?? ""`; a read-only query that changes nothing, `valid` included |
| TextFieldControl.TextField.ShouldChangeCharacters | Pod/Source/TextField.swift:209-219 | a replacement equal to "\n" is always accepted, even by a rejecting validator; with no validator everything is accepted; otherwise the validator's verdict on (replacement, current text, range) |
| TextFieldControl.TextField.TextFieldDidBeginEditing | Pod/Source/TextField.swift:201-203 | new state = the active theme applied (`Step` of begin-editing) |
| TextFieldControl.TextField.TextFieldDidEndEditing | Pod/Source/TextField.swift:205-207 | new state = the inactive theme applied (`Step` of end-editing) |
| TextFieldControl.TextField.TextFieldDidUpdate | Pod/Source/TextField.swift:223-229 | new state = the editing-changed transition; `valid` is kept |
| TextFieldControl.TextField.TextFieldDidReturn | Pod/Source/TextField.swift:231-233 | new state = one return notice logged if a delegate is present |
| TextFieldControl.TextField.ClearButtonAction | Pod/Source/TextField.swift:237-241 | new state = the clear transition; no visual field changes |
| TextFieldControl.DisableValidateEnable | Pod/Source/TextField.swift:128-140 | on a new field: set the enabled background, disable, mark invalid, re-enable → the enabled background shows; a following edit shows the valid background while `valid` stays false |

## Left out

- Rendering, real colour values, the `UIColor` to `CGColor` conversion and font metrics: colours and fonts are opaque values, and the initial platform colours and font are constructor parameters.
- The left padding view and the margin and button-size constants (Pod/Source/TextField.swift:84-86, 95-97): layout only.
- The clear-button image and the lazily created button (Pod/Source/TextField.swift:110-118): the model records only whether the right view is the clear button. The accessory colour is stored but never drawn.
- `rightViewMode = .WhileEditing`, `returnKeyType` and the target-action registration (Pod/Source/TextField.swift:99-103): the registered actions appear as the event methods, and the visibility of the right view while not editing is not modelled.
- `updateInputType` and the keyboard effect of `TextFieldInputType`: that function is not part of this model, so `SetInputType` only stores the value.
- The internals of `Validatable` and `Formattable`: these are uninterpreted functions.
- `NSRange` semantics: the range is passed to the validator unchanged.
- The platform's own application of an accepted keystroke to the text: `TextFieldDidUpdate` reports whatever text is current. UIKit's normalisation of a nil `text` to the empty string on reading is not modelled either.
- `init(coder:)`, which stops with `fatalError` (Pod/Source/TextField.swift:106-108): it is a construction path that cannot be used.
- Weak-reference lifetime and the main-thread event loop: the delegate is a flag that the host sets, and every call runs to completion before the next.
- The host can assign the class's fields directly. Only assignments made through the `Set…` methods run the observers, as the Swift `didSet` blocks do.
