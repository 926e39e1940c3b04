/**
 The state of the Pod's styled `TextField` as a value, and the effect of each
 call a host (or UIKit) can make on it.

 The class in text_field.dfy keeps the same state in fields and proves each of
 its methods against `Step`; the lemmas in field_lemmas.dfy are about `Step`
 and `Run`.
 */
module FieldState {

  /** A UIColor. Its CGColor is taken to be the same value. */
  type Color(==)

  /** A UIFont. */
  type Font

  /** An NSRange, handed to the validator without interpretation. */
  type Range

  datatype Option<+T> = None | Some(value: T)

  /** Swift's `text ?? ""`. */
  function OrEmpty(t: Option<string>): (s: string)
    ensures t.Some? ==> s == t.value
    ensures t.None? ==> s == ""
  {
    match t
    case None => ""
    case Some(v) => v
  }

  datatype InputType =
    | Default | Name | Username | PhoneNumber | Integer | Decimal
    | Address | Email | Password | Unknown

  /** The `Validatable` capability: an uninterpreted pair of verdicts. */
  datatype Validator = Validator(
    validateString: string -> bool,
    validateReplacementString: (string, Option<string>, Range) -> bool)

  /** The `Formattable` capability: `formatString(s, reverse)`. */
  datatype Formatter = Formatter(formatString: (string, bool) -> string)

  /** What the `TextFieldDelegate` is told. The protocol also declares
      begin/end-editing callbacks, but the field never sends them. */
  datatype Notice = DidUpdateWithText(text: Option<string>) | DidReturn

  /** The visual fields the three appliers write. */
  datatype Look = Look(
    backgroundColor: Color,
    layerBackgroundColor: Color,
    layerBorderColor: Color,
    textColor: Color,
    rightViewIsClearButton: bool)

  /** One of the fifteen theme colour properties. */
  datatype Slot =
    | ActiveBackground | ActiveBorder | InactiveBackground | InactiveBorder
    | EnabledBackground | EnabledBorder | EnabledText
    | DisabledBackground | DisabledBorder | DisabledText
    | ValidBackground | ValidBorder | InvalidBackground | InvalidBorder
    | AccessoryButton
  {
    /** The six properties whose observer re-runs `updateEnabled(enabled)`. */
    predicate Observed() {
      EnabledBackground? || EnabledBorder? || EnabledText? ||
      DisabledBackground? || DisabledBorder? || DisabledText?
    }
  }

  /** The theme colour properties of the field. */
  datatype Palette = Palette(
    activeBackgroundColor: Color,
    activeBorderColor: Color,
    inactiveBackgroundColor: Color,
    inactiveBorderColor: Color,
    enabledBackgroundColor: Color,
    enabledBorderColor: Color,
    enabledTextColor: Color,
    disabledBackgroundColor: Color,
    disabledBorderColor: Color,
    disabledTextColor: Color,
    validBackgroundColor: Color,
    validBorderColor: Color,
    invalidBackgroundColor: Color,
    invalidBorderColor: Color,
    accessoryButtonColor: Color)
  {
    function Get(slot: Slot): Color {
      match slot
      case ActiveBackground => activeBackgroundColor
      case ActiveBorder => activeBorderColor
      case InactiveBackground => inactiveBackgroundColor
      case InactiveBorder => inactiveBorderColor
      case EnabledBackground => enabledBackgroundColor
      case EnabledBorder => enabledBorderColor
      case EnabledText => enabledTextColor
      case DisabledBackground => disabledBackgroundColor
      case DisabledBorder => disabledBorderColor
      case DisabledText => disabledTextColor
      case ValidBackground => validBackgroundColor
      case ValidBorder => validBorderColor
      case InvalidBackground => invalidBackgroundColor
      case InvalidBorder => invalidBorderColor
      case AccessoryButton => accessoryButtonColor
    }

    /** The palette after assigning `c` to one property: that property reads
        back `c`, every other one is as before. */
    function With(slot: Slot, c: Color): (p: Palette)
      ensures p.Get(slot) == c
      ensures forall s :: s != slot ==> p.Get(s) == Get(s)
    {
      match slot
      case ActiveBackground => this.(activeBackgroundColor := c)
      case ActiveBorder => this.(activeBorderColor := c)
      case InactiveBackground => this.(inactiveBackgroundColor := c)
      case InactiveBorder => this.(inactiveBorderColor := c)
      case EnabledBackground => this.(enabledBackgroundColor := c)
      case EnabledBorder => this.(enabledBorderColor := c)
      case EnabledText => this.(enabledTextColor := c)
      case DisabledBackground => this.(disabledBackgroundColor := c)
      case DisabledBorder => this.(disabledBorderColor := c)
      case DisabledText => this.(disabledTextColor := c)
      case ValidBackground => this.(validBackgroundColor := c)
      case ValidBorder => this.(validBorderColor := c)
      case InvalidBackground => this.(invalidBackgroundColor := c)
      case InvalidBorder => this.(invalidBorderColor := c)
      case AccessoryButton => this.(accessoryButtonColor := c)
    }
  }

  /** Every theme colour set to the same placeholder (`UIColor.redColor()`). */
  function UniformPalette(c: Color): (p: Palette)
    ensures forall s :: p.Get(s) == c
  {
    Palette(c, c, c, c, c, c, c, c, c, c, c, c, c, c, c)
  }

  /** `updateActive`: installs the clear button as right view and writes the
      active or inactive background and border; the text colour is kept. */
  function ActiveTheme(look: Look, p: Palette, active: bool): (r: Look)
    ensures r.rightViewIsClearButton
    ensures r.textColor == look.textColor
    ensures r.backgroundColor == r.layerBackgroundColor
              == (if active then p.activeBackgroundColor else p.inactiveBackgroundColor)
    ensures r.layerBorderColor == (if active then p.activeBorderColor else p.inactiveBorderColor)
  {
    var background := if active then p.activeBackgroundColor else p.inactiveBackgroundColor;
    var border := if active then p.activeBorderColor else p.inactiveBorderColor;
    Look(background, background, border, look.textColor, true)
  }

  /** `updateEnabled`: writes the four colour fields from the enabled or the
      disabled colours; the right view is kept. */
  function EnabledTheme(look: Look, p: Palette, enabled: bool): (r: Look)
    ensures r.rightViewIsClearButton == look.rightViewIsClearButton
    ensures r.backgroundColor == r.layerBackgroundColor
              == (if enabled then p.enabledBackgroundColor else p.disabledBackgroundColor)
    ensures r.layerBorderColor == (if enabled then p.enabledBorderColor else p.disabledBorderColor)
    ensures r.textColor == (if enabled then p.enabledTextColor else p.disabledTextColor)
  {
    if enabled then
      Look(p.enabledBackgroundColor, p.enabledBackgroundColor, p.enabledBorderColor,
           p.enabledTextColor, look.rightViewIsClearButton)
    else
      Look(p.disabledBackgroundColor, p.disabledBackgroundColor, p.disabledBorderColor,
           p.disabledTextColor, look.rightViewIsClearButton)
  }

  /** `updateValid`: writes the valid or invalid background and border; the
      text colour and the right view are kept. */
  function ValidTheme(look: Look, p: Palette, valid: bool): (r: Look)
    ensures r.rightViewIsClearButton == look.rightViewIsClearButton
    ensures r.textColor == look.textColor
    ensures r.backgroundColor == r.layerBackgroundColor
              == (if valid then p.validBackgroundColor else p.invalidBackgroundColor)
    ensures r.layerBorderColor == (if valid then p.validBorderColor else p.invalidBorderColor)
  {
    var background := if valid then p.validBackgroundColor else p.invalidBackgroundColor;
    var border := if valid then p.validBorderColor else p.invalidBorderColor;
    look.(backgroundColor := background, layerBackgroundColor := background,
          layerBorderColor := border)
  }

  /** The value the `text` observer leaves stored after `text = t`: with a
      formatter, `formatString(t ?? "", false)`, which is never nil; without
      one, `t` itself, nil included. */
  function FormattedText(formatter: Option<Formatter>, t: Option<string>): (stored: Option<string>)
    ensures formatter.None? ==> stored == t
    ensures formatter.Some? ==> stored.Some?
    ensures formatter.Some? ==> stored.value == formatter.value.formatString(OrEmpty(t), false)
  {
    match formatter
    case None => t
    case Some(fmt) => Some(fmt.formatString(OrEmpty(t), false))
  }

  /** The attached collaborators: validator, formatter, and whether the weak
      delegate reference currently holds a delegate. */
  datatype Hooks = Hooks(
    inputValidator: Option<Validator>,
    formatter: Option<Formatter>,
    hasDelegate: bool)

  /** The layer and font properties, the layer fields they are copied to, and
      the input type. */
  datatype Appearance = Appearance(
    borderWidth: real,
    borderColor: Color,
    cornerRadius: real,
    layerBorderWidth: real,
    layerCornerRadius: real,
    customFont: Font,
    font: Font,
    inputType: InputType)

  /** The whole state of one field. `notices` is what the delegate has been
      told, oldest first. */
  datatype Field = Field(
    look: Look,
    palette: Palette,
    enabled: bool,
    valid: bool,
    text: Option<string>,
    hooks: Hooks,
    appearance: Appearance,
    notices: seq<Notice>)

  /** A call a host makes on the field, or an event UIKit delivers to it. */
  datatype Call =
    | AssignText(t: Option<string>)
    | AssignEnabled(b: bool)
    | AssignValid(b: bool)
    | AssignColor(slot: Slot, c: Color)
    | AssignBorderWidth(w: real)
    | AssignBorderColor(c: Color)
    | AssignCornerRadius(r: real)
    | AssignCustomFont(font: Font)
    | AssignInputType(inputType: InputType)
    | AssignValidator(validator: Option<Validator>)
    | AssignFormatter(formatter: Option<Formatter>)
    | AssignDelegate(present: bool)
    | BeginEditing
    | EndEditing
    | EditingChanged
    | ReturnPressed
    | ClearTapped
  {
    /** The call runs `updateEnabled`. */
    predicate RestylesEnabled() {
      AssignEnabled? || (AssignColor? && slot.Observed())
    }

    /** The call never writes a visual field, whatever the state. */
    predicate LeavesLook() {
      || AssignText? || (AssignColor? && !slot.Observed()) || AssignBorderWidth?
      || AssignCornerRadius? || AssignCustomFont? || AssignInputType?
      || AssignValidator? || AssignFormatter? || AssignDelegate?
      || ReturnPressed? || ClearTapped?
    }
  }

  /** `updateActive(active)` on the whole state. */
  function ApplyActive(f: Field, active: bool): Field {
    f.(look := ActiveTheme(f.look, f.palette, active))
  }

  /** `updateEnabled(enabled)` on the whole state. */
  function ApplyEnabled(f: Field, enabled: bool): Field {
    f.(look := EnabledTheme(f.look, f.palette, enabled))
  }

  /** `updateValid(valid)` on the whole state. */
  function ApplyValid(f: Field, valid: bool): Field {
    f.(look := ValidTheme(f.look, f.palette, valid))
  }

  /** `textFieldDelegate?.…`: the notice reaches the log only when a delegate
      is attached. */
  function Notify(f: Field, n: Notice): Field {
    if f.hooks.hasDelegate then f.(notices := f.notices + [n]) else f
  }

  // One function per call; `Step` dispatches to them.

  /** `text = t` and its observer. */
  function AssigningText(f: Field, t: Option<string>): Field {
    f.(text := FormattedText(f.hooks.formatter, t))
  }

  /** `enabled = b` and its observer. */
  function AssigningEnabled(f: Field, b: bool): Field {
    ApplyEnabled(f.(enabled := b), b)
  }

  /** `valid = b` and its observer, which restyles only while enabled. */
  function AssigningValid(f: Field, b: bool): Field {
    var g := f.(valid := b);
    if g.enabled then ApplyValid(g, b) else g
  }

  /** A theme colour property and, for the six enabled/disabled ones, the
      observer re-running `updateEnabled(enabled)`. */
  function AssigningColor(f: Field, slot: Slot, c: Color): Field {
    var g := f.(palette := f.palette.With(slot, c));
    if slot.Observed() then ApplyEnabled(g, g.enabled) else g
  }

  /** `textFieldDidUpdate`. */
  function EditingChangedOn(f: Field): Field {
    var g := if !f.valid then ApplyValid(f, true) else f;
    Notify(g, DidUpdateWithText(g.text))
  }

  /** `clearButtonAction`. */
  function ClearTappedOn(f: Field): Field {
    var g := AssigningText(f, None);
    Notify(g, DidUpdateWithText(g.text))
  }

  /** The effect of one call. */
  function Step(f: Field, call: Call): Field {
    match call
    case AssignText(t) => AssigningText(f, t)
    case AssignEnabled(b) => AssigningEnabled(f, b)
    case AssignValid(b) => AssigningValid(f, b)
    case AssignColor(slot, c) => AssigningColor(f, slot, c)
    case AssignBorderWidth(w) =>
      f.(appearance := f.appearance.(borderWidth := w, layerBorderWidth := w))
    case AssignBorderColor(c) =>
      f.(appearance := f.appearance.(borderColor := c), look := f.look.(layerBorderColor := c))
    case AssignCornerRadius(r) =>
      f.(appearance := f.appearance.(cornerRadius := r, layerCornerRadius := r))
    case AssignCustomFont(font) => f.(appearance := f.appearance.(customFont := font))
    case AssignInputType(t) => f.(appearance := f.appearance.(inputType := t))
    case AssignValidator(v) => f.(hooks := f.hooks.(inputValidator := v))
    case AssignFormatter(fmt) => f.(hooks := f.hooks.(formatter := fmt))
    case AssignDelegate(present) => f.(hooks := f.hooks.(hasDelegate := present))
    case BeginEditing => ApplyActive(f, true)
    case EndEditing => ApplyActive(f, false)
    case EditingChanged => EditingChangedOn(f)
    case ReturnPressed => Notify(f, DidReturn)
    case ClearTapped => ClearTappedOn(f)
  }

  /** The effect of a sequence of calls, first call first. */
  function Run(f: Field, calls: seq<Call>): Field
    decreases |calls|
  {
    if calls == [] then f else Run(Step(f, calls[0]), calls[1..])
  }
}
