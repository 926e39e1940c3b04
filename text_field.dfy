/**
 The Pod's `TextField`: a UIKit text field with themed visual states, an
 optional validator and formatter, a clear button and a delegate.

 The fields are the class's stored properties (the fifteen theme colours held
 as one `Palette`) and the platform fields its observers write. Every
 state-changing method is proved against the value model in field_state.dfy:
 its new `State()` is the matching transition of the old one, the same
 function `Step` uses for that call.
 */
module TextFieldControl {
  import opened FieldState

  class TextField {
    // Platform fields the appliers and observers write.
    var backgroundColor: Color
    var layerBackgroundColor: Color
    var layerBorderColor: Color
    var textColor: Color
    var rightViewIsClearButton: bool
    var layerBorderWidth: real
    var layerCornerRadius: real
    var font: Font

    // Layer and font properties.
    var customFont: Font
    var borderWidth: real
    var borderColor: Color
    var cornerRadius: real

    /** The fifteen theme colour properties. */
    var palette: Palette

    // Behaviour.
    var enabled: bool
    var valid: bool
    var text: Option<string>
    var inputType: InputType
    var inputValidator: Option<Validator>
    var formatter: Option<Formatter>
    /** Whether the weak `textFieldDelegate` currently refers to a delegate. */
    var hasDelegate: bool
    /** What the delegate has been told, oldest first. */
    ghost var notices: seq<Notice>

    function CurrentLook(): Look
      reads this
    {
      Look(backgroundColor, layerBackgroundColor, layerBorderColor, textColor, rightViewIsClearButton)
    }

    /** The whole state as a value. */
    ghost function State(): Field
      reads this
    {
      Field(CurrentLook(), palette, enabled, valid, text,
            Hooks(inputValidator, formatter, hasDelegate),
            Appearance(borderWidth, borderColor, cornerRadius, layerBorderWidth, layerCornerRadius,
                       customFont, font, inputType),
            notices)
    }

    /** `init(frame:)`: every theme colour and `borderColor` start as the
        placeholder colour, `customFont` as the 16-point system font, widths
        and radii at zero, enabled and valid, no text, no validator,
        formatter or delegate, and no right view yet. The platform's own
        initial colours and font are parameters. No observer runs. */
    constructor (placeholder: Color, systemFont16: Font, platformFont: Font, platformLook: Look)
      ensures palette == UniformPalette(placeholder)
      ensures CurrentLook() == platformLook.(rightViewIsClearButton := false)
      ensures borderColor == placeholder && customFont == systemFont16 && font == platformFont
      ensures borderWidth == cornerRadius == layerBorderWidth == layerCornerRadius == 0.0
      ensures enabled && valid && text == None && inputType == Default
      ensures inputValidator == None && formatter == None && !hasDelegate
      ensures notices == []
    {
      backgroundColor := platformLook.backgroundColor;
      layerBackgroundColor := platformLook.layerBackgroundColor;
      layerBorderColor := platformLook.layerBorderColor;
      textColor := platformLook.textColor;
      rightViewIsClearButton := false;
      layerBorderWidth, layerCornerRadius := 0.0, 0.0;
      font := platformFont;
      customFont := systemFont16;
      borderWidth, borderColor, cornerRadius := 0.0, placeholder, 0.0;
      palette := UniformPalette(placeholder);
      enabled, valid, text, inputType := true, true, None, Default;
      inputValidator, formatter, hasDelegate := None, None, false;
      notices := [];
    }

    // -------------------------------------------------------------------
    // The three appliers
    // -------------------------------------------------------------------

    /** `updateActive`: installs the clear button as right view and shows the
        active or inactive background and border. */
    method UpdateActive(active: bool)
      modifies this
      ensures State() == ApplyActive(old(State()), active)
    {
      rightViewIsClearButton := true;
      if active {
        backgroundColor := palette.activeBackgroundColor;
        layerBackgroundColor := palette.activeBackgroundColor;
        layerBorderColor := palette.activeBorderColor;
      } else {
        backgroundColor := palette.inactiveBackgroundColor;
        layerBackgroundColor := palette.inactiveBackgroundColor;
        layerBorderColor := palette.inactiveBorderColor;
      }
    }

    /** `updateEnabled`: shows the enabled or disabled background, border and
        text colour. */
    method UpdateEnabled(enabled: bool)
      modifies this
      ensures State() == ApplyEnabled(old(State()), enabled)
    {
      if enabled {
        backgroundColor := palette.enabledBackgroundColor;
        layerBorderColor := palette.enabledBorderColor;
        layerBackgroundColor := palette.enabledBackgroundColor;
        textColor := palette.enabledTextColor;
      } else {
        backgroundColor := palette.disabledBackgroundColor;
        layerBorderColor := palette.disabledBorderColor;
        layerBackgroundColor := palette.disabledBackgroundColor;
        textColor := palette.disabledTextColor;
      }
    }

    /** `updateValid`: shows the valid or invalid background and border. */
    method UpdateValid(valid: bool)
      modifies this
      ensures State() == ApplyValid(old(State()), valid)
    {
      if valid {
        backgroundColor := palette.validBackgroundColor;
        layerBackgroundColor := palette.validBackgroundColor;
        layerBorderColor := palette.validBorderColor;
      } else {
        backgroundColor := palette.invalidBackgroundColor;
        layerBackgroundColor := palette.invalidBackgroundColor;
        layerBorderColor := palette.invalidBorderColor;
      }
    }

    // -------------------------------------------------------------------
    // Property setters and their observers
    // -------------------------------------------------------------------

    /** `text = t`: with a formatter the observer replaces the value by
        `formatString(t ?? "", false)`. */
    method SetText(t: Option<string>)
      modifies this
      ensures State() == AssigningText(old(State()), t)
      ensures formatter.None? ==> text == t
    {
      text := t;
      if formatter.Some? {
        text := Some(formatter.value.formatString(OrEmpty(text), false));
      }
    }

    /** `enabled = b`: re-applies `updateEnabled`. */
    method SetEnabled(b: bool)
      modifies this
      ensures State() == AssigningEnabled(old(State()), b)
      ensures valid == old(valid)
    {
      enabled := b;
      UpdateEnabled(enabled);
    }

    /** `valid = b`: restyles only while enabled. */
    method SetValid(b: bool)
      modifies this
      ensures State() == AssigningValid(old(State()), b)
      ensures !enabled ==> CurrentLook() == old(CurrentLook())
    {
      valid := b;
      if enabled {
        UpdateValid(valid);
      }
    }

    /** Assigns one theme colour property; the six enabled/disabled colours
        have an observer that re-applies `updateEnabled(enabled)`. */
    method SetColor(slot: Slot, c: Color)
      modifies this
      ensures State() == AssigningColor(old(State()), slot, c)
    {
      palette := palette.With(slot, c);
      if slot.Observed() {
        UpdateEnabled(enabled);
      }
    }

    /** `borderWidth = w`: copied to the layer. */
    method SetBorderWidth(w: real)
      modifies this
      ensures State() == Step(old(State()), AssignBorderWidth(w))
    {
      borderWidth := w;
      layerBorderWidth := borderWidth;
    }

    /** `borderColor = c`: overwrites the layer's border colour directly. */
    method SetBorderColor(c: Color)
      modifies this
      ensures State() == Step(old(State()), AssignBorderColor(c))
      ensures layerBorderColor == c
    {
      borderColor := c;
      layerBorderColor := borderColor;
    }

    /** `cornerRadius = r`: copied to the layer. */
    method SetCornerRadius(r: real)
      modifies this
      ensures State() == Step(old(State()), AssignCornerRadius(r))
    {
      cornerRadius := r;
      layerCornerRadius := cornerRadius;
    }

    /** `customFont = f`: the observer assigns `font` to itself. */
    method SetCustomFont(f: Font)
      modifies this
      ensures State() == Step(old(State()), AssignCustomFont(f))
      ensures font == old(font)
    {
      customFont := f;
      font := font;
    }

    /** `inputType = t`; the keyboard configuration that follows is not part
        of this model. */
    method SetInputType(t: InputType)
      modifies this
      ensures State() == Step(old(State()), AssignInputType(t))
    {
      inputType := t;
    }

    method SetInputValidator(v: Option<Validator>)
      modifies this
      ensures State() == Step(old(State()), AssignValidator(v))
    {
      inputValidator := v;
    }

    /** Attaching or removing a formatter does not reformat the current text. */
    method SetFormatter(fmt: Option<Formatter>)
      modifies this
      ensures State() == Step(old(State()), AssignFormatter(fmt))
      ensures text == old(text)
    {
      formatter := fmt;
    }

    method SetDelegate(present: bool)
      modifies this
      ensures State() == Step(old(State()), AssignDelegate(present))
    {
      hasDelegate := present;
    }

    // -------------------------------------------------------------------
    // Queries
    // -------------------------------------------------------------------

    /** `validate()`: true without a validator, otherwise the validator's
        verdict on `text ?? ""`. Reads the state and changes nothing. */
    function Validate(): (ok: bool)
      reads this
      ensures inputValidator.None? ==> ok
      ensures inputValidator.Some? ==> (ok <==> inputValidator.value.validateString(OrEmpty(text)))
    {
      match inputValidator
      case None => true
      case Some(v) => v.validateString(OrEmpty(text))
    }

    /** `shouldChangeCharactersInRange`: a replacement of exactly "\n" is
        always accepted; otherwise the validator, if any, decides on the
        replacement, the current text and the range; with no validator every
        replacement is accepted. */
    function ShouldChangeCharacters(range: Range, replacement: string): (accept: bool)
      reads this
      ensures replacement == "\n" ==> accept
      ensures inputValidator.None? ==> accept
      ensures replacement != "\n" && inputValidator.Some? ==>
                (accept <==> inputValidator.value.validateReplacementString(replacement, text, range))
    {
      if replacement == "\n" then true
      else match inputValidator
        case None => true
        case Some(v) => v.validateReplacementString(replacement, text, range)
    }

    // -------------------------------------------------------------------
    // Events
    // -------------------------------------------------------------------

    /** `textFieldDidBeginEditing`: the active theme. */
    method TextFieldDidBeginEditing()
      modifies this
      ensures State() == ApplyActive(old(State()), true)
    {
      UpdateActive(true);
    }

    /** `textFieldDidEndEditing`: the inactive theme. */
    method TextFieldDidEndEditing()
      modifies this
      ensures State() == ApplyActive(old(State()), false)
    {
      UpdateActive(false);
    }

    /** `textFieldDidUpdate`: restyles as valid when `valid` is false, without
        assigning `valid`, then forwards the text to the delegate. */
    method TextFieldDidUpdate()
      modifies this
      ensures State() == EditingChangedOn(old(State()))
      ensures valid == old(valid)
    {
      if !valid {
        UpdateValid(true);
      }
      if hasDelegate {
        notices := notices + [DidUpdateWithText(text)];
      }
    }

    /** `textFieldDidReturn`: forwards the return key to the delegate. */
    method TextFieldDidReturn()
      modifies this
      ensures State() == Notify(old(State()), DidReturn)
    {
      if hasDelegate {
        notices := notices + [DidReturn];
      }
    }

    /** `clearButtonAction`: assigns nil through the text observer, then
        forwards the resulting text to the delegate. */
    method ClearButtonAction()
      modifies this
      ensures State() == ClearTappedOn(old(State()))
      ensures CurrentLook() == old(CurrentLook())
    {
      SetText(None);
      if hasDelegate {
        notices := notices + [DidUpdateWithText(text)];
      }
    }
  }

  /** A host drives a new field through its methods: what the value model
      predicts is what the object shows. */
  method DisableValidateEnable(placeholder: Color, enabledBackground: Color, system: Font, look: Look)
    returns (reenabled: Color, edited: Color, isValid: bool)
    ensures reenabled == enabledBackground
    ensures edited == placeholder && !isValid
  {
    var tf := new TextField(placeholder, system, system, look);
    tf.SetColor(EnabledBackground, enabledBackground);
    tf.SetEnabled(false);
    tf.SetValid(false);
    tf.SetEnabled(true);
    reenabled := tf.backgroundColor;
    tf.TextFieldDidUpdate();
    edited, isValid := tf.backgroundColor, tf.valid;
  }
}
