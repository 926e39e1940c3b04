/**
 Properties of the field's calls: first what one call changes and what it
 leaves alone, then what holds over any sequence of calls.
 */
module FieldLemmas {
  import opened FieldState

  // ---------------------------------------------------------------------
  // One call
  // ---------------------------------------------------------------------

  /** The colours `updateEnabled` writes depend only on the palette and the
      flag, never on what was shown before. */
  lemma EnabledThemeForgetsLook(a: Look, b: Look, p: Palette, enabled: bool)
    requires a.rightViewIsClearButton == b.rightViewIsClearButton
    ensures EnabledTheme(a, p, enabled) == EnabledTheme(b, p, enabled)
  {
  }

  /** `enabled = b` stores the flag, applies the enabled or disabled theme and
      touches nothing else; `valid` in particular is kept. */
  lemma AssignEnabledEffect(f: Field, b: bool)
    ensures Step(f, AssignEnabled(b)) == f.(enabled := b, look := EnabledTheme(f.look, f.palette, b))
    ensures Step(f, AssignEnabled(b)).valid == f.valid
  {
  }

  /** `enabled = false` then `enabled = true` shows exactly the enabled theme,
      the same as enabling straight away. */
  lemma DisableThenEnableRestores(f: Field)
    ensures Run(f, [AssignEnabled(false), AssignEnabled(true)]) == Step(f, AssignEnabled(true))
    ensures Run(f, [AssignEnabled(false), AssignEnabled(true)]).look
            == EnabledTheme(f.look, f.palette, true)
  {
    var g := Step(f, AssignEnabled(false));
    assert Run(f, [AssignEnabled(false), AssignEnabled(true)]) == Run(g, [AssignEnabled(true)]);
    assert Run(g, [AssignEnabled(true)]) == Step(g, AssignEnabled(true));
  }

  /** `valid = b` stores the flag; while disabled nothing visual changes, while
      enabled the valid or invalid theme is applied. */
  lemma AssignValidEffect(f: Field, b: bool)
    ensures Step(f, AssignValid(b)).valid == b
    ensures !f.enabled ==> Step(f, AssignValid(b)) == f.(valid := b)
    ensures f.enabled ==> Step(f, AssignValid(b))
                          == f.(valid := b, look := ValidTheme(f.look, f.palette, b))
  {
  }

  /** Assigning a theme colour stores it; one of the six enabled/disabled
      colours re-runs `updateEnabled(enabled)`, so the field then shows the
      current enabled state's colours even while disabled; any other colour
      changes no visual field. */
  lemma AssignColorEffect(f: Field, slot: Slot, c: Color)
    ensures Step(f, AssignColor(slot, c)).palette == f.palette.With(slot, c)
    ensures slot.Observed() ==> Step(f, AssignColor(slot, c)).look
                                == EnabledTheme(f.look, f.palette.With(slot, c), f.enabled)
    ensures !slot.Observed() ==> Step(f, AssignColor(slot, c)) == f.(palette := f.palette.With(slot, c))
  {
  }

  /** The `borderColor` observer overwrites the layer's border colour and no
      other visual field; `borderWidth` and `cornerRadius` copy themselves to
      the layer. */
  lemma LayerSettersEffect(f: Field, c: Color, x: real)
    ensures Step(f, AssignBorderColor(c)).look == f.look.(layerBorderColor := c)
    ensures Step(f, AssignBorderColor(c)).appearance.borderColor == c
    ensures Step(f, AssignBorderWidth(x))
            == f.(appearance := f.appearance.(borderWidth := x, layerBorderWidth := x))
    ensures Step(f, AssignCornerRadius(x))
            == f.(appearance := f.appearance.(cornerRadius := x, layerCornerRadius := x))
  {
  }

  /** The `customFont` observer assigns `font` to itself: the stored custom
      font changes, the font shown does not. */
  lemma AssignCustomFontKeepsFont(f: Field, font: Font)
    ensures Step(f, AssignCustomFont(font)).appearance.font == f.appearance.font
    ensures Step(f, AssignCustomFont(font)) == f.(appearance := f.appearance.(customFont := font))
  {
  }

  /** `text = t` with a formatter stores `formatString(t ?? "", false)`;
      without one it stores `t` unchanged, nil included. Nothing else moves. */
  lemma AssignTextEffect(f: Field, t: Option<string>)
    ensures f.hooks.formatter.Some? ==>
              Step(f, AssignText(t)).text == Some(f.hooks.formatter.value.formatString(OrEmpty(t), false))
    ensures f.hooks.formatter.None? ==> Step(f, AssignText(t)).text == t
    ensures Step(f, AssignText(t)) == f.(text := Step(f, AssignText(t)).text)
  {
  }

  /** Begin and end editing apply the active and the inactive theme, keep the
      text colour and tell the delegate nothing. */
  lemma FocusEffect(f: Field, active: bool)
    ensures Step(f, if active then BeginEditing else EndEditing).look == ActiveTheme(f.look, f.palette, active)
    ensures Step(f, if active then BeginEditing else EndEditing).notices == f.notices
    ensures Step(f, if active then BeginEditing else EndEditing).valid == f.valid
  {
  }

  /** `textFieldDidUpdate`: when `valid` is false the valid theme is applied
      but the flag stays false; then exactly one text-changed notice carrying
      the current text is sent, if a delegate is attached. */
  lemma EditingChangedEffect(f: Field)
    ensures Step(f, EditingChanged).valid == f.valid
    ensures Step(f, EditingChanged).text == f.text
    ensures !f.valid ==> Step(f, EditingChanged).look == ValidTheme(f.look, f.palette, true)
    ensures f.valid ==> Step(f, EditingChanged).look == f.look
    ensures Step(f, EditingChanged).notices
            == f.notices + (if f.hooks.hasDelegate then [DidUpdateWithText(f.text)] else [])
  {
  }

  /** `textFieldDidReturn` only forwards one return notice. */
  lemma ReturnPressedEffect(f: Field)
    ensures Step(f, ReturnPressed)
            == f.(notices := f.notices + (if f.hooks.hasDelegate then [DidReturn] else []))
  {
  }

  /** `clearButtonAction` assigns nil through the text observer, so the text
      becomes `formatString("", false)` with a formatter and nil without; it
      sends exactly one text-changed notice with that text and changes no
      style field. */
  lemma ClearTappedEffect(f: Field)
    ensures f.hooks.formatter.Some? ==> Step(f, ClearTapped).text == Some(f.hooks.formatter.value.formatString("", false))
    ensures f.hooks.formatter.None? ==> Step(f, ClearTapped).text == None
    ensures Step(f, ClearTapped).look == f.look
    ensures Step(f, ClearTapped).palette == f.palette
    ensures Step(f, ClearTapped).valid == f.valid
    ensures Step(f, ClearTapped).notices
            == f.notices + (if f.hooks.hasDelegate then [DidUpdateWithText(Step(f, ClearTapped).text)] else [])
  {
  }

  // ---------------------------------------------------------------------
  // Sequences of calls
  // ---------------------------------------------------------------------

  /** Running two sequences one after the other is running their
      concatenation. */
  lemma {:induction false} RunAppend(f: Field, a: seq<Call>, b: seq<Call>)
    ensures Run(f, a + b) == Run(Run(f, a), b)
    decreases |a|
  {
    if a == [] {
      assert a + b == b;
    } else {
      assert (a + b)[0] == a[0];
      assert (a + b)[1..] == a[1..] + b;
      RunAppend(Step(f, a[0]), a[1..], b);
    }
  }

  /** Only `updateEnabled` writes the text colour: over calls none of which
      runs it, the text colour never changes. */
  lemma {:induction false} TextColorOnlyFromEnabledTheme(f: Field, calls: seq<Call>)
    requires forall i :: 0 <= i < |calls| ==> !calls[i].RestylesEnabled()
    ensures Run(f, calls).look.textColor == f.look.textColor
    decreases |calls|
  {
    if calls != [] {
      var g := Step(f, calls[0]);
      assert g.look.textColor == f.look.textColor;
      TextColorOnlyFromEnabledTheme(g, calls[1..]);
    }
  }

  /** The `valid` flag changes only through `valid = …`; in particular
      `textFieldDidUpdate` never sets it back to true. */
  lemma {:induction false} ValidOnlyByAssignment(f: Field, calls: seq<Call>)
    requires forall i :: 0 <= i < |calls| ==> !calls[i].AssignValid?
    ensures Run(f, calls).valid == f.valid
    decreases |calls|
  {
    if calls != [] {
      ValidOnlyByAssignment(Step(f, calls[0]), calls[1..]);
    }
  }

  /** Calls that never restyle, together with `valid = …` while the field is
      disabled, leave every visual field and the enabled flag as they were. */
  lemma {:induction false} LookHeldWhileQuiet(f: Field, calls: seq<Call>)
    requires forall i :: 0 <= i < |calls| ==>
               calls[i].LeavesLook() || (!f.enabled && calls[i].AssignValid?)
    ensures Run(f, calls).look == f.look
    ensures Run(f, calls).enabled == f.enabled
    decreases |calls|
  {
    if calls != [] {
      var g := Step(f, calls[0]);
      assert g.look == f.look && g.enabled == f.enabled;
      LookHeldWhileQuiet(g, calls[1..]);
    }
  }

  /** Any number of `valid = …` while disabled shows nothing; enabling
      afterwards shows the enabled theme, not the invalid one, and keeps the
      last assigned validity. */
  lemma {:induction false} ReenableShowsEnabledTheme(f: Field, valids: seq<Call>)
    requires !f.enabled
    requires forall i :: 0 <= i < |valids| ==> valids[i].AssignValid?
    ensures Run(f, valids).look == f.look
    ensures Run(f, valids + [AssignEnabled(true)]).look == EnabledTheme(f.look, f.palette, true)
    ensures Run(f, valids + [AssignEnabled(true)]).valid
            == (if valids == [] then f.valid else valids[|valids| - 1].b)
  {
    LookHeldWhileQuiet(f, valids);
    PaletteOnlyByColors(f, valids);
    RunAppend(f, valids, [AssignEnabled(true)]);
    var g := Run(f, valids);
    assert Run(g, [AssignEnabled(true)]) == Step(g, AssignEnabled(true));
    if valids != [] {
      LastValidWins(f, valids);
    }
  }

  /** After a non-empty run of `valid = …`, the flag is the last value
      assigned. */
  lemma {:induction false} LastValidWins(f: Field, valids: seq<Call>)
    requires valids != []
    requires forall i :: 0 <= i < |valids| ==> valids[i].AssignValid?
    ensures Run(f, valids).valid == valids[|valids| - 1].b
    decreases |valids|
  {
    var g := Step(f, valids[0]);
    if |valids| == 1 {
      assert Run(g, valids[1..]) == g;
    } else {
      LastValidWins(g, valids[1..]);
    }
  }

  /** The theme colours change only through colour assignments. */
  lemma {:induction false} PaletteOnlyByColors(f: Field, calls: seq<Call>)
    requires forall i :: 0 <= i < |calls| ==> !calls[i].AssignColor?
    ensures Run(f, calls).palette == f.palette
    decreases |calls|
  {
    if calls != [] {
      PaletteOnlyByColors(Step(f, calls[0]), calls[1..]);
    }
  }

  /** No call removes the clear button once it is the right view. */
  lemma StepKeepsClearButton(f: Field, call: Call)
    requires f.look.rightViewIsClearButton
    ensures Step(f, call).look.rightViewIsClearButton
  {
  }

  /** Once the first `updateActive` has installed the clear button as right
      view, it stays installed whatever follows. */
  lemma {:induction false} ClearButtonStays(f: Field, calls: seq<Call>)
    requires f.look.rightViewIsClearButton
    ensures Run(f, calls).look.rightViewIsClearButton
    decreases |calls|
  {
    if calls != [] {
      StepKeepsClearButton(f, calls[0]);
      ClearButtonStays(Step(f, calls[0]), calls[1..]);
    }
  }

  /** One call appends at most one notice and never removes one. */
  lemma StepNoticeGrowth(f: Field, call: Call)
    ensures f.notices <= Step(f, call).notices
    ensures |Step(f, call).notices| <= |f.notices| + 1
  {
  }

  /** The delegate's log only grows, by at most one notice per call. */
  lemma {:induction false} NoticesOnlyGrow(f: Field, calls: seq<Call>)
    ensures f.notices <= Run(f, calls).notices
    ensures |Run(f, calls).notices| <= |f.notices| + |calls|
    decreases |calls|
  {
    if calls != [] {
      StepNoticeGrowth(f, calls[0]);
      NoticesOnlyGrow(Step(f, calls[0]), calls[1..]);
    }
  }

  /** Styling never changes what `validate()` and the keystroke gate read:
      without text, clear or validator assignments, the text and the
      validator stay as they were. */
  lemma {:induction false} QueryInputsUnchanged(f: Field, calls: seq<Call>)
    requires forall i :: 0 <= i < |calls| ==>
               !calls[i].AssignText? && !calls[i].ClearTapped? && !calls[i].AssignValidator?
    ensures Run(f, calls).text == f.text
    ensures Run(f, calls).hooks.inputValidator == f.hooks.inputValidator
    decreases |calls|
  {
    if calls != [] {
      QueryInputsUnchanged(Step(f, calls[0]), calls[1..]);
    }
  }
}
