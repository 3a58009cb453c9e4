/**
 * The widgets whose properties the client's steps drive: a label (with the Pass/Fail
 * colouring of `sar.steps.Utils.decoratePassFailLabel`), `sar.widget.StepButton` and
 * `sar.widget.FetchButton`. A qooxdoo property setter calls its apply hook, and fires its
 * change event, only when the new value differs from the current one; every `Set` method
 * below follows that rule.
 */
module Widgets {
  import opened Wrappers
  import opened Text

  datatype Colour = DefaultColour | Blue | Red

  /**
   * The colour a decorated label takes for a new value: the colour is reset first; a
   * non-empty value containing "Pass" turns blue, otherwise one containing "Fail" turns red.
   */
  function PassFailColour(value: Option<string>): Colour
  {
    if value.None? || value.value == "" then DefaultColour
    else if Contains(value.value, "Pass") then Blue
    else if Contains(value.value, "Fail") then Red
    else DefaultColour
  }

  /** "Pass" wins over "Fail"; "Fail" alone gives red; anything else keeps the default colour. */
  lemma PassFailRule(value: Option<string>)
    ensures PassFailColour(value) == Blue <==> value.Some? && Contains(value.value, "Pass")
    ensures PassFailColour(value) == Red <==>
      value.Some? && !Contains(value.value, "Pass") && Contains(value.value, "Fail")
  {
    if value.Some? && value.value == "" {
      assert Find(value.value, "Pass").None? && Find(value.value, "Fail").None?;
    }
  }

  /** A `qx.ui.basic.Label`; `decorated` says whether `decoratePassFailLabel` was applied to it. */
  class Label {
    var value: Option<string>
    var textColor: Colour
    const decorated: bool

    ghost predicate Valid()
      reads this
    {
      decorated ==> textColor == PassFailColour(value)
    }

    constructor(decorated: bool)
      ensures value == None && textColor == DefaultColour && this.decorated == decorated
      ensures Valid()
    {
      value := None;
      textColor := DefaultColour;
      this.decorated := decorated;
    }

    /** `setValue`: a decorated label recolours on `changeValue`, which fires only on a change. */
    method SetValue(v: Option<string>)
      requires Valid()
      modifies this
      ensures value == v && Valid()
      ensures decorated ==> textColor == PassFailColour(v)
      ensures !decorated ==> textColor == old(textColor)
    {
      if v != value {
        value := v;
        if decorated {
          textColor := PassFailColour(v);
        }
      }
    }

    /** `resetValue`: back to the initial null value, and for a decorated label the default colour. */
    method ResetValue()
      requires Valid()
      modifies this
      ensures value == None && Valid()
      ensures decorated ==> textColor == DefaultColour
      ensures !decorated ==> textColor == old(textColor)
    {
      SetValue(None);
    }
  }

  /** A `qx.ui.basic.Image`: its source, None once reset. */
  class Image {
    var source: Option<string>

    constructor()
      ensures source == None
    {
      source := None;
    }

    method SetSource(s: string)
      modifies this
      ensures source == Some(s)
    {
      source := Some(s);
    }

    method ResetSource()
      modifies this
      ensures source == None
    {
      source := None;
    }
  }

  // ----- StepButton -----

  const ButtonSize := 112
  const ButtonPadding := 6
  const ActiveBackground := "#cabbf9"
  const InactiveBackground := "#FFFFFF"

  /** Vector icons are drawn five pixels smaller. */
  function IconOffset(iconSrc: string): (r: nat)
    ensures r == 5 <==> Contains(iconSrc, ".svg")
    ensures r == 0 <==> !Contains(iconSrc, ".svg")
  {
    if Contains(iconSrc, ".svg") then 5 else 0
  }

  function Background(active: bool): string
  {
    if active then ActiveBackground else InactiveBackground
  }

  /** The large tile of one step; `iconSrc` and `text` are "" when not given. */
  class StepButton {
    var isActive: bool
    var background: string
    var enabled: bool
    /** The maximum width and height of the icon image, when there is one. */
    const icon: Option<(int, int)>
    /** The width of the text label, when there is one. */
    const labelWidth: Option<int>

    ghost predicate Valid()
      reads this
    {
      background == Background(isActive)
    }

    /**
     * The constructor: `initIsActive` applies the initial `false`; the icon fits in
     * (100 - offset) x (52 - offset); the label is 100 wide.
     */
    constructor(text: string, iconSrc: string)
      ensures !isActive && background == InactiveBackground && enabled && Valid()
      ensures icon.Some? <==> iconSrc != ""
      ensures icon.Some? ==> icon.value == (100 - IconOffset(iconSrc), 52 - IconOffset(iconSrc))
      ensures labelWidth.Some? <==> text != ""
      ensures labelWidth.Some? ==> labelWidth.value == 100
    {
      isActive := false;
      background := Background(false);
      enabled := true;
      var offset := IconOffset(iconSrc);
      icon := if iconSrc != "" then Some((ButtonSize - 2 * ButtonPadding - offset, ButtonSize - 60 - offset)) else None;
      labelWidth := if text != "" then Some(ButtonSize - 2 * ButtonPadding) else None;
    }

    /** `setIsActive`: the background follows the flag; nothing else changes. */
    method SetIsActive(active: bool)
      requires Valid()
      modifies this
      ensures isActive == active && Valid()
      ensures background == (if active then ActiveBackground else InactiveBackground)
      ensures enabled == old(enabled)
    {
      if active != isActive {
        isActive := active;
        background := Background(active);
      }
    }

    method SetEnabled(e: bool)
      modifies this
      ensures enabled == e
      ensures isActive == old(isActive) && background == old(background)
    {
      enabled := e;
    }
  }

  // ----- FetchButton -----

  const SpinnerIcon := "sar/circle-notch-solid.svg"

  /**
   * A button that shows a spinning icon while its request runs. `attached` says whether it
   * has a layout parent, which every button of the steps has once built.
   */
  class FetchButton {
    var fetching: bool
    var enabled: bool
    var icon: Option<string>
    var savedIcon: Option<string>
    var rotating: bool
    const attached: bool

    ghost predicate Valid()
      reads this
    {
      (fetching <==> rotating) && (fetching ==> icon == Some(SpinnerIcon))
    }

    constructor(icon: Option<string>, attached: bool)
      ensures !fetching && enabled && this.icon == icon && savedIcon == None && !rotating
      ensures this.attached == attached && Valid()
    {
      fetching := false;
      enabled := true;
      this.icon := icon;
      savedIcon := None;
      rotating := false;
      this.attached := attached;
    }

    /**
     * `setFetching`: on a change, entering saves the icon and shows the rotating spinner,
     * leaving restores the saved icon and stops the rotation, and an attached button is
     * enabled exactly when it is not fetching. Without a change nothing happens.
     */
    method SetFetching(v: bool)
      requires Valid()
      modifies this
      ensures fetching == v && Valid()
      ensures v == old(fetching) ==>
        enabled == old(enabled) && icon == old(icon) && savedIcon == old(savedIcon) && rotating == old(rotating)
      ensures v != old(fetching) ==> enabled == (if attached then !v else old(enabled))
      ensures v && !old(fetching) ==> savedIcon == old(icon) && icon == Some(SpinnerIcon) && rotating
      ensures !v && old(fetching) ==> icon == old(savedIcon) && savedIcon == old(savedIcon) && !rotating
    {
      if v != fetching {
        fetching := v;
        if v {
          savedIcon := icon;
          icon := Some(SpinnerIcon);
          rotating := true;
        } else {
          icon := savedIcon;
          rotating := false;
        }
        if attached {
          enabled := !v;
        }
      }
    }

    method SetEnabled(e: bool)
      modifies this
      ensures enabled == e
      ensures fetching == old(fetching) && icon == old(icon) && savedIcon == old(savedIcon)
      ensures rotating == old(rotating)
    {
      enabled := e;
    }

    /**
     * A request's whole cycle, `setFetching(true)` then `setFetching(false)`: the icon comes
     * back, the spinner stops, and an attached button ends enabled whatever it was before.
     */
    method FetchCycle()
      requires Valid() && !fetching
      modifies this
      ensures Valid() && !fetching && !rotating && icon == old(icon)
      ensures attached ==> enabled
      ensures !attached ==> enabled == old(enabled)
    {
      SetFetching(true);
      SetFetching(false);
    }
  }
}
