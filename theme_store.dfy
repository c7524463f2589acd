/**
 * The client's theme store (stores/theme.ts): colour shading, the CSS
 * variables derived from the settings, and the actions that update the
 * settings and the list of saved templates.
 */
module ThemeStore {
  import opened Wrappers
  import opened Text
  import ThemeSchema
  import Listing
  import JsBuiltins

  /** `Math.round(2.55 * -10)`: the hover shade. */
  const HoverShift: int := -25
  /** `Math.round(2.55 * -20)`: the pressed shade. */
  const PressedShift: int := -51

  /** One colour channel kept within 0..255. */
  function Clamp(x: int): (c: nat)
    ensures c <= 255
    ensures 0 <= x <= 255 ==> c == x
    ensures x < 0 ==> c == 0
    ensures x > 255 ==> c == 255
  {
    if x < 0 then 0 else if x > 255 then 255 else x
  }

  /** The red, green and blue channels of a `#rrggbb` colour. */
  function Channels(hex: string): (c: (nat, nat, nat))
    requires ThemeSchema.IsHexColor(hex)
    ensures c.0 <= 255 && c.1 <= 255 && c.2 <= 255
  {
    var num := HexDigitsValue(hex[1..]);
    HexDigitsBound(hex[1..]);
    Pow16Six();
    (num / 0x10000, num / 0x100 % 0x100, num % 0x100)
  }

  lemma Pow16Six()
    ensures Pow16(6) == 0x1000000
  {
  }

  /** The number `#rrggbb` stands for, from its channels. */
  lemma PackChannels(r: nat, g: nat, b: nat)
    requires r <= 255 && g <= 255 && b <= 255
    ensures var v := r * 0x10000 + g * 0x100 + b;
            v < 0x1000000 && v / 0x10000 == r && v / 0x100 % 0x100 == g && v % 0x100 == b
  {
    var v := r * 0x10000 + g * 0x100 + b;
    assert v / 0x100 == r * 0x100 + g;
  }

  /** `parseInt(hex.replace('#', ''), 16)` as the shift and mask operators read it. */
  function ColorNumber(hex: string): int
  {
    JsBuiltins.ParsedInt32(JsBuiltins.RemoveFirstHash(hex))
  }

  /**
   * `adjustColor(hex, percent)` with `amt` the already rounded
   * `Math.round(2.55 * percent)`, on any string: red is `num >> 16`, green
   * `(num >> 8) & 0xff` and blue `num & 0xff` (division by a positive number
   * rounds down, as the arithmetic shift does), each shifted by `amt` and kept
   * within 0..255, written back as `#` and six lower-case hex digits.
   */
  function AdjustColor(hex: string, amt: int): (r: string)
    ensures |r| == 7 && r[0] == '#' && AllLowerHexDigits(r[1..])
    ensures ThemeSchema.IsHexColor(r)
  {
    Shade(ColorNumber(hex), amt)
  }

  /** The channels of `num`, each shifted by `amt` and clamped, written back as a colour. */
  function Shade(num: int, amt: int): (r: string)
    ensures |r| == 7 && r[0] == '#' && AllLowerHexDigits(r[1..])
    ensures ThemeSchema.IsHexColor(r)
    ensures Channels(r) == (Clamp(num / 0x10000 + amt), Clamp(num / 0x100 % 0x100 + amt), Clamp(num % 0x100 + amt))
  {
    var red := Clamp(num / 0x10000 + amt);
    var green := Clamp(num / 0x100 % 0x100 + amt);
    var blue := Clamp(num % 0x100 + amt);
    var v := red * 0x10000 + green * 0x100 + blue;
    PackChannels(red, green, blue);
    ChannelsOfValue(PackedHex(v), v);
    PackedHex(v)
  }

  /** A `#rrggbb` colour is read as the number its six digits stand for. */
  lemma ColorNumberOfHexColor(hex: string)
    requires ThemeSchema.IsHexColor(hex)
    ensures ColorNumber(hex) == HexDigitsValue(hex[1..])
  {
    JsBuiltins.ParsedInt32OfDigits(hex[1..]);
  }

  /**
   * `"#" + (0x1000000 + v).toString(16).slice(1)`: a number below 0x1000000
   * as `#` and six lower-case hex digits standing for it.
   */
  function PackedHex(v: nat): (r: string)
    requires v < 0x1000000
    ensures |r| == 7 && r[0] == '#' && AllLowerHexDigits(r[1..])
    ensures ThemeSchema.IsHexColor(r) && HexDigitsValue(r[1..]) == v
  {
    Pow16Six();
    ToHexStringOfMarked(v, 6);
    HexFixedValue(v, 6);
    var r := "#" + ToHexString(0x1000000 + v)[1..];
    assert r[1..] == HexFixed(v, 6);
    assert AllHexDigits(r[1..]) by {
      forall i | 0 <= i < |r[1..]| ensures IsHexDigit(r[1..][i]) { assert IsLowerHexDigit(r[1..][i]); }
    }
    r
  }

  /** Each channel of the result is the input's channel plus `amt`, clamped. */
  lemma AdjustColorChannels(hex: string, amt: int)
    requires ThemeSchema.IsHexColor(hex)
    ensures var c := Channels(hex);
            Channels(AdjustColor(hex, amt)) == (Clamp(c.0 + amt), Clamp(c.1 + amt), Clamp(c.2 + amt))
  {
    ColorNumberOfHexColor(hex);
    var n := HexDigitsValue(hex[1..]);
    ChannelsOfValue(hex, n);
  }

  /**
   * A string without a single hexadecimal digit is read as NaN, which the
   * shifts turn into 0: every channel is `amt` clamped, black for a darker
   * shade.
   */
  lemma AdjustColorWithoutDigits(hex: string, amt: int)
    requires forall i :: 0 <= i < |hex| ==> !IsHexDigit(hex[i])
    ensures Channels(AdjustColor(hex, amt)) == (Clamp(amt), Clamp(amt), Clamp(amt))
    ensures amt <= 0 ==> AdjustColor(hex, amt) == "#000000"
  {
    var stripped := JsBuiltins.RemoveFirstHash(hex);
    forall i | 0 <= i < |stripped| ensures !IsHexDigit(stripped[i]) {
      assert stripped[i] in hex;
    }
    JsBuiltins.ParsedInt32NaN(stripped);
    assert ColorNumber(hex) == 0;
    if amt <= 0 {
      BlackChannels(AdjustColor(hex, amt));
    }
  }

  /** The colour whose channels are all zero is written `#000000`. */
  lemma BlackChannels(r: string)
    requires ThemeSchema.IsHexColor(r) && AllLowerHexDigits(r[1..]) && Channels(r) == (0, 0, 0)
    ensures r == "#000000"
  {
    var v := HexDigitsValue(r[1..]);
    ChannelsOfValue(r, v);
    assert v == 0;
    ZeroDigits(r[1..]);
    assert forall i :: 1 <= i < 7 ==> r[i] == r[1..][i - 1];
  }

  /** Digits standing for zero are all `0`. */
  lemma {:induction false} ZeroDigits(s: string)
    requires AllLowerHexDigits(s) && AllHexDigits(s) && HexDigitsValue(s) == 0
    ensures forall i :: 0 <= i < |s| ==> s[i] == '0'
  {
    if s != [] {
      ZeroDigits(s[..|s| - 1]);
      assert HexValue(s[|s| - 1]) == 0;
    }
  }

  /** The channels of a colour are read off the number its digits stand for. */
  lemma ChannelsOfValue(hex: string, v: nat)
    requires ThemeSchema.IsHexColor(hex) && HexDigitsValue(hex[1..]) == v
    ensures Channels(hex) == (v / 0x10000, v / 0x100 % 0x100, v % 0x100)
  {
  }

  /** Shifting by zero keeps the colour (only the case of its digits may change). */
  lemma AdjustColorZero(hex: string)
    requires ThemeSchema.IsHexColor(hex)
    ensures Channels(AdjustColor(hex, 0)) == Channels(hex)
  {
    AdjustColorChannels(hex, 0);
  }

  /** A shift of 255 or more either way gives black or white. */
  lemma AdjustColorExtremes(hex: string, amt: int)
    requires ThemeSchema.IsHexColor(hex)
    ensures amt <= -255 ==> Channels(AdjustColor(hex, amt)) == (0, 0, 0)
    ensures amt >= 255 ==> Channels(AdjustColor(hex, amt)) == (255, 255, 255)
  {
    if amt <= -255 || amt >= 255 {
      AdjustColorChannels(hex, amt);
    }
  }

  /** The store's settings; a missing or empty hover or pressed colour is derived. */
  datatype Settings = Settings(
    primaryColor: string, primaryColorHover: Option<string>, primaryColorPressed: Option<string>,
    secondaryColor: string, sidebarCollapsed: bool, darkMode: bool)

  /** `Partial<ThemeSettings>`: the fields an object spread over the settings carries. */
  datatype SettingsPatch = SettingsPatch(
    primaryColor: Option<string>, primaryColorHover: Option<string>, primaryColorPressed: Option<string>,
    secondaryColor: Option<string>, sidebarCollapsed: Option<bool>, darkMode: Option<bool>)

  datatype Template = Template(id: string, name: string, settings: Settings)

  datatype CssVariables = CssVariables(primary: string, hover: string, pressed: string, secondary: string)

  const DefaultSettings := Settings("#0ea5e9", Some("#0284c7"), Some("#0369a1"), "#6366f1", false, false)

  /** `{ ...s, ...p }`: every field the patch carries overrides. */
  function Merge(s: Settings, p: SettingsPatch): (m: Settings)
    ensures p.primaryColor.Some? ==> m.primaryColor == p.primaryColor.value
    ensures p.primaryColor.None? ==> m.primaryColor == s.primaryColor
    ensures m.primaryColorHover == if p.primaryColorHover.Some? then p.primaryColorHover else s.primaryColorHover
    ensures m.primaryColorPressed == if p.primaryColorPressed.Some? then p.primaryColorPressed else s.primaryColorPressed
    ensures m.secondaryColor == p.secondaryColor.GetOr(s.secondaryColor)
    ensures m.sidebarCollapsed == p.sidebarCollapsed.GetOr(s.sidebarCollapsed)
    ensures m.darkMode == p.darkMode.GetOr(s.darkMode)
  {
    Settings(p.primaryColor.GetOr(s.primaryColor),
             if p.primaryColorHover.Some? then p.primaryColorHover else s.primaryColorHover,
             if p.primaryColorPressed.Some? then p.primaryColorPressed else s.primaryColorPressed,
             p.secondaryColor.GetOr(s.secondaryColor),
             p.sidebarCollapsed.GetOr(s.sidebarCollapsed),
             p.darkMode.GetOr(s.darkMode))
  }

  /** A full settings object spread as a patch: the optional colours only when present. */
  function AsPatch(s: Settings): SettingsPatch
  {
    SettingsPatch(Some(s.primaryColor), s.primaryColorHover, s.primaryColorPressed,
                  Some(s.secondaryColor), Some(s.sidebarCollapsed), Some(s.darkMode))
  }

  /** A stored colour counts only when it is non-empty. */
  predicate Present(c: Option<string>) { c.Some? && c.value != "" }

  /** The hover or pressed colour is derived from the primary one. */
  predicate Derives(s: Settings)
  {
    !Present(s.primaryColorHover) || !Present(s.primaryColorPressed)
  }

  /** The `cssVariables` getter. */
  function Css(s: Settings): (v: CssVariables)
    ensures v.primary == s.primaryColor && v.secondary == s.secondaryColor
    ensures Present(s.primaryColorHover) ==> v.hover == s.primaryColorHover.value
    ensures !Present(s.primaryColorHover) ==> v.hover == AdjustColor(s.primaryColor, HoverShift)
    ensures Present(s.primaryColorPressed) ==> v.pressed == s.primaryColorPressed.value
    ensures !Present(s.primaryColorPressed) ==> v.pressed == AdjustColor(s.primaryColor, PressedShift)
  {
    CssVariables(s.primaryColor,
                 if Present(s.primaryColorHover) then s.primaryColorHover.value
                 else AdjustColor(s.primaryColor, HoverShift),
                 if Present(s.primaryColorPressed) then s.primaryColorPressed.value
                 else AdjustColor(s.primaryColor, PressedShift),
                 s.secondaryColor)
  }

  /** `setPrimaryColor(color)` on the settings. */
  function WithPrimary(s: Settings, color: string): (r: Settings)
  {
    s.(primaryColor := color,
       primaryColorHover := Some(AdjustColor(color, HoverShift)),
       primaryColorPressed := Some(AdjustColor(color, PressedShift)))
  }

  /**
   * After `setPrimaryColor` the stored shades are the ones the CSS getter
   * would derive from the new colour anyway, and the secondary colour, the
   * sidebar and dark-mode flags are kept.
   */
  lemma WithPrimaryAgreesWithCss(s: Settings, color: string)
    ensures var r := WithPrimary(s, color);
            && Css(r) == Css(r.(primaryColorHover := None, primaryColorPressed := None))
            && r.secondaryColor == s.secondaryColor && r.sidebarCollapsed == s.sidebarCollapsed
            && r.darkMode == s.darkMode
  {
  }

  /** Flipping dark mode twice restores the settings; nothing else changes. */
  lemma ToggleTwice(s: Settings)
    ensures s.(darkMode := !s.darkMode).(darkMode := !s.(darkMode := !s.darkMode).darkMode) == s
  {
  }

  /** Applying a template takes all its fields, keeping only shades the template leaves out. */
  lemma ApplyTemplateOverrides(s: Settings, t: Template)
    ensures var m := Merge(s, AsPatch(t.settings));
            && m.primaryColor == t.settings.primaryColor && m.secondaryColor == t.settings.secondaryColor
            && m.sidebarCollapsed == t.settings.sidebarCollapsed && m.darkMode == t.settings.darkMode
            && m.primaryColorHover == (if t.settings.primaryColorHover.Some? then t.settings.primaryColorHover
                                       else s.primaryColorHover)
            && Merge(m, AsPatch(t.settings)) == m
  {
  }

  /** The whole store as a value. */
  datatype ThemeState = ThemeState(settings: Settings, templates: seq<Template>, loading: bool, isHydrated: bool)

  /** The store's state (`useThemeStore`). */
  class Store {
    var settings: Settings
    var templates: seq<Template>
    var loading: bool
    var isHydrated: bool

    function State(): ThemeState
      reads this
    {
      ThemeState(settings, templates, loading, isHydrated)
    }

    /** The initial state: the default settings, no templates. */
    constructor ()
      ensures State() == ThemeState(DefaultSettings, [], false, false)
    {
      settings, templates, loading, isHydrated := DefaultSettings, [], false, false;
    }

    /**
     * `hydrateFromStorage()` with `stored` what the browser's storage held
     * (`None` when nothing or nothing parseable): only the first call does
     * anything.
     */
    method HydrateFromStorage(stored: Option<SettingsPatch>)
      modifies this`settings, this`isHydrated
      ensures old(isHydrated) ==> settings == old(settings)
      ensures !old(isHydrated) ==> settings == (if stored.Some? then Merge(old(settings), stored.value) else old(settings))
      ensures isHydrated
    {
      if isHydrated {
        return;
      }
      if stored.Some? {
        settings := Merge(settings, stored.value);
      }
      isHydrated := true;
    }

    /** `applyTemplate(template)`. */
    method ApplyTemplate(template: Template)
      modifies this`settings
      ensures settings == Merge(old(settings), AsPatch(template.settings))
    {
      settings := Merge(settings, AsPatch(template.settings));
    }

    /** `setPrimaryColor(color)`: the colour and both shades derived from it. */
    method SetPrimaryColor(color: string)
      modifies this`settings
      ensures settings == WithPrimary(old(settings), color)
    {
      settings := settings.(primaryColor := color);
      settings := settings.(primaryColorHover := Some(AdjustColor(color, HoverShift)));
      settings := settings.(primaryColorPressed := Some(AdjustColor(color, PressedShift)));
    }

    method SetDarkMode(dark: bool)
      modifies this`settings
      ensures settings == old(settings).(darkMode := dark)
    {
      settings := settings.(darkMode := dark);
    }

    method SetSecondaryColor(color: string)
      modifies this`settings
      ensures settings == old(settings).(secondaryColor := color)
    {
      settings := settings.(secondaryColor := color);
    }

    method SetSidebarCollapsed(collapsed: bool)
      modifies this`settings
      ensures settings == old(settings).(sidebarCollapsed := collapsed)
    {
      settings := settings.(sidebarCollapsed := collapsed);
    }

    /** `toggleDarkMode()`. */
    method ToggleDarkMode()
      modifies this`settings
      ensures settings == old(settings).(darkMode := !old(settings).darkMode)
    {
      settings := settings.(darkMode := !settings.darkMode);
    }

    /**
     * `saveTemplate(name)` with `saved` the template the server returned
     * (`None` on failure): a saved template is appended.
     */
    method SaveTemplate(saved: Option<Template>) returns (r: Option<Template>)
      modifies this`templates
      ensures r == saved
      ensures templates == old(templates) + (if saved.Some? then [saved.value] else [])
    {
      if saved.Some? {
        templates := templates + [saved.value];
      }
      r := saved;
    }

    /**
     * `deleteTemplate(id)` with `deleted` whether the server accepted the
     * request: on success exactly the templates with that id go, the rest
     * keep their order.
     */
    method DeleteTemplate(id: string, deleted: bool) returns (ok: bool)
      modifies this`templates
      ensures ok == deleted
      ensures templates == if deleted then Listing.Filter(old(templates), (x: Template) => x.id != id)
                           else old(templates)
    {
      if deleted {
        templates := Listing.Filter(templates, (x: Template) => x.id != id);
      }
      ok := deleted;
    }
  }

  /** Deleting keeps every other template and drops every template with that id. */
  lemma DeleteTemplateRemovesId(ts: seq<Template>, id: string)
    ensures forall x :: x in Listing.Filter(ts, (y: Template) => y.id != id) <==> x in ts && x.id != id
    ensures (forall x :: x in ts ==> x.id != id) ==> Listing.Filter(ts, (y: Template) => y.id != id) == ts
  {
    if forall x :: x in ts ==> x.id != id {
      FilterKeepsAll(ts, (y: Template) => y.id != id);
    }
  }

  lemma {:induction false} FilterKeepsAll<T(!new)>(rows: seq<T>, keep: T -> bool)
    requires forall x :: x in rows ==> keep(x)
    ensures Listing.Filter(rows, keep) == rows
  {
    if rows != [] {
      var init := rows[..|rows| - 1];
      assert rows == init + [rows[|rows| - 1]];
      FilterKeepsAll(init, keep);
    }
  }
}
