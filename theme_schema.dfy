/** The theme-settings schema and its default value (server/utils/theme.ts). */
module ThemeSchema {
  import opened Wrappers
  import opened Text

  /** The JSON values a request body field can hold. */
  datatype Json = JString(s: string) | JBool(b: bool) | JNumber(n: int) | JNull

  /** A theme-settings object; `None` is a property the object does not have. */
  datatype ThemeFields = ThemeFields(
    primaryColor: Option<Json>, primaryColorHover: Option<Json>,
    primaryColorPressed: Option<Json>, secondaryColor: Option<Json>,
    sidebarCollapsed: Option<Json>, darkMode: Option<Json>)

  /** The pattern `^#[0-9A-Fa-f]{6}$`. */
  predicate IsHexColor(s: string)
  {
    |s| == 7 && s[0] == '#' && AllHexDigits(s[1..])
  }

  predicate IsColorValue(v: Json) { v.JString? && IsHexColor(v.s) }

  /** An optional colour property: absent, or a hex-colour string. */
  predicate OptionalColor(f: Option<Json>) { f.None? || IsColorValue(f.value) }

  /** An optional boolean property: absent, or a boolean. */
  predicate OptionalBool(f: Option<Json>) { f.None? || f.value.JBool? }

  /** `themeSettingsSchema.safeParse(v).success`. */
  predicate ThemeSettingsAccepts(v: ThemeFields)
  {
    && v.primaryColor.Some? && IsColorValue(v.primaryColor.value)
    && OptionalColor(v.primaryColorHover)
    && OptionalColor(v.primaryColorPressed)
    && OptionalColor(v.secondaryColor)
    && OptionalBool(v.sidebarCollapsed)
    && OptionalBool(v.darkMode)
  }

  /** `defaultThemeSettings`, which the schema accepts. */
  function DefaultThemeSettings(): (d: ThemeFields)
    ensures ThemeSettingsAccepts(d)
    ensures d.sidebarCollapsed == Some(JBool(false)) && d.darkMode == Some(JBool(false))
  {
    var d := ThemeFields(
      Some(JString("#0ea5e9")), Some(JString("#0284c7")), Some(JString("#0369a1")),
      Some(JString("#6366f1")), Some(JBool(false)), Some(JBool(false)));
    assert IsHexColor("#0ea5e9") by { assert AllHexDigits("#0ea5e9"[1..]); }
    assert IsHexColor("#0284c7") by { assert AllHexDigits("#0284c7"[1..]); }
    assert IsHexColor("#0369a1") by { assert AllHexDigits("#0369a1"[1..]); }
    assert IsHexColor("#6366f1") by { assert AllHexDigits("#6366f1"[1..]); }
    d
  }

  /** A colour is accepted exactly when it is `#` and six hex digits of either case. */
  lemma HexColorExamples()
    ensures IsHexColor("#0EA5E9") && IsHexColor("#0ea5e9")
    ensures !IsHexColor("0ea5e9") && !IsHexColor("#0ea5e") && !IsHexColor("#0ea5e9f") && !IsHexColor("#0ea5eg")
  {
    assert AllHexDigits("#0EA5E9"[1..]);
    assert AllHexDigits("#0ea5e9"[1..]);
    assert !IsHexDigit("#0ea5eg"[6]);
  }
}
