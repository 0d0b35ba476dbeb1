/** The page background of lib/background-settings.ts: settings kept under the
    localStorage key "backgroundSettings", read back over a default gradient, and
    turned into the CSS properties of the page and of an optional white overlay. */
module BackgroundSettings {
  import opened Common
  import opened Strings

  /** The settings record; every field but `type` may be absent. `type` is a plain
      string because a stored record may hold any value there. */
  datatype Settings = Settings(
    kind: string,
    color: Option<string>,
    gradientStart: Option<string>,
    gradientEnd: Option<string>,
    gradientDirection: Option<string>,
    imageUrl: Option<string>,
    imagePosition: Option<string>,
    imageSize: Option<string>,
    imageRepeat: Option<string>,
    opacity: Option<int>)

  /** `Partial<BackgroundSettings>`: the fields a change supplies. */
  datatype SettingsPatch = SettingsPatch(
    kind: Option<string>,
    color: Option<string>,
    gradientStart: Option<string>,
    gradientEnd: Option<string>,
    gradientDirection: Option<string>,
    imageUrl: Option<string>,
    imagePosition: Option<string>,
    imageSize: Option<string>,
    imageRepeat: Option<string>,
    opacity: Option<int>)

  /** The default background: an orange-50 to white gradient, top to bottom. */
  const Defaults: Settings :=
    Settings("gradient", None, Some("#fef7ed"), Some("#ffffff"), Some("to-b"), None, None, None, None, Some(100))

  function Pick<T>(p: Option<T>, s: Option<T>): Option<T> {
    if p.Some? then p else s
  }

  /** `{ ...s, ...p }`: the supplied fields of `p` over `s`. */
  function Overlay(s: Settings, p: SettingsPatch): Settings {
    Settings(p.kind.GetOr(s.kind), Pick(p.color, s.color), Pick(p.gradientStart, s.gradientStart),
             Pick(p.gradientEnd, s.gradientEnd), Pick(p.gradientDirection, s.gradientDirection),
             Pick(p.imageUrl, s.imageUrl), Pick(p.imagePosition, s.imagePosition),
             Pick(p.imageSize, s.imageSize), Pick(p.imageRepeat, s.imageRepeat), Pick(p.opacity, s.opacity))
  }

  /** A whole record as a change that supplies each field it has. */
  function AsPatch(s: Settings): SettingsPatch {
    SettingsPatch(Some(s.kind), s.color, s.gradientStart, s.gradientEnd, s.gradientDirection,
                  s.imageUrl, s.imagePosition, s.imageSize, s.imageRepeat, s.opacity)
  }

  /** `getBackgroundSettings`: the defaults on the server or with nothing stored,
      otherwise the stored fields over the defaults. */
  function Load(onServer: bool, stored: Option<Settings>): Settings {
    if onServer || stored.None? then Defaults else Overlay(Defaults, AsPatch(stored.value))
  }

  /** Loading keeps every stored field and fills the absent ones from the defaults. */
  lemma LoadCorrect(onServer: bool, stored: Option<Settings>)
    ensures onServer || stored.None? ==> Load(onServer, stored) == Defaults
    ensures !onServer && stored.Some? ==>
              var s, l := stored.value, Load(onServer, stored);
              && l.kind == s.kind
              && l.color == (if s.color.Some? then s.color else Defaults.color)
              && l.gradientStart == (if s.gradientStart.Some? then s.gradientStart else Defaults.gradientStart)
              && l.gradientEnd == (if s.gradientEnd.Some? then s.gradientEnd else Defaults.gradientEnd)
              && l.gradientDirection == (if s.gradientDirection.Some? then s.gradientDirection else Defaults.gradientDirection)
              && l.imageUrl == (if s.imageUrl.Some? then s.imageUrl else Defaults.imageUrl)
              && l.imagePosition == (if s.imagePosition.Some? then s.imagePosition else Defaults.imagePosition)
              && l.imageSize == (if s.imageSize.Some? then s.imageSize else Defaults.imageSize)
              && l.imageRepeat == (if s.imageRepeat.Some? then s.imageRepeat else Defaults.imageRepeat)
              && l.opacity == (if s.opacity.Some? then s.opacity else Defaults.opacity)
  {
  }

  /** A record that sets every field the defaults set reads back as itself, so
      saving then loading is the identity on such records. */
  lemma SaveThenLoad(s: Settings)
    requires s.gradientStart.Some? && s.gradientEnd.Some? && s.gradientDirection.Some? && s.opacity.Some?
    ensures Load(false, Some(s)) == s
  {
  }

  /** The CSS background properties of a style; None is "not set". */
  datatype Style = Style(
    backgroundColor: Option<string>,
    backgroundImage: Option<string>,
    backgroundPosition: Option<string>,
    backgroundSize: Option<string>,
    backgroundRepeat: Option<string>,
    position: Option<string>)

  const NoStyle: Style := Style(None, None, None, None, None, None)

  /** JavaScript truthiness of an optional number: absent and 0 are false. */
  predicate Truthy(x: Option<int>) {
    x.Some? && x.value != 0
  }

  /** Whether an image background is dimmed by the white overlay. */
  predicate Dimmed(s: Settings) {
    Truthy(s.opacity) && s.opacity.value < 100
  }

  function GradientImage(s: Settings): string {
    "linear-gradient(" + OrElse(s.gradientDirection, "to-b") + ", " + OrElse(s.gradientStart, "#fef7ed")
      + ", " + OrElse(s.gradientEnd, "#ffffff") + ")"
  }

  function ImageStyle(url: string, s: Settings, positioned: bool): Style {
    Style(None, Some("url(" + url + ")"), Some(OrElse(s.imagePosition, "center")),
          Some(OrElse(s.imageSize, "cover")), Some(OrElse(s.imageRepeat, "no-repeat")),
          if positioned then Some("relative") else None)
  }

  /** Whether an image URL is given: present and not empty. */
  predicate HasImage(s: Settings) {
    s.imageUrl.Some? && s.imageUrl.value != ""
  }

  /** `generateBackgroundStyle`. */
  function BackgroundStyle(s: Settings): (st: Style)
    ensures s.kind == "color" ==> st == NoStyle.(backgroundColor := st.backgroundColor)
    ensures s.kind == "gradient" ==> st == NoStyle.(backgroundImage := st.backgroundImage)
    ensures s.kind != "color" && s.kind != "gradient" ==> st.backgroundColor.None?
    ensures st.position.Some? <==> s.kind == "image" && HasImage(s) && Dimmed(s)
  {
    if s.kind == "color" then NoStyle.(backgroundColor := Some(OrElse(s.color, "#ffffff")))
    else if s.kind == "gradient" then NoStyle.(backgroundImage := Some(GradientImage(s)))
    else if s.kind == "image" then
      if HasImage(s) then ImageStyle(s.imageUrl.value, s, Dimmed(s)) else NoStyle
    else NoStyle
  }

  /** The style of each kind: a color with white for a missing one, the gradient
      with the default part for each missing or empty one, an image with the
      default position, size and repeat for missing or empty ones and only when a
      URL is given, and nothing for any other kind. */
  lemma BackgroundStyleCases(s: Settings)
    ensures s.kind == "color" ==>
              BackgroundStyle(s).backgroundColor == Some(if s.color.None? || s.color.value == "" then "#ffffff" else s.color.value)
    ensures s.kind == "gradient" ==>
              var direction := if s.gradientDirection.None? || s.gradientDirection.value == "" then "to-b" else s.gradientDirection.value;
              var start := if s.gradientStart.None? || s.gradientStart.value == "" then "#fef7ed" else s.gradientStart.value;
              var end := if s.gradientEnd.None? || s.gradientEnd.value == "" then "#ffffff" else s.gradientEnd.value;
              BackgroundStyle(s).backgroundImage == Some("linear-gradient(" + direction + ", " + start + ", " + end + ")")
    ensures s.kind == "gradient" && s.gradientDirection.None? && s.gradientStart.None? && s.gradientEnd.None? ==>
              BackgroundStyle(s).backgroundImage == Some("linear-gradient(to-b, #fef7ed, #ffffff)")
    ensures s.kind == "image" && !HasImage(s) ==> BackgroundStyle(s) == NoStyle
    ensures s.kind == "image" && HasImage(s) ==>
              && BackgroundStyle(s).backgroundImage == Some("url(" + s.imageUrl.value + ")")
              && BackgroundStyle(s).backgroundPosition
                 == Some(if s.imagePosition.None? || s.imagePosition.value == "" then "center" else s.imagePosition.value)
              && BackgroundStyle(s).backgroundSize
                 == Some(if s.imageSize.None? || s.imageSize.value == "" then "cover" else s.imageSize.value)
              && BackgroundStyle(s).backgroundRepeat
                 == Some(if s.imageRepeat.None? || s.imageRepeat.value == "" then "no-repeat" else s.imageRepeat.value)
    ensures s.kind !in {"color", "gradient", "image"} ==> BackgroundStyle(s) == NoStyle
  {
    if s.kind == "gradient" && s.gradientDirection.None? && s.gradientStart.None? && s.gradientEnd.None? {
      assert GradientImage(s) == "linear-gradient(" + "to-b" + ", " + "#fef7ed" + ", " + "#ffffff" + ")";
      assert "linear-gradient(" + "to-b" + ", " + "#fef7ed" + ", " + "#ffffff" + ")" == "linear-gradient(to-b, #fef7ed, #ffffff)";
    }
  }

  /** The default background is the orange-to-white gradient. */
  lemma DefaultStyle()
    ensures BackgroundStyle(Defaults) == NoStyle.(backgroundImage := Some("linear-gradient(to-b, #fef7ed, #ffffff)"))
  {
    assert GradientImage(Defaults) == "linear-gradient(" + "to-b" + ", " + "#fef7ed" + ", " + "#ffffff" + ")";
    assert "linear-gradient(" + "to-b" + ", " + "#fef7ed" + ", " + "#ffffff" + ")" == "linear-gradient(to-b, #fef7ed, #ffffff)";
  }

  /** `generateBackgroundOverlay`: the white layer over a dimmed image, carrying
      `100 - opacity`, the percentage of white (the source divides it by 100). */
  function WhiteOverlay(s: Settings): (o: Option<int>)
    ensures o.Some? <==> s.kind == "image" && Dimmed(s)
    ensures o.Some? ==> o.value == 100 - s.opacity.value
  {
    if s.kind == "image" && Dimmed(s) then Some(100 - s.opacity.value) else None
  }

  /** With an image URL the page container is positioned exactly when the overlay
      is drawn; without one the overlay can appear over an unpositioned page. */
  lemma OverlayAndPosition(s: Settings)
    ensures s.kind == "image" && HasImage(s) ==> (WhiteOverlay(s).Some? <==> BackgroundStyle(s).position.Some?)
    ensures s.kind == "image" && !HasImage(s) && Dimmed(s) ==>
              WhiteOverlay(s).Some? && BackgroundStyle(s).position.None?
  {
  }
}
