/** The page's theme settings (`use-theme`): the record kept in the query
    cache and the updaters its setters hand to `setQueryData`. */
module Theme {
  import opened Text

  /** Blur in pixels, scale in percent; None is a `null` image. */
  datatype ThemeSettings = ThemeSettings(darkMode: bool, backgroundImage: Option<string>,
                                         backgroundBlur: real, backgroundScale: real)

  /** `DEFAULT_THEME` */
  function DefaultTheme(): (t: ThemeSettings)
    ensures !t.darkMode && t.backgroundImage.None?
    ensures t.backgroundBlur == 0.0 && t.backgroundScale == 100.0
  {
    ThemeSettings(false, None, 0.0, 100.0)
  }

  /** The query function: a missing or empty stored value, or one that does
      not parse, gives the defaults; otherwise the parsed record. */
  function LoadTheme(saved: Option<string>, parse: string -> Option<ThemeSettings>): (t: ThemeSettings)
    ensures saved.None? || saved.value == [] ==> t == DefaultTheme()
    ensures saved.Some? && saved.value != [] && parse(saved.value).None? ==> t == DefaultTheme()
    ensures saved.Some? && saved.value != [] && parse(saved.value).Some? ==> t == parse(saved.value).value
  {
    if saved.Some? && saved.value != [] then
      match parse(saved.value)
      case Some(t) => t
      case None => DefaultTheme()
    else DefaultTheme()
  }

  /** `Math.min(Math.max(lo, v), hi)` */
  function ClampTo(v: real, lo: real, hi: real): (r: real)
    requires lo <= hi
    ensures lo <= r <= hi
    ensures lo <= v <= hi ==> r == v
    ensures v < lo ==> r == lo
    ensures v > hi ==> r == hi
  {
    var atLeast := if lo > v then lo else v;
    if atLeast < hi then atLeast else hi
  }

  /** `switchTheme`: the updater receives the cached record `prev` but negates
      the flag of the record `rendered` by the last render. */
  function SwitchTheme(prev: ThemeSettings, rendered: ThemeSettings): (t: ThemeSettings)
    ensures t.darkMode == !rendered.darkMode
    ensures t.(darkMode := prev.darkMode) == prev
  {
    prev.(darkMode := !rendered.darkMode)
  }

  /** Toggling twice, with a render in between, restores the original. */
  lemma SwitchTwice(t: ThemeSettings)
    ensures var once := SwitchTheme(t, t);
            SwitchTheme(once, once) == t
  {
  }

  /** Two toggles before a render both negate the same rendered flag, so the
      second one changes nothing. */
  lemma SwitchTwiceWithoutRender(t: ThemeSettings)
    ensures SwitchTheme(SwitchTheme(t, t), t) == SwitchTheme(t, t)
  {
  }

  /** `setBackgroundImage`: only the image changes. */
  function SetBackgroundImage(prev: ThemeSettings, image: Option<string>): (t: ThemeSettings)
    ensures t.backgroundImage == image
    ensures t.(backgroundImage := prev.backgroundImage) == prev
  {
    prev.(backgroundImage := image)
  }

  /** `setBackgroundBlur`: the stored blur is in [0, 20], the requested
      one when it already is; nothing else changes. */
  function SetBackgroundBlur(prev: ThemeSettings, blur: real): (t: ThemeSettings)
    ensures 0.0 <= t.backgroundBlur <= 20.0
    ensures 0.0 <= blur <= 20.0 ==> t.backgroundBlur == blur
    ensures t.(backgroundBlur := prev.backgroundBlur) == prev
  {
    prev.(backgroundBlur := ClampTo(blur, 0.0, 20.0))
  }

  /** `setBackgroundScale`: the stored scale is in [50, 150], the requested
      one when it already is; nothing else changes. */
  function SetBackgroundScale(prev: ThemeSettings, scale: real): (t: ThemeSettings)
    ensures 50.0 <= t.backgroundScale <= 150.0
    ensures 50.0 <= scale <= 150.0 ==> t.backgroundScale == scale
    ensures t.(backgroundScale := prev.backgroundScale) == prev
  {
    prev.(backgroundScale := ClampTo(scale, 50.0, 150.0))
  }

  /** The ranges the setters keep. */
  predicate InRange(t: ThemeSettings) {
    0.0 <= t.backgroundBlur <= 20.0 && 50.0 <= t.backgroundScale <= 150.0
  }

  /** The defaults are in range and every setter keeps a record in range. */
  lemma SettersKeepRange(t: ThemeSettings, rendered: ThemeSettings, image: Option<string>, v: real)
    requires InRange(t)
    ensures InRange(DefaultTheme())
    ensures InRange(SwitchTheme(t, rendered)) && InRange(SetBackgroundImage(t, image))
    ensures InRange(SetBackgroundBlur(t, v)) && InRange(SetBackgroundScale(t, v))
  {
  }

  /** Setting a value twice is setting it once. */
  lemma SettersIdempotent(t: ThemeSettings, image: Option<string>, v: real)
    ensures SetBackgroundImage(SetBackgroundImage(t, image), image) == SetBackgroundImage(t, image)
    ensures SetBackgroundBlur(SetBackgroundBlur(t, v), v) == SetBackgroundBlur(t, v)
    ensures SetBackgroundScale(SetBackgroundScale(t, v), v) == SetBackgroundScale(t, v)
  {
  }
}
