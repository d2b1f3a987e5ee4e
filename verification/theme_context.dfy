/** Themes: the hour-of-day buckets of the gradient theme, the gradient
    palettes, the fixed dark and light configurations, the validation of
    the saved theme, and the configuration the provider exposes. The hour
    is a parameter in place of the clock. */
module ThemeContext {
  import opened Wrappers

  const Dark: string := "dark"
  const Light: string := "light"
  const Gradient: string := "gradient"

  /** `Object.keys(THEMES)`. */
  const Themes: seq<string> := [Dark, Light, Gradient]

  datatype TimeOfDay = Morning | Day | Sunset | Night

  /** `getTimeOfDay` at hour `hour`. */
  function TimeOfDayAt(hour: int): (t: TimeOfDay)
    ensures t == Morning <==> 5 <= hour < 10
    ensures t == Day <==> 10 <= hour < 16
    ensures t == Sunset <==> 16 <= hour < 19
    ensures t == Night <==> hour < 5 || 19 <= hour
  {
    if 5 <= hour < 10 then Morning
    else if 10 <= hour < 16 then Day
    else if 16 <= hour < 19 then Sunset
    else Night
  }

  /** The fields `getGradientByTime` returns. */
  datatype GradientPalette = GradientPalette(background: string, metaThemeColor: string, cardBg: string,
                                             textPrimary: string, textSecondary: string, isDark: bool)

  /** `getGradientByTime`'s switch. */
  function PaletteOf(t: TimeOfDay): (p: GradientPalette)
    ensures p.isDark <==> t == Night
  {
    match t
    case Morning => GradientPalette("bg-gradient-to-br from-indigo-200 via-purple-200 to-pink-200", "#C7D2FE",
                                    "bg-white/30", "text-slate-800", "text-slate-600", false)
    case Day => GradientPalette("bg-gradient-to-br from-cyan-200 via-blue-200 to-indigo-300", "#A5F3FC",
                                "bg-white/30", "text-slate-800", "text-slate-600", false)
    case Sunset => GradientPalette("bg-gradient-to-br from-orange-300 via-red-300 to-purple-400", "#FDBA74",
                                   "bg-white/20", "text-slate-900", "text-slate-700", false)
    case Night => GradientPalette("bg-gradient-to-br from-gray-900 via-purple-900 to-violet-900", "#111827",
                                  "bg-black/30", "text-gray-100", "text-gray-400", true)
  }

  /** The four palettes are different from each other. */
  lemma PalettesDistinct(t: TimeOfDay, u: TimeOfDay)
    ensures t != u ==> PaletteOf(t) != PaletteOf(u)
  {
  }

  /** A full theme configuration. */
  datatype ThemeConfig = ThemeConfig(background: string, metaThemeColor: string, cardBg: string,
                                     cardBorder: string, cardHover: string, textPrimary: string,
                                     textSecondary: string, textMuted: string, sidebarBg: string,
                                     inputBg: string, buttonBg: string, buttonHover: string,
                                     borderColor: string, isDark: bool)

  const DarkConfig: ThemeConfig :=
    ThemeConfig("bg-deepblack", "#0F0F12", "bg-white/5 backdrop-blur-md", "border-white/5",
                "hover:border-white/20", "text-gray-100", "text-gray-400", "text-gray-600", "bg-[#0F0F12]",
                "bg-white/5 border border-white/5 text-gray-200 placeholder:text-gray-500", "bg-white/5",
                "hover:bg-white/10", "border-white/5", true)

  const LightConfig: ThemeConfig :=
    ThemeConfig("bg-slate-50", "#FDFCF8", "bg-white", "border-slate-200", "hover:border-slate-300 hover:shadow-md",
                "text-slate-800", "text-slate-500", "text-slate-400", "bg-[#FDFCF8] border-r border-slate-200",
                "bg-white border border-slate-200 text-slate-700 placeholder:text-slate-400", "bg-slate-100",
                "hover:bg-slate-200", "border-slate-200", false)

  /** `{ ...config, ...palette }`: the palette's fields override the configuration's. */
  function Overlay(config: ThemeConfig, p: GradientPalette): (r: ThemeConfig)
    ensures r.background == p.background && r.metaThemeColor == p.metaThemeColor && r.cardBg == p.cardBg
    ensures r.textPrimary == p.textPrimary && r.textSecondary == p.textSecondary && r.isDark == p.isDark
    ensures r.cardBorder == config.cardBorder && r.cardHover == config.cardHover
    ensures r.textMuted == config.textMuted && r.sidebarBg == config.sidebarBg && r.inputBg == config.inputBg
    ensures r.buttonBg == config.buttonBg && r.buttonHover == config.buttonHover
    ensures r.borderColor == config.borderColor
  {
    config.(background := p.background, metaThemeColor := p.metaThemeColor, cardBg := p.cardBg,
            textPrimary := p.textPrimary, textSecondary := p.textSecondary, isDark := p.isDark)
  }

  /** `themeConfigs.gradient`, built once when the module loads, at hour `loadHour`. */
  function GradientBase(loadHour: int): (c: ThemeConfig)
    ensures c.cardBorder == "border-white/10" && c.textMuted == "text-slate-500"
  {
    var p := PaletteOf(TimeOfDayAt(loadHour));
    ThemeConfig(p.background, p.metaThemeColor, p.cardBg, "border-white/10", "hover:border-white/30",
                p.textPrimary, p.textSecondary, "text-slate-500",
                "bg-white/10 backdrop-blur-xl border-r border-white/10",
                "bg-white/20 backdrop-blur-md border border-white/30 text-white placeholder:text-white/60",
                "bg-white/10", "hover:bg-white/20", "border-white/10", p.isDark)
  }

  /** The initial theme: a saved theme is kept only when it is one of the
      three, otherwise `dark`. */
  function InitialTheme(saved: Option<string>): (theme: string)
    ensures theme in Themes
    ensures saved.Some? && saved.value in Themes ==> theme == saved.value
    ensures saved.None? || saved.value !in Themes ==> theme == Dark
  {
    if saved.Some? && saved.value != "" && saved.value in Themes then saved.value else Dark
  }

  /** The provider's `themeConfig` for `theme` at hour `hour`, the module
      having loaded at `loadHour`; `None` is `themeConfigs[theme]` for a
      theme that has no configuration. */
  function ConfigFor(theme: string, loadHour: int, hour: int): (r: Option<ThemeConfig>)
    ensures r.Some? <==> theme in Themes
    ensures theme == Dark ==> r == Some(DarkConfig)
    ensures theme == Light ==> r == Some(LightConfig)
  {
    if theme == Gradient then Some(Overlay(GradientBase(loadHour), PaletteOf(TimeOfDayAt(hour))))
    else if theme == Dark then Some(DarkConfig)
    else if theme == Light then Some(LightConfig)
    else None
  }

  /** The gradient configuration follows the current hour alone: the
      palette fields come from the hour's bucket, the rest are the fixed
      gradient fields, and the hour the module loaded at makes no difference. */
  lemma GradientFollowsTheHour(loadHour: int, otherLoadHour: int, hour: int)
    ensures var c := ConfigFor(Gradient, loadHour, hour);
            c.Some? && c.value.background == PaletteOf(TimeOfDayAt(hour)).background
            && c.value.isDark == PaletteOf(TimeOfDayAt(hour)).isDark
            && c.value.cardBorder == "border-white/10"
    ensures ConfigFor(Gradient, loadHour, hour) == ConfigFor(Gradient, otherLoadHour, hour)
  {
  }

  /** `isDark`: always for `dark`, never for `light`, and for `gradient`
      exactly at night (before 5 or from 19 on). */
  lemma IsDarkOf(theme: string, loadHour: int, hour: int)
    requires theme in Themes
    ensures ConfigFor(theme, loadHour, hour).Some?
    ensures theme == Dark ==> ConfigFor(theme, loadHour, hour).value.isDark
    ensures theme == Light ==> !ConfigFor(theme, loadHour, hour).value.isDark
    ensures theme == Gradient ==> (ConfigFor(theme, loadHour, hour).value.isDark <==> hour < 5 || 19 <= hour)
  {
  }

  /** The persisted theme comes back: a theme written to `kanban-theme`
      is the theme chosen on the next load, whatever was saved gives a
      theme with a configuration. */
  lemma SavedThemeRestored(theme: string, saved: Option<string>, loadHour: int, hour: int)
    ensures theme in Themes ==> InitialTheme(Some(theme)) == theme
    ensures ConfigFor(InitialTheme(saved), loadHour, hour).Some?
  {
  }
}
