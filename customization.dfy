/**
 * An album's customisation record and the editor that changes it. Every
 * handler of the editor replaces one field of one section (or the whole
 * theme, for a preset) and keeps the rest of the record.
 */
module Customization {
  import opened Text

  datatype Theme = Theme(primaryColor: string, secondaryColor: string, backgroundColor: string, textColor: string)

  datatype Banner = Banner(imageUrl: Option<string>, title: string, subtitle: string)

  /** The background music; the volume is a fraction that is only stored and passed on. */
  datatype Music = Music(enabled: bool, url: Option<string>, autoplay: bool, volume: real)

  /** The gallery layouts the editor offers. */
  datatype Layout = Grid | Masonry | Carousel

  datatype Settings = Settings(
    theme: Theme,
    banner: Banner,
    music: Music,
    inspirationalQuote: Option<string>,
    layout: Layout,
    showWatermark: bool)

  /** The layout's name in the record. */
  function LayoutName(l: Layout): string {
    match l
    case Grid => "grid"
    case Masonry => "masonry"
    case Carousel => "carousel"
  }

  /** The layout a name stands for; the select offers no other value. */
  function ParseLayout(s: string): Option<Layout> {
    if s == "grid" then Some(Grid)
    else if s == "masonry" then Some(Masonry)
    else if s == "carousel" then Some(Carousel)
    else None
  }

  /** Layout names and layouts correspond one to one. */
  lemma LayoutNamesRoundTrip(l: Layout, s: string)
    ensures ParseLayout(LayoutName(l)) == Some(l)
    ensures ParseLayout(s).Some? ==> LayoutName(ParseLayout(s).value) == s
    ensures ParseLayout(s).Some? <==> s in {"grid", "masonry", "carousel"}
  {
  }

  /** The record an editor starts from when the album has none: indigo theme, empty banner, music off, grid, watermark on. */
  const DefaultSettings := Settings(
    Theme("#6366f1", "#8b5cf6", "linear-gradient(135deg, #f8fafc 0%, #f1f5f9 100%)", "#1e293b"),
    Banner(None, "", ""),
    Music(false, None, false, 0.3),
    None,
    Grid,
    true)

  // ---------------------------------------------------------------- one field at a time

  datatype ThemeField = PrimaryColor | SecondaryColor | BackgroundColor | TextColor

  function ThemeValue(t: Theme, f: ThemeField): string {
    match f
    case PrimaryColor => t.primaryColor
    case SecondaryColor => t.secondaryColor
    case BackgroundColor => t.backgroundColor
    case TextColor => t.textColor
  }

  /** `{ ...theme, [field]: value }`. */
  function SetThemeField(t: Theme, f: ThemeField, value: string): Theme {
    match f
    case PrimaryColor => t.(primaryColor := value)
    case SecondaryColor => t.(secondaryColor := value)
    case BackgroundColor => t.(backgroundColor := value)
    case TextColor => t.(textColor := value)
  }

  /** The field that was set reads back the new value; every other field reads as before. */
  lemma SetThemeFieldOnly(t: Theme, f: ThemeField, value: string, g: ThemeField)
    ensures ThemeValue(SetThemeField(t, f, value), g) == if g == f then value else ThemeValue(t, g)
  {
  }

  /** A theme is determined by its four fields. */
  lemma ThemeByFields(t: Theme, u: Theme)
    requires forall g: ThemeField :: ThemeValue(t, g) == ThemeValue(u, g)
    ensures t == u
  {
    assert ThemeValue(t, PrimaryColor) == ThemeValue(u, PrimaryColor);
    assert ThemeValue(t, SecondaryColor) == ThemeValue(u, SecondaryColor);
    assert ThemeValue(t, BackgroundColor) == ThemeValue(u, BackgroundColor);
    assert ThemeValue(t, TextColor) == ThemeValue(u, TextColor);
  }

  /** Setting a field to the value it already has changes nothing. */
  lemma SetThemeFieldSame(t: Theme, f: ThemeField)
    ensures SetThemeField(t, f, ThemeValue(t, f)) == t
  {
    forall g: ThemeField ensures ThemeValue(SetThemeField(t, f, ThemeValue(t, f)), g) == ThemeValue(t, g) {
      SetThemeFieldOnly(t, f, ThemeValue(t, f), g);
    }
    ThemeByFields(SetThemeField(t, f, ThemeValue(t, f)), t);
  }

  datatype BannerField = BannerTitle | BannerSubtitle | BannerImageUrl

  function BannerValue(b: Banner, f: BannerField): Option<string> {
    match f
    case BannerTitle => Some(b.title)
    case BannerSubtitle => Some(b.subtitle)
    case BannerImageUrl => b.imageUrl
  }

  /** `{ ...banner, [field]: value }`. */
  function SetBannerField(b: Banner, f: BannerField, value: string): Banner {
    match f
    case BannerTitle => b.(title := value)
    case BannerSubtitle => b.(subtitle := value)
    case BannerImageUrl => b.(imageUrl := Some(value))
  }

  /** The field that was set reads back the new value; every other field reads as before. */
  lemma SetBannerFieldOnly(b: Banner, f: BannerField, value: string, g: BannerField)
    ensures BannerValue(SetBannerField(b, f, value), g) == if g == f then Some(value) else BannerValue(b, g)
  {
  }

  /** A change to one music field, carrying a value of that field's type. */
  datatype MusicChange = SetEnabled(on: bool) | SetUrl(url: string) | SetAutoplay(auto: bool) | SetVolume(volume: real)

  /** `{ ...music, [field]: value }`. */
  function ApplyMusic(m: Music, c: MusicChange): Music {
    match c
    case SetEnabled(on) => m.(enabled := on)
    case SetUrl(url) => m.(url := Some(url))
    case SetAutoplay(auto) => m.(autoplay := auto)
    case SetVolume(v) => m.(volume := v)
  }

  /** A music change sets its own field and keeps the other three. */
  lemma ApplyMusicOnly(m: Music, c: MusicChange)
    ensures var n := ApplyMusic(m, c);
      && (if c.SetEnabled? then n.enabled == c.on else n.enabled == m.enabled)
      && (if c.SetUrl? then n.url == Some(c.url) else n.url == m.url)
      && (if c.SetAutoplay? then n.autoplay == c.auto else n.autoplay == m.autoplay)
      && (if c.SetVolume? then n.volume == c.volume else n.volume == m.volume)
  {
  }

  // ---------------------------------------------------------------- presets

  datatype Preset = Preset(name: string, theme: Theme)

  /** The four preset themes, in the order the editor lists them. */
  const Presets: seq<Preset> := [
    Preset("Rom\U{E2}ntico", Theme("#ff6b6b", "#ff8cc8", "linear-gradient(135deg, #fff5f5 0%, #fef7ff 100%)", "#2d3748")),
    Preset("Elegante", Theme("#2d3748", "#4a5568", "linear-gradient(135deg, #f7fafc 0%, #edf2f7 100%)", "#1a202c")),
    Preset("Natureza", Theme("#48bb78", "#68d391", "linear-gradient(135deg, #f0fff4 0%, #c6f6d5 100%)", "#1a202c")),
    Preset("Oceano", Theme("#4299e1", "#63b3ed", "linear-gradient(135deg, #ebf8ff 0%, #bee3f8 100%)", "#1a202c"))]

  /** The presets have distinct names, and none of them is the default theme. */
  lemma PresetsDistinct()
    ensures forall i, j :: 0 <= i < j < |Presets| ==> Presets[i].name != Presets[j].name
    ensures forall i :: 0 <= i < |Presets| ==> Presets[i].theme != DefaultSettings.theme
  {
  }

  // ---------------------------------------------------------------- edits of the whole record

  /** Every way the editor changes the record. */
  datatype Edit =
    | ThemeEdit(themeField: ThemeField, text: string)
    | BannerEdit(bannerField: BannerField, bannerText: string)
    | MusicEdit(change: MusicChange)
    | PresetEdit(preset: Preset)
    | QuoteEdit(quote: string)
    | WatermarkEdit(show: bool)
    | LayoutEdit(layout: Layout)

  /** The sections of the record. */
  datatype Section = ThemeSection | BannerSection | MusicSection | QuoteSection | LayoutSection | WatermarkSection

  /** The section an edit writes to. */
  function Target(e: Edit): Section {
    match e
    case ThemeEdit(_, _) => ThemeSection
    case PresetEdit(_) => ThemeSection
    case BannerEdit(_, _) => BannerSection
    case MusicEdit(_) => MusicSection
    case QuoteEdit(_) => QuoteSection
    case WatermarkEdit(_) => WatermarkSection
    case LayoutEdit(_) => LayoutSection
  }

  /** Two records agree on a section. */
  predicate SameSection(a: Settings, b: Settings, s: Section) {
    match s
    case ThemeSection => a.theme == b.theme
    case BannerSection => a.banner == b.banner
    case MusicSection => a.music == b.music
    case QuoteSection => a.inspirationalQuote == b.inspirationalQuote
    case LayoutSection => a.layout == b.layout
    case WatermarkSection => a.showWatermark == b.showWatermark
  }

  /** `setCustomization(prev => ...)` for each kind of edit. */
  function Apply(c: Settings, e: Edit): Settings {
    match e
    case ThemeEdit(f, v) => c.(theme := SetThemeField(c.theme, f, v))
    case BannerEdit(f, v) => c.(banner := SetBannerField(c.banner, f, v))
    case MusicEdit(m) => c.(music := ApplyMusic(c.music, m))
    case PresetEdit(p) => c.(theme := p.theme)
    case QuoteEdit(q) => c.(inspirationalQuote := Some(q))
    case WatermarkEdit(w) => c.(showWatermark := w)
    case LayoutEdit(l) => c.(layout := l)
  }

  /** An edit leaves every section but its own as it was. */
  lemma EditTouchesOneSection(c: Settings, e: Edit, s: Section)
    requires s != Target(e)
    ensures SameSection(Apply(c, e), c, s)
  {
  }

  /** Records that agree on every section are equal. */
  lemma SettingsBySections(a: Settings, b: Settings)
    requires forall s: Section :: SameSection(a, b, s)
    ensures a == b
  {
    assert SameSection(a, b, ThemeSection) && SameSection(a, b, BannerSection);
    assert SameSection(a, b, MusicSection) && SameSection(a, b, QuoteSection);
    assert SameSection(a, b, LayoutSection) && SameSection(a, b, WatermarkSection);
  }

  /** A preset replaces the whole theme: what the theme was before no longer matters. */
  lemma PresetForgetsTheme(c: Settings, d: Settings, p: Preset)
    requires forall s: Section :: s != ThemeSection ==> SameSection(c, d, s)
    ensures Apply(c, PresetEdit(p)) == Apply(d, PresetEdit(p))
  {
    assert SameSection(c, d, BannerSection) && SameSection(c, d, MusicSection);
    assert SameSection(c, d, QuoteSection) && SameSection(c, d, LayoutSection);
    assert SameSection(c, d, WatermarkSection);
  }

  /** Edits to different sections can be made in either order. */
  lemma EditsCommute(c: Settings, e1: Edit, e2: Edit)
    requires Target(e1) != Target(e2)
    ensures Apply(Apply(c, e1), e2) == Apply(Apply(c, e2), e1)
  {
  }

  /** The editor: one mutable record, changed by the handlers and handed over on save. */
  class Editor {
    var settings: Settings

    /** The record starts as the album's own, or as the default when it has none. */
    constructor (current: Option<Settings>)
      ensures settings == current.GetOr(DefaultSettings)
    {
      settings := current.GetOr(DefaultSettings);
    }

    /** `handleThemeChange(field, value)`. */
    method HandleThemeChange(f: ThemeField, value: string)
      modifies this
      ensures settings == Apply(old(settings), ThemeEdit(f, value))
    {
      settings := settings.(theme := SetThemeField(settings.theme, f, value));
    }

    /** `handleBannerChange(field, value)`. */
    method HandleBannerChange(f: BannerField, value: string)
      modifies this
      ensures settings == Apply(old(settings), BannerEdit(f, value))
    {
      settings := settings.(banner := SetBannerField(settings.banner, f, value));
    }

    /** `handleMusicChange(field, value)`. */
    method HandleMusicChange(c: MusicChange)
      modifies this
      ensures settings == Apply(old(settings), MusicEdit(c))
    {
      settings := settings.(music := ApplyMusic(settings.music, c));
    }

    /** A preset button: the whole theme becomes the preset's. */
    method ChoosePreset(p: Preset)
      modifies this
      ensures settings == Apply(old(settings), PresetEdit(p))
    {
      settings := settings.(theme := p.theme);
    }

    /** The quote text area. */
    method SetQuote(q: string)
      modifies this
      ensures settings == Apply(old(settings), QuoteEdit(q))
    {
      settings := settings.(inspirationalQuote := Some(q));
    }

    /** The watermark switch. */
    method SetWatermark(show: bool)
      modifies this
      ensures settings == Apply(old(settings), WatermarkEdit(show))
    {
      settings := settings.(showWatermark := show);
    }

    /** The layout select. */
    method SetLayout(l: Layout)
      modifies this
      ensures settings == Apply(old(settings), LayoutEdit(l))
    {
      settings := settings.(layout := l);
    }

    /** `handleSave`: the record as it stands goes to `onSave`, unchanged. */
    method HandleSave() returns (saved: Settings)
      ensures saved == settings
    {
      saved := settings;
    }
  }
}
