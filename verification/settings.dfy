/** The crosshair settings record of the content script: its defaults, the merge
    of a saved record over those defaults, reset, the lock toggle and the
    per-field input handlers. Persistence is a value: `Save` is the record that
    is written, `Load` reads one back. */
module SettingsStore {
  import opened Wrappers

  /** The live configuration. `style` and `language` are kept as the strings the
      form controls deliver; the renderer decides what a style string means. */
  datatype Settings = Settings(
    size: int,
    thickness: int,
    color: string,
    opacity: real,
    style: string,
    language: string,
    locked: bool)

  /** A saved record, in which any field may be missing. */
  datatype PartialSettings = PartialSettings(
    size: Option<int>,
    thickness: Option<int>,
    color: Option<string>,
    opacity: Option<real>,
    style: Option<string>,
    language: Option<string>,
    locked: Option<bool>)

  /** Names of the fields, used to say which field an operation may change. */
  datatype Key = SizeKey | ThicknessKey | ColorKey | OpacityKey | StyleKey | LanguageKey | LockedKey

  const Defaults: Settings := Settings(20, 2, "#FFFFFF", 0.8, "default", "en", true)

  /** A saved record with no field at all. */
  const EmptyRecord: PartialSettings := PartialSettings(None, None, None, None, None, None, None)

  /** `a` and `b` agree on every field except possibly `k`. */
  predicate AgreeExcept(a: Settings, b: Settings, k: Key) {
    && (k == SizeKey || a.size == b.size)
    && (k == ThicknessKey || a.thickness == b.thickness)
    && (k == ColorKey || a.color == b.color)
    && (k == OpacityKey || a.opacity == b.opacity)
    && (k == StyleKey || a.style == b.style)
    && (k == LanguageKey || a.language == b.language)
    && (k == LockedKey || a.locked == b.locked)
  }

  /** `v` is the saved value when one is present and the default `d` otherwise. */
  predicate SavedWins<T(==)>(saved: Option<T>, d: T, v: T) {
    (saved.Some? ==> v == saved.value) && (saved.None? ==> v == d)
  }

  /** Load-time merge: the saved record (if any) spread over the defaults,
      field by field, the saved value winning where both have one. */
  function Load(saved: Option<PartialSettings>): (r: Settings)
    ensures saved.None? ==> r == Defaults
    ensures saved.Some? ==>
      && SavedWins(saved.value.size, Defaults.size, r.size)
      && SavedWins(saved.value.thickness, Defaults.thickness, r.thickness)
      && SavedWins(saved.value.color, Defaults.color, r.color)
      && SavedWins(saved.value.opacity, Defaults.opacity, r.opacity)
      && SavedWins(saved.value.style, Defaults.style, r.style)
      && SavedWins(saved.value.language, Defaults.language, r.language)
      && SavedWins(saved.value.locked, Defaults.locked, r.locked)
  {
    match saved
    case None => Defaults
    case Some(p) =>
      Settings(
        p.size.GetOr(Defaults.size),
        p.thickness.GetOr(Defaults.thickness),
        p.color.GetOr(Defaults.color),
        p.opacity.GetOr(Defaults.opacity),
        p.style.GetOr(Defaults.style),
        p.language.GetOr(Defaults.language),
        p.locked.GetOr(Defaults.locked))
  }

  /** The record written to storage: the whole live configuration. */
  function Save(s: Settings): (r: PartialSettings)
    ensures && r.size.Some? && r.thickness.Some? && r.color.Some? && r.opacity.Some?
            && r.style.Some? && r.language.Some? && r.locked.Some?
    ensures Load(Some(r)) == s
  {
    PartialSettings(Some(s.size), Some(s.thickness), Some(s.color), Some(s.opacity),
                    Some(s.style), Some(s.language), Some(s.locked))
  }

  /** A saved record with no fields loads exactly as no saved record. */
  lemma LoadEmptyRecord()
    ensures Load(Some(EmptyRecord)) == Load(None)
  {
  }

  /** Writing a configuration and loading it back loses nothing, and two
      different configurations are never written as the same record. */
  lemma SaveLoadRoundTrip(a: Settings, b: Settings)
    ensures Load(Some(Save(a))) == a
    ensures Save(a) == Save(b) ==> a == b
  {
  }

  /** Restore the defaults, keeping the current language. */
  function Reset(s: Settings): (r: Settings)
    ensures r.language == s.language
    ensures AgreeExcept(r, Defaults, LanguageKey)
  {
    Defaults.(language := s.language)
  }

  /** Reset forgets everything but the language: two configurations reset to
      the same value exactly when their languages agree, and resetting twice is
      resetting once. */
  lemma ResetLaws(a: Settings, b: Settings)
    ensures Reset(a) == Reset(b) <==> a.language == b.language
    ensures Reset(Reset(a)) == Reset(a)
    ensures Reset(a) == Load(None) <==> a.language == Defaults.language
  {
    if Reset(a) == Reset(b) {
      assert a.language == Reset(a).language == Reset(b).language == b.language;
    }
  }

  /** The lock button handler: flip `locked`, nothing else. */
  function ToggleLock(s: Settings): (r: Settings)
    ensures r.locked != s.locked
    ensures AgreeExcept(s, r, LockedKey)
  {
    s.(locked := !s.locked)
  }

  /** The lock toggle is its own inverse. */
  lemma ToggleLockTwice(s: Settings)
    ensures ToggleLock(ToggleLock(s)) == s
    ensures ToggleLock(s) != s
  {
  }

  /** Size slider handler (the slider value arrives as an integer). */
  function SetSize(s: Settings, px: int): (r: Settings)
    ensures r.size == px && AgreeExcept(s, r, SizeKey)
  {
    s.(size := px)
  }

  /** Thickness slider handler. */
  function SetThickness(s: Settings, px: int): (r: Settings)
    ensures r.thickness == px && AgreeExcept(s, r, ThicknessKey)
  {
    s.(thickness := px)
  }

  /** Colour picker handler. */
  function SetColor(s: Settings, color: string): (r: Settings)
    ensures r.color == color && AgreeExcept(s, r, ColorKey)
  {
    s.(color := color)
  }

  /** Opacity slider handler: the slider gives a percentage, the record keeps
      the fraction `percent / 100`. */
  function SetOpacity(s: Settings, percent: int): (r: Settings)
    ensures r.opacity * 100.0 == percent as real
    ensures AgreeExcept(s, r, OpacityKey)
  {
    s.(opacity := percent as real / 100.0)
  }

  /** Style selector handler; any string is stored as given. */
  function SetStyle(s: Settings, name: string): (r: Settings)
    ensures r.style == name && AgreeExcept(s, r, StyleKey)
  {
    s.(style := name)
  }

  /** Language selector handler; the code is stored as given, unvalidated. */
  function SetLanguage(s: Settings, lang: string): (r: Settings)
    ensures r.language == lang && AgreeExcept(s, r, LanguageKey)
  {
    s.(language := lang)
  }

  /** Storing the value a field already holds changes nothing, for every
      field handler; the opacity handler leaves the record unchanged exactly
      when the percentage it receives is the stored fraction times 100. */
  lemma SetterLaws(s: Settings, percent: int)
    ensures SetSize(s, s.size) == s
    ensures SetThickness(s, s.thickness) == s
    ensures SetColor(s, s.color) == s
    ensures SetOpacity(s, percent) == s <==> s.opacity * 100.0 == percent as real
    ensures SetStyle(s, s.style) == s
    ensures SetLanguage(s, s.language) == s
  {
  }
}
