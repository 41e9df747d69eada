/** The content script as a state machine: start-up, then one user event at a
    time. Each event updates the settings, redraws what the handler redraws,
    refreshes the lock view where the handler does, and writes the settings. */
module Overlay {
  import opened Wrappers
  import opened SettingsStore
  import opened LockView
  import opened Renderer

  /** Everything the script keeps or shows: the live settings, the crosshair
      surface (absent until attached), the panel's visibility, the lock button
      and the record last written to storage. */
  datatype OverlayState = OverlayState(
    settings: Settings,
    surface: Option<Surface>,
    panelVisible: bool,
    button: LockButton,
    stored: Option<PartialSettings>)

  /** One user action on the settings panel or the lock button. */
  datatype Event =
    | SizeInput(px: int)
    | ThicknessInput(px: int)
    | ColorInput(color: string)
    | OpacityInput(percent: int)
    | StyleChange(name: string)
    | LanguageChange(lang: string)
    | ResetClick
    | LockClick

  /** The settings after an event's handler has run. */
  function Handle(s: Settings, e: Event): Settings {
    match e
    case SizeInput(px) => SetSize(s, px)
    case ThicknessInput(px) => SetThickness(s, px)
    case ColorInput(c) => SetColor(s, c)
    case OpacityInput(p) => SetOpacity(s, p)
    case StyleChange(n) => SetStyle(s, n)
    case LanguageChange(l) => SetLanguage(s, l)
    case ResetClick => Reset(s)
    case LockClick => ToggleLock(s)
  }

  /** The field a form-control event writes. */
  function KeyOf(e: Event): Key
    requires !e.ResetClick?
  {
    match e
    case SizeInput(_) => SizeKey
    case ThicknessInput(_) => ThicknessKey
    case ColorInput(_) => ColorKey
    case OpacityInput(_) => OpacityKey
    case StyleChange(_) => StyleKey
    case LanguageChange(_) => LanguageKey
    case LockClick => LockedKey
  }

  /** Every handler other than reset changes its own field and no other. */
  lemma HandleTouchesOnlyItsField(s: Settings, e: Event)
    requires !e.ResetClick?
    ensures AgreeExcept(s, Handle(s, e), KeyOf(e))
    ensures e.LockClick? ==> Handle(s, e).locked != s.locked
  {
  }

  /** Handlers of two different fields commute. */
  lemma HandlersCommute(s: Settings, e1: Event, e2: Event)
    requires !e1.ResetClick? && !e2.ResetClick? && KeyOf(e1) != KeyOf(e2)
    ensures Handle(Handle(s, e1), e2) == Handle(Handle(s, e2), e1)
  {
  }

  /** A later input on a field overrides an earlier one on the same field. */
  lemma LaterOverrides(s: Settings, e1: Event, e2: Event)
    requires !e1.ResetClick? && !e1.LockClick? && !e2.ResetClick?
    requires KeyOf(e1) == KeyOf(e2)
    ensures Handle(Handle(s, e1), e2) == Handle(s, e2)
  {
  }

  /** Start-up: merge the saved record over the defaults, draw the crosshair,
      then set the lock button and the panel. Nothing is written yet. */
  function Init(saved: Option<PartialSettings>, surface: Option<Surface>): (o: OverlayState)
    ensures o.settings == Load(saved) && o.stored == saved
    ensures o.surface.Some? <==> surface.Some?
  {
    var s := Load(saved);
    OverlayState(s, ApplyStyle(surface, s), PanelVisible(s), ButtonFor(s), saved)
  }

  /** One event. The slider, colour and style handlers redraw; the language
      handler re-applies translations, which refreshes the lock button; reset
      redraws and refreshes panel and button; the lock click refreshes panel
      and button only. Every handler then writes the whole record. */
  function Step(o: OverlayState, e: Event): (r: OverlayState)
    ensures r.settings == Handle(o.settings, e)
    ensures r.stored == Some(Save(r.settings))
    ensures r.surface.Some? <==> o.surface.Some?
  {
    var s := Handle(o.settings, e);
    var stored := Some(Save(s));
    match e
    case SizeInput(_) => o.(settings := s, surface := ApplyStyle(o.surface, s), stored := stored)
    case ThicknessInput(_) => o.(settings := s, surface := ApplyStyle(o.surface, s), stored := stored)
    case ColorInput(_) => o.(settings := s, surface := ApplyStyle(o.surface, s), stored := stored)
    case OpacityInput(_) => o.(settings := s, surface := ApplyStyle(o.surface, s), stored := stored)
    case StyleChange(_) => o.(settings := s, surface := ApplyStyle(o.surface, s), stored := stored)
    case LanguageChange(_) => o.(settings := s, button := ButtonFor(s), stored := stored)
    case ResetClick =>
      OverlayState(s, ApplyStyle(o.surface, s), PanelVisible(s), ButtonFor(s), stored)
    case LockClick => o.(settings := s, panelVisible := PanelVisible(s), button := ButtonFor(s), stored := stored)
  }

  /** Events applied in order. */
  function Run(o: OverlayState, events: seq<Event>): OverlayState
    decreases |events|
  {
    if |events| == 0 then o else Run(Step(o, events[0]), events[1..])
  }

  /** Everything shown or stored agrees with the live settings: the attached
      surface holds their shapes at their opacity, the panel and the lock
      button match the lock flag, and loading the stored record gives them back. */
  predicate Consistent(o: OverlayState) {
    && (o.surface.Some? ==> o.surface.value == Surface(o.settings.opacity, Render(o.settings)))
    && o.panelVisible == PanelVisible(o.settings)
    && o.button == ButtonFor(o.settings)
    && Load(o.stored) == o.settings
  }

  lemma InitConsistent(saved: Option<PartialSettings>, surface: Option<Surface>)
    ensures Consistent(Init(saved, surface))
  {
  }

  /** Every event keeps the view in step with the settings, even those whose
      handlers do not redraw: the language and lock flags are not read by the
      renderer, and the other fields are not read by the lock view. */
  lemma StepConsistent(o: OverlayState, e: Event)
    requires Consistent(o)
    ensures Consistent(Step(o, e))
  {
  }

  /** After start-up and any sequence of user events, the overlay is consistent. */
  lemma {:induction false} RunConsistent(o: OverlayState, events: seq<Event>)
    requires Consistent(o)
    ensures Consistent(Run(o, events))
    decreases |events|
  {
    if |events| > 0 {
      StepConsistent(o, events[0]);
      RunConsistent(Step(o, events[0]), events[1..]);
    }
  }

  lemma SessionConsistent(saved: Option<PartialSettings>, surface: Option<Surface>, events: seq<Event>)
    ensures Consistent(Run(Init(saved, surface), events))
  {
    InitConsistent(saved, surface);
    RunConsistent(Init(saved, surface), events);
  }

  /** Starting from defaults on an attached surface, choosing `sniper` draws
      one cross of the default size 20 and thickness 1, whatever thickness was
      set before. */
  lemma SniperScenario(surface: Surface, px: int)
    ensures var o := Run(Init(None, Some(surface)), [ThicknessInput(px), StyleChange("sniper")]);
      o.surface == Some(Surface(0.8, [HLine(20.0, 1.0, "#FFFFFF"), VLine(1.0, 20.0, "#FFFFFF")]))
  {
    var o1 := Step(Init(None, Some(surface)), ThicknessInput(px));
    var o2 := Step(o1, StyleChange("sniper"));
    assert Run(Init(None, Some(surface)), [ThicknessInput(px), StyleChange("sniper")]) == o2 by {
      assert [ThicknessInput(px), StyleChange("sniper")][1..] == [StyleChange("sniper")];
      assert [StyleChange("sniper")][1..] == [];
    }
    assert o2.settings == Defaults.(thickness := px, style := "sniper");
    RenderSniper(o2.settings, px);
  }

  /** Reset locks the overlay again (the default is locked), hiding the panel,
      and keeps the language. */
  lemma ResetView(o: OverlayState)
    ensures var r := Step(o, ResetClick);
      && !r.panelVisible && r.button == LockButton(LockIcon, "unlockTooltip")
      && r.settings.language == o.settings.language
  {
  }
}
