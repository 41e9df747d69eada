# Crosshair overlay: settings, render and tab toggle

A Dafny model of the browser extension that draws a configurable crosshair over
a web page. Three parts are modelled:

- **The settings store of the content script.** The default record, the merge
  of a saved record over the defaults at load time, and reset (back to defaults
  but keeping the language). It also covers the per-field input handlers and the
  lock toggle, with the settings panel and lock button that the toggle drives.
- **The crosshair renderer.** It maps the settings to at most two shapes: a
  cross (two lines), a dot, or a circle plus a dot. Scaled sizes are exact
  reals. Redrawing clears the surface first. Nothing is drawn while no surface
  is attached.
- **The toolbar button of the background script.** It keeps a per-tab map of
  active overlays and a per-tab badge, and each click injects or removes the
  overlay.

Modules:

- `Wrappers` (wrappers.dfy): `Option`.
- `SettingsStore` (settings.dfy): `Settings`, the partial saved record, `Load`, `Save`, `Reset`, `ToggleLock` and one setter per field.
- `LockView` (lockview.dfy): panel visibility and the lock button's icon and tooltip key.
- `Renderer` (renderer.dfy): the style switch, `Shape`, `Render` and the surface redraw.
- `Overlay` (overlay.dfy): the content script as a state machine. `Init`, then `Step` per user event. The invariant `Consistent` says the surface, panel, button and stored record all agree with the live settings. It holds after start-up and after every event.
- `Background` (background.dfy): `Click(tabs, tabId, success)`.

Side effects are values or parameters:

- Storage is the `stored` record of the overlay state. Each handler writes the whole settings record at once. In the source this write is fire-and-forget.
- Whether the script-injection call succeeded is the `success` argument of `Click`.
- The drawing surface is an `Option<Surface>`.

Three facts about the source that the model keeps:

- The lock toggle in `js/main.js` changes no click-through mode. It only updates the button and the panel (js/main.js:142-147).
- The input handlers store what they receive without validating or clamping it (js/main.js:100-137).
- A language code is stored as given, with no fallback to a default language (js/main.js:133-134).

## Model

| member | source | states |
|---|---|---|
| SettingsStore.Load | js/main.js:66-73 | with no saved record the result is exactly the default record; with one, each field is the saved value when present and the default otherwise |
| SettingsStore.Save | js/main.js:75-77 | the record written has every one of the seven fields present, and loading it back gives the configuration |
| SettingsStore.LoadEmptyRecord | js/main.js:66-73 | a saved record with no fields loads as the defaults, the same as no record |
| SettingsStore.SaveLoadRoundTrip | js/main.js:66-77 | save then load is the identity, and distinct configurations are written as distinct records |
| SettingsStore.Reset | js/main.js:79-80 | reset keeps the language and sets every other field to its default |
| SettingsStore.ResetLaws | js/main.js:79-80 | two configurations reset to the same value iff their languages agree; reset is idempotent; reset equals a fresh load iff the language is the default one |
| SettingsStore.ToggleLock | js/main.js:142-143 | the lock click flips `locked` and changes no other field |
| SettingsStore.ToggleLockTwice | js/main.js:142-143 | toggling twice is the identity; toggling once always changes the record |
| SettingsStore.SetSize | js/main.js:100-101 | the size handler stores the slider value and changes no other field |
| SettingsStore.SetThickness | js/main.js:107-108 | the thickness handler stores the slider value and changes no other field |
| SettingsStore.SetColor | js/main.js:114-115 | the colour handler stores the picked colour and changes no other field |
| SettingsStore.SetOpacity | js/main.js:120-121 | the stored opacity times 100 is the slider percentage; no other field changes |
| SettingsStore.SetStyle | js/main.js:127-128 | the style handler stores the selected string as given and changes no other field |
| SettingsStore.SetLanguage | js/main.js:133-134 | the language handler stores the selected code as given and changes no other field |
| SettingsStore.SetterLaws | js/main.js:100-134 | for each field handler, storing the value the field already holds changes nothing; the opacity handler is a no-op iff the percentage is the stored fraction times 100 |
| LockView.PanelVisible | js/main.js:178-184 | the panel is visible iff the settings are unlocked |
| LockView.ButtonFor | js/main.js:165-176 | locked iff the button shows the lock icon iff its tooltip key is `unlockTooltip`; unlocked iff the key is `lockTooltip` |
| LockView.ToggleLockView | js/main.js:142-147 | a lock click flips panel visibility and changes the button, two clicks restore the button, and the panel is visible iff the button shows the open padlock |
| LockView.ViewReadsOnlyLocked | js/main.js:165-184 | two configurations show the same panel and button iff their lock flags agree |
| Renderer.StyleName | js/main.js:201-226 | every known style has one of the seven case strings of the style switch |
| Renderer.ParseStyle | js/main.js:201-226 | a string falls to the fallback case iff it is none of the seven case strings; a known case maps back to its string |
| Renderer.ParseStyleName | js/main.js:201-226 | each known style is recovered from its case string |
| Renderer.DrawCross | js/main.js:230-248 | drawing a cross keeps every shape already on the surface and appends exactly two: a horizontal line size wide and thickness high, then a vertical line thickness wide and size high |
| Renderer.DrawDot | js/main.js:250-260 | drawing a dot keeps every shape already on the surface and appends exactly one dot of the given diameter and colour |
| Renderer.DrawCircle | js/main.js:262-273 | drawing a circle keeps every shape already on the surface and appends exactly one ring of the given diameter, border width and colour |
| Renderer.Render | js/main.js:187-228 | every render has one or two shapes, all in the configured colour |
| Renderer.RenderPlainCross | js/main.js:211-248 | `default`, `assault` and any unrecognised string give exactly one cross: a horizontal line size wide and thickness high, then a vertical line thickness wide and size high |
| Renderer.RenderSniper | js/main.js:202-206 | `sniper` gives one cross of the configured size and thickness 1, and changing the configured thickness does not change it |
| Renderer.RenderSmg | js/main.js:214-216 | `smg` gives one cross whose length is the larger of 10 and size*0.75 and whose thickness is the larger of 1 and thickness*0.8 |
| Renderer.RenderLmg | js/main.js:217-219 | `lmg` gives one cross of the configured size whose thickness is the smaller of 10 and thickness*1.5 |
| Renderer.RenderPistol | js/main.js:220-222 | `pistol` gives a single dot whose diameter is the larger of 3 and thickness*1.5 |
| Renderer.RenderShotgun | js/main.js:207-210 | `shotgun` gives a circle of diameter size*1.5 with the thickness as border, then a dot whose diameter is the larger of 2 and thickness/2 |
| Renderer.RenderExamples | js/main.js:207-222 | at the default size 20 and thickness 2: smg draws a 15 by 1.6 cross, shotgun a 30 circle with border 2 and a 2 dot, pistol a 3 dot |
| Renderer.RenderReads | js/main.js:196-199 | the shapes depend only on size, thickness, colour and style |
| Renderer.ApplyStyle | js/main.js:187-194 | with no surface a redraw does nothing; with one, the surface takes the configured opacity and holds at most two shapes |
| Renderer.ApplyStyleForgetsPrevious | js/main.js:190-191 | a redraw clears first: the result does not depend on the previous shapes and is exactly the render of the settings |
| Overlay.HandleTouchesOnlyItsField | js/main.js:98-147 | every form control and the lock button change only their own field |
| Overlay.HandlersCommute | js/main.js:98-147 | any two events other than reset that write different fields give the same settings in either order |
| Overlay.LaterOverrides | js/main.js:100-137 | a form-control input followed by another input on the same field gives the settings of the second input alone |
| Overlay.Init | js/main.js:19-40 | start-up loads the merged settings, writes nothing, and keeps the surface attached or not as given |
| Overlay.Step | js/main.js:98-147 | each event runs its handler's update and then writes the whole new record; attachment of the surface never changes |
| Overlay.InitConsistent | js/main.js:31-38 | right after start-up the surface, panel, button and stored record agree with the settings |
| Overlay.StepConsistent | js/main.js:98-147 | every handler keeps them in agreement, including those that do not redraw, such as language and lock |
| Overlay.RunConsistent | js/main.js:98-147 | agreement survives any sequence of events |
| Overlay.SessionConsistent | js/main.js:19-147 | agreement holds after start-up from any saved record followed by any sequence of events |
| Overlay.SniperScenario | js/main.js:202-206 | from the defaults, choosing `sniper` draws a cross of length 20 and thickness 1 whatever thickness was set before |
| Overlay.ResetView | js/main.js:79-84 | reset relocks the overlay: the panel is hidden, the lock icon with `unlockTooltip` is shown, and the language is kept |
| Background.Click | js/background.js:4-25 | no id or a failed call changes nothing; a successful click flips the tab's entry, sets its badge text to "" or "ON" (and its colour to green on injection), and leaves every other tab's entries alone |
| Background.ClickLeavesOtherTabs | js/background.js:7-23 | a click never changes another tab's activation or badge text |
| Background.ClickTwice | js/background.js:7-22 | two successful clicks on a tab restore its activation state, and also its badge text when the badge agreed with the map beforehand |
| Background.StartInSync | js/background.js:2 | at start no tab is active and no badge reads "ON" |
| Background.ClickKeepsBadgeInSync | js/background.js:7-23 | if every tab's badge reads "ON" iff the tab is active before a click, the same holds after it, whatever the click's id or outcome |
| Background.ClickAllParity | js/background.js:4-25 | after any run of clicks on one tab, the tab is active iff its start state differs from "an odd number of calls succeeded" |

## Left out

- `loadAssets`, the DOM element construction in `drawCross`, `drawDot` and `drawCircle`, and the form-field writes in `applyAllSettings` and `resetSettings`. These are DOM, CSS and `fetch` work. Only the shapes, the opacity and the panel and button state are modelled.
- `applyLanguage` and `js/i18n.js`: text replacement through the browser's message lookup. Only its refresh of the lock button is modelled.
- Persistence timing: the storage write is asynchronous and not awaited. The model writes at once, and a lost write is not modelled.
- `parseInt`: the handlers receive integers, so `NaN` inputs are not modelled.
- IEEE-754 rounding: the scaled sizes and the opacity are exact reals, and the `opacity * 100` display string is not modelled.
- Saved records with fields of the wrong type are not modelled. A field is either present with the right type or missing.
- `removeOverlay` and the script-injection call are reduced to the `success` argument of `Click`.
- Two clicks on the toolbar button in quick succession, whose promises can interleave, are concurrency and are not modelled. Clicks are handled one at a time.
- A restart of the background script is not modelled. The model covers a single lifetime of that script. A restart empties the activation map (js/background.js:2) but the browser keeps the per-tab badges. After a restart, a tab whose badge reads "ON" counts as inactive, and the next click injects again instead of removing.
- `electron-main.js` and `preload.js` (window creation, mouse pass-through, translation loading, IPC) are platform glue and are not part of this model.
