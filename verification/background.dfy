/** The extension's toolbar button: a click on a tab injects the overlay into
    it or removes it, and the per-tab activation map and badge follow the
    outcome of that call. One click is handled at a time; whether the
    injection or removal succeeded is an explicit input. */
module Background {
  import opened Wrappers

  const OnText: string := "ON"
  const OffText: string := ""
  const OnColor: string := "#4CAF50"

  /** Per-tab activation flags and the badge text and colour set per tab. */
  datatype Tabs = Tabs(
    active: map<int, bool>,
    badgeText: map<int, string>,
    badgeColor: map<int, string>)

  /** Nothing active and no badge set, as when the background script starts. */
  const Start: Tabs := Tabs(map[], map[], map[])

  /** A tab counts as active only if its entry is present and true; an unseen
      tab reads as inactive. */
  predicate IsActive(t: Tabs, tab: int) {
    tab in t.active && t.active[tab]
  }

  /** The badge text a tab shows; a tab whose text was never set shows none. */
  function BadgeShown(t: Tabs, tab: int): string {
    if tab in t.badgeText then t.badgeText[tab] else OffText
  }

  /** A click is ignored when the tab has no id or its id is 0, which the
      truthiness test on the id also rejects. */
  predicate HasUsableId(tabId: Option<int>) {
    tabId.Some? && tabId.value != 0
  }

  /** One click. An active tab gets the overlay removed: on success its entry
      becomes false and its badge text empty. Any other tab gets the overlay
      injected: on success its entry becomes true, its badge text "ON" and its
      badge colour green. A failed call changes nothing. */
  function Click(t: Tabs, tabId: Option<int>, success: bool): (r: Tabs)
    ensures !HasUsableId(tabId) || !success ==> r == t
    ensures HasUsableId(tabId) && success ==>
      var id := tabId.value;
      && id in r.active && r.active[id] == !IsActive(t, id)
      && id in r.badgeText && r.badgeText[id] == (if IsActive(t, id) then OffText else OnText)
      && (IsActive(t, id) ==> r.badgeColor == t.badgeColor)
      && (!IsActive(t, id) ==> id in r.badgeColor && r.badgeColor[id] == OnColor)
      && r.active - {id} == t.active - {id}
      && r.badgeText - {id} == t.badgeText - {id}
      && r.badgeColor - {id} == t.badgeColor - {id}
  {
    if !HasUsableId(tabId) then t
    else
      var id := tabId.value;
      if IsActive(t, id) then
        if success then t.(active := t.active[id := false], badgeText := t.badgeText[id := OffText])
        else t
      else
        if success then
          Tabs(t.active[id := true], t.badgeText[id := OnText], t.badgeColor[id := OnColor])
        else t
  }

  /** A click on one tab never changes what another tab reads or shows. */
  lemma ClickLeavesOtherTabs(t: Tabs, tabId: Option<int>, success: bool, other: int)
    requires HasUsableId(tabId) ==> other != tabId.value
    ensures IsActive(Click(t, tabId, success), other) == IsActive(t, other)
    ensures BadgeShown(Click(t, tabId, success), other) == BadgeShown(t, other)
  {
    var r := Click(t, tabId, success);
    if HasUsableId(tabId) && success {
      var id := tabId.value;
      assert other in r.active - {id} <==> other in t.active - {id};
      assert other in r.badgeText - {id} <==> other in t.badgeText - {id};
    }
  }

  /** Two successful clicks on a tab restore its activation state; when the
      badge agreed with the map beforehand, they restore the badge text too. */
  lemma ClickTwice(t: Tabs, id: int)
    ensures var r := Click(Click(t, Some(id), true), Some(id), true);
      && IsActive(r, id) == IsActive(t, id)
      && (BadgeInSync(t) ==> BadgeShown(r, id) == BadgeShown(t, id))
  {
  }

  /** The badge tells the truth: a tab shows "ON" exactly when it is active. */
  ghost predicate BadgeInSync(t: Tabs) {
    forall tab :: BadgeShown(t, tab) == (if IsActive(t, tab) then OnText else OffText)
  }

  /** The badge stays truthful through every click, whatever its outcome. */
  lemma {:induction false} ClickKeepsBadgeInSync(t: Tabs, tabId: Option<int>, success: bool)
    requires BadgeInSync(t)
    ensures BadgeInSync(Click(t, tabId, success))
  {
    var r := Click(t, tabId, success);
    forall tab
      ensures BadgeShown(r, tab) == (if IsActive(r, tab) then OnText else OffText)
    {
      if HasUsableId(tabId) && tab == tabId.value {
      } else {
        ClickLeavesOtherTabs(t, tabId, success, tab);
        if HasUsableId(tabId) && success {
          assert BadgeShown(t, tab) == (if IsActive(t, tab) then OnText else OffText);
        }
      }
    }
  }

  lemma StartInSync()
    ensures BadgeInSync(Start)
  {
  }

  /** Clicks on one tab with the given outcomes, in order. */
  function ClickAll(t: Tabs, id: int, outcomes: seq<bool>): Tabs
    decreases |outcomes|
  {
    if |outcomes| == 0 then t
    else ClickAll(Click(t, Some(id), outcomes[0]), id, outcomes[1..])
  }

  /** The number of calls that succeeded. */
  function Successes(outcomes: seq<bool>): nat
    decreases |outcomes|
  {
    if |outcomes| == 0 then 0
    else (if outcomes[0] then 1 else 0) + Successes(outcomes[1..])
  }

  /** Only successful calls flip a tab: after any run of clicks it is active
      exactly when it started active and an even number succeeded, or started
      inactive and an odd number succeeded. */
  lemma {:induction false} ClickAllParity(t: Tabs, id: int, outcomes: seq<bool>)
    requires id != 0
    ensures IsActive(ClickAll(t, id, outcomes), id)
        == (IsActive(t, id) != (Successes(outcomes) % 2 == 1))
    decreases |outcomes|
  {
    if |outcomes| > 0 {
      ClickAllParity(Click(t, Some(id), outcomes[0]), id, outcomes[1..]);
    }
  }
}
