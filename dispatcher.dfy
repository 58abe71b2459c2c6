/** The extension's event dispatcher (`TemporaryContainers`): it keeps the set of tabs
    opened without a container, the preferences, the statistics and the permission
    flags, and maps each host event to the calls it makes, in order. */
module Dispatcher {
  import opened Types
  import opened Strings
  import opened Icons
  import opened Migration

  /** The host's "no window" id (`browser.windows.WINDOW_ID_NONE`). */
  const WindowIdNone: int := -1
  const ContextMenuItemId: string := "open-link-in-new-temporary-container-tab"
  const BlankPage: string := "about:blank"
  const UnknownMethodError: string := "Unknown message.method"

  /** A truthy url argument: a non-empty string. */
  predicate Truthy(u: UrlArg)
  {
    u.Url? && u.text != ""
  }

  /** The `deletesHistory` flag of a request built from the preferences. */
  predicate DeletesHistoryByDefault(p: Preferences)
  {
    p.deletesHistoryContainer == Automatic
  }

  /** Every temporary-container request in `effects` takes `deletesHistory` from the preferences. */
  ghost predicate RequestsFollowPreference(effects: seq<Effect>, p: Preferences)
  {
    forall i :: 0 <= i < |effects| && effects[i].CreateTemp? ==>
      effects[i].request.deletesHistory == DeletesHistoryByDefault(p)
  }

  /** `addContextMenu`: the menu item is created only when the preference asks for it. */
  function AddContextMenuEffects(contextMenu: bool): (r: seq<Effect>)
    ensures CreateContextMenu in r <==> contextMenu
    ensures |r| <= 1 && forall i :: 0 <= i < |r| ==> r[i] == CreateContextMenu
  {
    if contextMenu then [CreateContextMenu] else []
  }

  /** `setIcon`: one call that sets the browser-action icon at both sizes to the file
      named after the colour. */
  function SetIconEffects(iconColor: string): (r: seq<Effect>)
    ensures |r| == 1 && r[0].SetBrowserActionIcon?
    ensures StripAffixes(r[0].path16, BrowserActionPrefix, IconSuffix("16")) == Some(IconName(iconColor))
    ensures StripAffixes(r[0].path32, BrowserActionPrefix, IconSuffix("32")) == Some(IconName(iconColor))
  {
    [SetBrowserActionIcon(BrowserActionIconPath(iconColor, "16"), BrowserActionIconPath(iconColor, "32"))]
  }

  /** `showOrHidePageAction`: set the icon, then show or hide; nothing once the host's
      container lookup has failed. */
  function PageActionEffects(tab: Tab, tempContainers: map<string, TempContainer>, pageAction: bool, hostColor: Option<string>): (r: seq<Effect>)
    ensures r == [] <==> PageActionColor(tab.cookieStoreId, tempContainers, hostColor).None?
    ensures r != [] ==>
      && |r| == 2 && r[0].SetPageActionIcon? && r[0].tabId == tab.id
      && StripAffixes(r[0].path19, PageActionPrefix, IconSuffix("19")) == PageActionColor(tab.cookieStoreId, tempContainers, hostColor)
      && StripAffixes(r[0].path38, PageActionPrefix, IconSuffix("38")) == PageActionColor(tab.cookieStoreId, tempContainers, hostColor)
      && (r[1] == ShowPageAction(tab.id) || r[1] == HidePageAction(tab.id))
      && (r[1] == ShowPageAction(tab.id) <==> PageActionVisible(pageAction, tab.url))
  {
    match PageActionColor(tab.cookieStoreId, tempContainers, hostColor)
    case None => []
    case Some(color) =>
      [SetPageActionIcon(tab.id, PageActionIconPath(color, "19"), PageActionIconPath(color, "38")),
       if PageActionVisible(pageAction, tab.url) then ShowPageAction(tab.id) else HidePageAction(tab.id)]
  }

  /** The page action is shown exactly when the lookup succeeded, the preference is on and
      the url starts with "http", and hidden exactly when the lookup succeeded otherwise; the
      icon carries the decided colour and no other. */
  lemma PageActionDecision(tab: Tab, tempContainers: map<string, TempContainer>, pageAction: bool, hostColor: Option<string>, color: string)
    ensures var effects := PageActionEffects(tab, tempContainers, pageAction, hostColor);
      var decided := PageActionColor(tab.cookieStoreId, tempContainers, hostColor);
      && (ShowPageAction(tab.id) in effects <==> decided.Some? && pageAction && StartsWith(tab.url, "http"))
      && (HidePageAction(tab.id) in effects <==> decided.Some? && !(pageAction && StartsWith(tab.url, "http")))
      && (SetPageActionIcon(tab.id, PageActionIconPath(color, "19"), PageActionIconPath(color, "38")) in effects
          <==> decided == Some(color))
  {
    var decided := PageActionColor(tab.cookieStoreId, tempContainers, hostColor);
    if decided.Some? {
      PageActionIconPathInjective(color, decided.value, "19");
    }
  }

  /** The statistics `resetStatistics` stores: every counter zero, started at `now`. */
  function ZeroStatistics(now: int): (s: Statistics)
    ensures s.startTime == now
    ensures s.containersDeleted == 0 && s.cookiesDeleted == 0
    ensures s.deletesHistory.containersDeleted == 0 && s.deletesHistory.cookiesDeleted == 0
    ensures s.deletesHistory.urlsDeleted == 0
  {
    Statistics(now, 0, 0, HistoryStatistics(0, 0, 0))
  }

  /** The browser-action disable calls `runtimeOnStartup` makes for the incognito tabs, in
      tab order. */
  function IncognitoDisables(tabs: seq<Tab>): (r: seq<Effect>)
    ensures |r| <= |tabs|
    ensures forall i :: 0 <= i < |r| ==> r[i].DisableBrowserAction?
    ensures forall i :: 0 <= i < |tabs| && tabs[i].incognito ==> DisableBrowserAction(tabs[i].id) in r
    ensures forall i :: 0 <= i < |r| ==> exists j :: 0 <= j < |tabs| && tabs[j].incognito && tabs[j].id == r[i].tabId
  {
    if tabs == [] then []
    else
      var front := tabs[..|tabs| - 1];
      var last := tabs[|tabs| - 1];
      var r := IncognitoDisables(front) + (if last.incognito then [DisableBrowserAction(last.id)] else []);
      assert forall j :: 0 <= j < |front| ==> front[j] == tabs[j];
      r
  }

  /** What `runtimeOnStartup` does: schedule a forced cleanup, then, once the host has
      answered the query for all tabs (`None` when it failed), disable the browser action
      of every incognito tab and offer the tab to the container manager when it is the
      only one. */
  function StartupEffects(tabs: Option<seq<Tab>>): (r: seq<Effect>)
    ensures |r| >= 1 && r[0] == ScheduleCleanup(true)
    ensures tabs.None? ==> r == [ScheduleCleanup(true)]
  {
    match tabs
    case None => [ScheduleCleanup(true)]
    case Some(tabs) =>
      [ScheduleCleanup(true)] + IncognitoDisables(tabs) + (if |tabs| == 1 then [MaybeReload(tabs[0])] else [])
  }

  /** At startup a reload is requested only when the query succeeded and found exactly one
      tab, and then for that tab alone. */
  lemma StartupReloadsOnlySoleTab(tabs: Option<seq<Tab>>)
    ensures forall t :: MaybeReload(t) in StartupEffects(tabs) <==>
      tabs.Some? && |tabs.value| == 1 && t == tabs.value[0]
  {
    if tabs.Some? {
      var disables := IncognitoDisables(tabs.value);
      forall t | MaybeReload(t) in StartupEffects(tabs)
        ensures |tabs.value| == 1 && t == tabs.value[0]
      {
        assert MaybeReload(t) !in disables;
      }
    }
  }

  /** At startup exactly the incognito tabs the query found get their browser action
      disabled. */
  lemma StartupDisablesOnlyIncognito(tabs: Option<seq<Tab>>)
    ensures forall id :: DisableBrowserAction(id) in StartupEffects(tabs) <==>
      tabs.Some? && exists j :: 0 <= j < |tabs.value| && tabs.value[j].incognito && tabs.value[j].id == id
  {
    if tabs.Some? {
      var r := StartupEffects(tabs);
      var disables := IncognitoDisables(tabs.value);
      var reload := if |tabs.value| == 1 then [MaybeReload(tabs.value[0])] else [];
      assert r == [ScheduleCleanup(true)] + disables + reload;
      forall id | DisableBrowserAction(id) in r
        ensures exists j :: 0 <= j < |tabs.value| && tabs.value[j].incognito && tabs.value[j].id == id
      {
        assert DisableBrowserAction(id) in disables;
        var k :| 0 <= k < |disables| && disables[k] == DisableBrowserAction(id);
        assert disables[k].tabId == id;
      }
    }
  }

  class TemporaryContainers {
    /** Tabs opened deliberately outside any container. */
    var noContainerTabs: set<TabId>
    var preferences: Preferences
    var statistics: Statistics
    var permissions: Permissions
    /** The extension's record of its temporary containers, by cookie store id. */
    var tempContainers: map<string, TempContainer>

    /** A dispatcher over the loaded storage; the permission flags are unknown (false)
        until `Initialize` asks the host. */
    constructor (preferences: Preferences, statistics: Statistics, tempContainers: map<string, TempContainer>)
      ensures this.noContainerTabs == {}
      ensures this.preferences == preferences && this.statistics == statistics
      ensures this.tempContainers == tempContainers
      ensures this.permissions == Permissions(false, false)
    {
      this.noContainerTabs := {};
      this.preferences := preferences;
      this.statistics := statistics;
      this.tempContainers := tempContainers;
      this.permissions := Permissions(false, false);
    }

    /** `initialize`: store the permissions the host reports, add the context menu and
        set a non-default icon. `historyGranted` and `notificationsGranted` are the host's
        answers to the two permission probes, `None` when a probe failed; a failed probe
        ends the handler before anything is stored or called. */
    method Initialize(historyGranted: Option<bool>, notificationsGranted: Option<bool>) returns (effects: seq<Effect>)
      modifies this`permissions
      ensures historyGranted.None? || notificationsGranted.None? ==>
        permissions == old(permissions) && effects == []
      ensures historyGranted.Some? && notificationsGranted.Some? ==>
        && permissions == Permissions(historyGranted.value, notificationsGranted.value)
        && effects == AddContextMenuEffects(preferences.contextMenu)
             + (if preferences.iconColor != "default" then SetIconEffects(preferences.iconColor) else [])
    {
      if historyGranted.None? || notificationsGranted.None? {
        return [];
      }
      permissions := Permissions(historyGranted.value, notificationsGranted.value);
      effects := AddContextMenuEffects(preferences.contextMenu);
      if preferences.iconColor != "default" {
        effects := effects + SetIconEffects(preferences.iconColor);
      }
    }

    /** `runtimeOnMessage`: messages from the extension's own pages. `now` is the clock. */
    method RuntimeOnMessage(message: Message, now: int) returns (effects: seq<Effect>)
      modifies this`preferences, this`statistics, this`permissions
      ensures message.LinkClickedMessage? ==>
        effects == [LinkClicked(message.payload, message.sender)]
      ensures message.SavePreferences? ==>
        && preferences == message.preferences
        && permissions == (if message.preferences.notifications then old(permissions).(notifications := true) else old(permissions))
        && statistics == old(statistics)
        && effects == (if old(preferences).iconColor != message.preferences.iconColor
                       then SetIconEffects(message.preferences.iconColor) else []) + [Persist]
      ensures message.ResetStatistics? ==>
        statistics == ZeroStatistics(now) && effects == [Persist]
      ensures message.HistoryPermissionAllowed? ==>
        permissions == old(permissions).(history := true) && effects == []
      ensures message.NotAnObject? || message.OtherMethod? ==> effects == []
      ensures !message.SavePreferences? ==> preferences == old(preferences)
      ensures !message.ResetStatistics? && !message.SavePreferences? ==> statistics == old(statistics)
      ensures !message.SavePreferences? && !message.HistoryPermissionAllowed? ==> permissions == old(permissions)
    {
      effects := [];
      match message
      case NotAnObject =>
      case LinkClickedMessage(payload, sender) =>
        effects := [LinkClicked(payload, sender)];
      case SavePreferences(newPreferences) =>
        if preferences.iconColor != newPreferences.iconColor {
          effects := SetIconEffects(newPreferences.iconColor);
        }
        if newPreferences.notifications {
          permissions := permissions.(notifications := true);
        }
        preferences := newPreferences;
        effects := effects + [Persist];
      case ResetStatistics =>
        statistics := ZeroStatistics(now);
        effects := [Persist];
      case HistoryPermissionAllowed =>
        permissions := permissions.(history := true);
      case OtherMethod(_) =>
    }

    /** `runtimeOnMessageExternal`: other extensions may only ask for a temporary-container
        tab; every other method is an error. */
    method RuntimeOnMessageExternal(message: ExternalMessage) returns (result: Result<seq<Effect>, string>)
      ensures result.Success? <==> message.methodName == "createTabInTempContainer"
      ensures result.Failure? ==> result.error == UnknownMethodError
      ensures result.Success? ==>
        && |result.value| == 1 && result.value[0].CreateTemp?
        && RequestsFollowPreference(result.value, preferences)
        && var request := result.value[0].request;
        && request.tab.None?
        && request.active == Some(message.active.None? || message.active.value)
        && request.url == (if Truthy(message.url) then message.url else Null)
    {
      if message.methodName == "createTabInTempContainer" {
        var url := if Truthy(message.url) then message.url else Null;
        var active := if message.active.None? then true else message.active.value;
        result := Success([CreateTemp(CreateRequest(None, url, Some(active), DeletesHistoryByDefault(preferences)))]);
      } else {
        result := Failure(UnknownMethodError);
      }
    }

    /** `browserActionOnClicked`: the toolbar button opens a temporary-container tab when
        its shortcut preference (AltC) is on. */
    method BrowserActionOnClicked(tab: Tab, url: UrlArg) returns (effects: seq<Effect>)
      ensures !preferences.keyboardShortcuts.AltC ==> effects == []
      ensures preferences.keyboardShortcuts.AltC ==>
        effects == [CreateTemp(CreateRequest(Some(tab), url, None, DeletesHistoryByDefault(preferences)))]
      ensures RequestsFollowPreference(effects, preferences)
    {
      if !preferences.keyboardShortcuts.AltC {
        return [];
      }
      var deletesHistory := false;
      if preferences.deletesHistoryContainer == Automatic {
        deletesHistory := true;
      }
      effects := [CreateTemp(CreateRequest(Some(tab), url, None, deletesHistory))];
    }

    /** `tabsOnCreated`: incognito tabs get their browser action disabled and are never
        reloaded; every other tab is offered to the container manager. */
    method TabsOnCreated(tab: Tab) returns (effects: seq<Effect>)
      ensures tab.incognito ==> effects == [DisableBrowserAction(tab.id)]
      ensures !tab.incognito ==> effects == [MaybeReload(tab)]
    {
      if tab.incognito {
        return [DisableBrowserAction(tab.id)];
      }
      effects := [MaybeReload(tab)];
    }

    /** `showOrHidePageAction` for `tab`; `hostColor` is the host's container lookup. */
    method ShowOrHidePageAction(tab: Tab, hostColor: Option<string>) returns (effects: seq<Effect>)
      ensures effects == PageActionEffects(tab, tempContainers, preferences.pageAction, hostColor)
      ensures PageActionColor(tab.cookieStoreId, tempContainers, hostColor).None? <==> effects == []
    {
      var color: string;
      if tab.cookieStoreId == DefaultCookieStore {
        color := "gray";
      } else if tab.cookieStoreId in tempContainers && tempContainers[tab.cookieStoreId].color != "" {
        color := tempContainers[tab.cookieStoreId].color;
      } else {
        if hostColor.None? {
          return [];
        }
        color := hostColor.value;
      }
      effects := [SetPageActionIcon(tab.id, PageActionIconPath(color, "19"), PageActionIconPath(color, "38"))];
      if !preferences.pageAction || !StartsWith(tab.url, "http") {
        effects := effects + [HidePageAction(tab.id)];
      } else {
        effects := effects + [ShowPageAction(tab.id)];
      }
    }

    /** `tabsOnUpdated`: only a url change matters; it is recorded for history, the page
        action is refreshed, and the tab is offered to the container manager, in that
        order. A failed container lookup ends the handler before the last call. */
    method TabsOnUpdated(tabId: TabId, changeInfo: ChangeInfo, tab: Tab, hostColor: Option<string>) returns (effects: seq<Effect>)
      ensures (changeInfo.url.None? || changeInfo.url.value == "") ==> effects == []
      ensures changeInfo.url.Some? && changeInfo.url.value != "" ==>
        effects == [MaybeAddHistory(tab, changeInfo.url.value)]
          + PageActionEffects(tab, tempContainers, preferences.pageAction, hostColor)
          + (if PageActionColor(tab.cookieStoreId, tempContainers, hostColor).Some? then [MaybeReload(tab)] else [])
    {
      if changeInfo.url.None? || changeInfo.url.value == "" {
        return [];
      }
      effects := [MaybeAddHistory(tab, changeInfo.url.value)];
      var pageAction := ShowOrHidePageAction(tab, hostColor);
      effects := effects + pageAction;
      if pageAction != [] {
        effects := effects + [MaybeReload(tab)];
      }
    }

    /** `tabsOnRemoved`: forget the tab's no-container mark, and always hand the tab to the
        container manager's removal queue. */
    method TabsOnRemoved(tabId: TabId) returns (effects: seq<Effect>)
      modifies this`noContainerTabs
      ensures noContainerTabs == old(noContainerTabs) - {tabId}
      ensures effects == [AddToRemoveQueue(tabId)]
    {
      if tabId in noContainerTabs {
        noContainerTabs := noContainerTabs - {tabId};
      }
      effects := [AddToRemoveQueue(tabId)];
    }

    /** `tabsOnActivated`: the context menu is rebuilt and the page action refreshed for a
        non-incognito tab. `activated` is the host's answer to the tab lookup. */
    method TabsOnActivated(activated: Option<Tab>, hostColor: Option<string>) returns (effects: seq<Effect>)
      ensures activated.None? || activated.value.incognito ==> effects == [RemoveAllContextMenus]
      ensures activated.Some? && !activated.value.incognito ==>
        effects == [RemoveAllContextMenus] + AddContextMenuEffects(preferences.contextMenu)
          + PageActionEffects(activated.value, tempContainers, preferences.pageAction, hostColor)
    {
      effects := [RemoveAllContextMenus];
      if activated.None? {
        return;
      }
      var tab := activated.value;
      if !tab.incognito {
        effects := effects + AddContextMenuEffects(preferences.contextMenu);
        var pageAction := ShowOrHidePageAction(tab, hostColor);
        effects := effects + pageAction;
      }
    }

    /** `windowsOnFocusChanged`: the context menu follows the focused window's active tab.
        `activeTabs` is the host's answer to the query, `None` when it failed. */
    method WindowsOnFocusChanged(windowId: int, activeTabs: Option<seq<Tab>>) returns (effects: seq<Effect>)
      ensures windowId == WindowIdNone ==> effects == []
      ensures windowId != WindowIdNone ==>
        effects == [RemoveAllContextMenus]
          + (if activeTabs.Some? && |activeTabs.value| > 0 && !activeTabs.value[0].incognito
             then AddContextMenuEffects(preferences.contextMenu) else [])
    {
      if windowId == WindowIdNone {
        return [];
      }
      effects := [RemoveAllContextMenus];
      if activeTabs.None? || |activeTabs.value| == 0 {
        return;
      }
      if !activeTabs.value[0].incognito {
        effects := effects + AddContextMenuEffects(preferences.contextMenu);
      }
    }

    /** `contextMenusOnClicked`: the menu item opens the link in a background
        temporary-container tab. */
    method ContextMenusOnClicked(info: MenuClick, tab: Tab) returns (effects: seq<Effect>)
      ensures info.menuItemId != ContextMenuItemId ==> effects == []
      ensures info.menuItemId == ContextMenuItemId ==>
        effects == [CreateTemp(CreateRequest(Some(tab), info.linkUrl, Some(false), DeletesHistoryByDefault(preferences)))]
      ensures RequestsFollowPreference(effects, preferences)
    {
      var deletesHistory := false;
      if preferences.deletesHistoryContainer == Automatic {
        deletesHistory := true;
      }
      effects := [];
      if info.menuItemId == ContextMenuItemId {
        effects := [CreateTemp(CreateRequest(Some(tab), info.linkUrl, Some(false), deletesHistory))];
      }
    }

    /** `commandsOnCommand`: keyboard shortcuts, each gated on its preference. `newTab` and
        `newWindowTabs` are the host's answers to the tab and window creation the first two
        commands ask for, `None` when creation failed. */
    method CommandsOnCommand(name: string, newTab: Option<TabId>, newWindowTabs: Option<seq<TabId>>) returns (effects: seq<Effect>)
      modifies this`noContainerTabs
      ensures name == "new_no_container_tab" ==>
        if !preferences.keyboardShortcuts.AltN then
          effects == [] && noContainerTabs == old(noContainerTabs)
        else
          && effects == [CreateBrowserTab(BlankPage, Some(true))]
          && noContainerTabs == old(noContainerTabs) + (if newTab.Some? then {newTab.value} else {})
      ensures name == "new_no_container_window_tab" ==>
        if !preferences.keyboardShortcuts.AltShiftC then
          effects == [] && noContainerTabs == old(noContainerTabs)
        else
          && effects == [CreateBrowserWindow(BlankPage)]
          && noContainerTabs == old(noContainerTabs)
               + (if newWindowTabs.Some? && |newWindowTabs.value| > 0 then {newWindowTabs.value[0]} else {})
      ensures name == "new_no_history_tab" ==>
        effects == (if preferences.keyboardShortcuts.AltP && permissions.history
                    then [CreateTemp(CreateRequest(None, Undefined, None, true))] else [])
      ensures name == "new_same_container_tab" ==>
        effects == (if preferences.keyboardShortcuts.AltX then [CreateInSameContainer] else [])
      ensures name !in {"new_no_container_tab", "new_no_container_window_tab", "new_no_history_tab", "new_same_container_tab"} ==>
        effects == []
      ensures name != "new_no_container_tab" && name != "new_no_container_window_tab" ==>
        noContainerTabs == old(noContainerTabs)
    {
      effects := [];
      if name == "new_no_container_tab" {
        if !preferences.keyboardShortcuts.AltN {
          return;
        }
        effects := [CreateBrowserTab(BlankPage, Some(true))];
        if newTab.Some? {
          noContainerTabs := noContainerTabs + {newTab.value};
        }
      } else if name == "new_no_container_window_tab" {
        if !preferences.keyboardShortcuts.AltShiftC {
          return;
        }
        effects := [CreateBrowserWindow(BlankPage)];
        if newWindowTabs.Some? && |newWindowTabs.value| > 0 {
          noContainerTabs := noContainerTabs + {newWindowTabs.value[0]};
        }
      } else if name == "new_no_history_tab" {
        if !preferences.keyboardShortcuts.AltP {
          return;
        }
        if permissions.history {
          effects := [CreateTemp(CreateRequest(None, Undefined, None, true))];
        }
      } else if name == "new_same_container_tab" {
        if !preferences.keyboardShortcuts.AltX {
          return;
        }
        effects := [CreateInSameContainer];
      }
    }

    /** `runtimeOnInstalled`: a temporary install skips the update logic; an update schedules
        the preference migration. */
    method RuntimeOnInstalled(details: InstallDetails) returns (effects: seq<Effect>)
      ensures details.temporary || details.reason != "update" ==> effects == []
      ensures !details.temporary && details.reason == "update" ==>
        effects == [ScheduleMigration(details.previousVersion)]
    {
      if details.temporary {
        return [];
      }
      effects := [];
      if details.reason == "update" {
        effects := [ScheduleMigration(details.previousVersion)];
      }
    }

    /** `onUpdateMigration`: rewrite the preferences for an update from `previousVersion`;
        `cmp` is the extension's `versionCompare`. */
    method OnUpdateMigration(previousVersion: string, cmp: VersionCompare) returns (effects: seq<Effect>)
      modifies this`preferences
      ensures preferences == Migrate(old(preferences), NormalizeVersion(previousVersion), cmp)
      ensures effects == MigrationEffects(old(preferences), NormalizeVersion(previousVersion), cmp)
    {
      var prev := NormalizeVersion(previousVersion);
      effects := [];
      if cmp("0.16", prev) >= 0 {
        if !preferences.automaticMode {
          preferences := preferences.(linkClickGlobal := preferences.linkClickGlobal.(
            middle := preferences.linkClickGlobal.middle.(action := Never)));
          preferences := preferences.(linkClickGlobal := preferences.linkClickGlobal.(
            ctrlleft := preferences.linkClickGlobal.ctrlleft.(action := Never)));
          effects := effects + [Persist];
        }
      }
      if cmp("0.33", prev) >= 0 {
        preferences := preferences.(linkClickGlobal := WithLeftNever(preferences.linkClickGlobal));
        SetDomainLeftClicksNever();
        effects := effects + [Persist];
      }
      if cmp("0.57", prev) >= 0 {
        if preferences.automaticMode && preferences.automaticModeNewTab == "navigation" {
          preferences := preferences.(automaticModeNewTab := "created");
          effects := effects + [Persist, CreateBrowserTab(NewTabNoticePage, None)];
        }
      }
    }

    /** The loop of the second migration rule: each domain pattern's left click, one
        pattern at a time. */
    method SetDomainLeftClicksNever()
      modifies this`preferences
      ensures preferences == old(preferences).(linkClickDomain := DomainsLeftNever(old(preferences).linkClickDomain))
    {
      ghost var before := preferences.linkClickDomain;
      var patterns := preferences.linkClickDomain.Keys;
      while patterns != {}
        invariant preferences == old(preferences).(linkClickDomain := preferences.linkClickDomain)
        invariant preferences.linkClickDomain.Keys == before.Keys
        invariant patterns <= before.Keys
        invariant forall pattern :: pattern in patterns ==> preferences.linkClickDomain[pattern] == before[pattern]
        invariant forall pattern :: pattern in before && pattern !in patterns ==>
          preferences.linkClickDomain[pattern] == WithLeftNever(before[pattern])
        decreases patterns
      {
        var pattern :| pattern in patterns;
        var domains := preferences.linkClickDomain;
        preferences := preferences.(linkClickDomain := domains[pattern := WithLeftNever(domains[pattern])]);
        patterns := patterns - {pattern};
      }
      assert preferences.linkClickDomain == DomainsLeftNever(before);
    }

    /** `runtimeOnStartup`, with `queried` the host's answer to the query for all tabs,
        `None` when the query failed. */
    method RuntimeOnStartup(queried: Option<seq<Tab>>) returns (effects: seq<Effect>)
      ensures effects == StartupEffects(queried)
    {
      effects := [ScheduleCleanup(true)];
      if queried.None? {
        return;
      }
      var tabs := queried.value;
      var disables: seq<Effect> := [];
      var i := 0;
      while i < |tabs|
        invariant 0 <= i <= |tabs|
        invariant disables == IncognitoDisables(tabs[..i])
      {
        assert tabs[..i + 1][..i] == tabs[..i];
        if tabs[i].incognito {
          disables := disables + [DisableBrowserAction(tabs[i].id)];
        }
        i := i + 1;
      }
      assert tabs[..|tabs|] == tabs;
      effects := effects + disables;
      if |tabs| == 1 {
        effects := effects + [MaybeReload(tabs[0])];
      }
    }
  }
}
