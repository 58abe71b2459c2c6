/** Values the dispatcher of the temporary-containers extension reads and writes:
    tabs, the persisted preferences and statistics, the permission flags, and the
    calls it makes into the browser and into its collaborators, recorded as effects. */
module Types {

  datatype Option<+T> = None | Some(value: T)

  datatype Result<+R, +E> = Success(value: R) | Failure(error: E)

  /** The host's integer tab handle. */
  type TabId = int

  /** The parts of a host tab the dispatcher looks at. */
  datatype Tab = Tab(id: TabId, incognito: bool, cookieStoreId: string, url: string)

  /** A JavaScript argument that may be undefined, null or a string. */
  datatype UrlArg = Undefined | Null | Url(text: string)

  /** One link-click rule (`{action, ...}`); its other properties are kept opaque. */
  datatype ClickRule = ClickRule(action: string, others: map<string, string>)

  /** The rules for the three mouse gestures, globally or for one domain pattern. */
  datatype LinkClickRules = LinkClickRules(middle: ClickRule, ctrlleft: ClickRule, left: ClickRule)

  datatype KeyboardShortcuts = KeyboardShortcuts(AltC: bool, AltP: bool, AltN: bool, AltShiftC: bool, AltX: bool)

  /** The persisted preferences record; `others` stands for every field the dispatcher ignores. */
  datatype Preferences = Preferences(
    automaticMode: bool,
    automaticModeNewTab: string,
    linkClickGlobal: LinkClickRules,
    linkClickDomain: map<string, LinkClickRules>,
    keyboardShortcuts: KeyboardShortcuts,
    deletesHistoryContainer: string,
    pageAction: bool,
    contextMenu: bool,
    iconColor: string,
    notifications: bool,
    others: map<string, string>)

  datatype HistoryStatistics = HistoryStatistics(containersDeleted: nat, cookiesDeleted: nat, urlsDeleted: nat)

  /** The persisted statistics record; `startTime` is a host timestamp. */
  datatype Statistics = Statistics(
    startTime: int,
    containersDeleted: nat,
    cookiesDeleted: nat,
    deletesHistory: HistoryStatistics)

  datatype Permissions = Permissions(history: bool, notifications: bool)

  /** What the extension recorded about one of its temporary containers; "" is an absent colour. */
  datatype TempContainer = TempContainer(color: string)

  /** The argument object of `createTabInTempContainer`; `None` for `tab` or `active` is an
      absent property (undefined). */
  datatype CreateRequest = CreateRequest(tab: Option<Tab>, url: UrlArg, active: Option<bool>, deletesHistory: bool)

  /** A call the dispatcher makes, in the order it makes them. */
  datatype Effect =
    // calls into the container collaborator
    | MaybeAddHistory(tab: Tab, url: string)
    | MaybeReload(tab: Tab)
    | CreateTemp(request: CreateRequest)
    | CreateInSameContainer
    | AddToRemoveQueue(tabId: TabId)
    | ScheduleCleanup(force: bool)
    // a call into the link-click collaborator
    | LinkClicked(payload: string, sender: string)
    // browser calls
    | DisableBrowserAction(tabId: TabId)
    | SetBrowserActionIcon(path16: string, path32: string)
    | SetPageActionIcon(tabId: TabId, path19: string, path38: string)
    | ShowPageAction(tabId: TabId)
    | HidePageAction(tabId: TabId)
    | CreateContextMenu
    | RemoveAllContextMenus
    | CreateBrowserTab(url: string, active: Option<bool>)
    | CreateBrowserWindow(url: string)
    // storage and scheduling
    | Persist
    | ScheduleMigration(previousVersion: string)

  /** A message from the extension's own pages (`runtime.onMessage`). */
  datatype Message =
    | NotAnObject
    | LinkClickedMessage(payload: string, sender: string)
    | SavePreferences(preferences: Preferences)
    | ResetStatistics
    | HistoryPermissionAllowed
    | OtherMethod(name: string)

  /** A message from another extension (`runtime.onMessageExternal`). */
  datatype ExternalMessage = ExternalMessage(methodName: string, url: UrlArg, active: Option<bool>)

  /** The `details` of `runtime.onInstalled`. */
  datatype InstallDetails = InstallDetails(temporary: bool, reason: string, previousVersion: string)

  /** The `info` of `contextMenus.onClicked`. */
  datatype MenuClick = MenuClick(menuItemId: string, linkUrl: UrlArg)

  /** The `changeInfo` of `tabs.onUpdated`; "" or absent is a falsy url. */
  datatype ChangeInfo = ChangeInfo(url: Option<string>)
}
