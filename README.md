# Event dispatcher of the temporary-containers extension, in Dafny

This project models `TemporaryContainers` in `src/background.js`. That class is the
extension's event dispatcher. It receives the browser's events (tab created, updated,
removed and activated; window focus changed; shortcut commands; toolbar and context-menu
clicks; messages from its own pages and from other extensions; install, update and
startup). For each event it decides which calls to make and makes them, in order:
calls into the container manager (`maybeReloadTabInTempContainer`,
`createTabInTempContainer`, `addToRemoveQueue`, ...) and calls into the browser.
It also keeps some state of its own:

- the set of tabs opened deliberately without a container (`noContainerTabs`);
- the preferences, the statistics and the extension's record of its temporary containers;
- the history and notification permission flags.

How the model is built:

- `Types` holds the data model. Every call the dispatcher makes becomes an `Effect` value.
  Every answer the browser gives becomes a parameter of the handler: the created tab or
  window, the activated tab, the queried tabs (the focused window's active tab and, at
  startup, all tabs), the container lookup, the two permission probes and the clock.
  An answer that fails is `None`, and the handler then stops where the source's `await`
  would throw.
- `Dispatcher.TemporaryContainers` is a class with the fields the source updates in
  place. It has one method per handler. Each method returns the effects it emits, in
  order. Each method's `ensures` gives those effects and, where the handler changes
  state, the new state in terms of the old.
- `Icons` holds the pure page-action colour and visibility decision and the icon paths.
- `Migration` holds the version-gated preference rewrite and the lemmas about it.
- `Strings` holds the string operations these need (`startsWith`, first-occurrence
  `replace`).

`versionCompare` is not part of this model. It is a parameter `cmp`, and
`versionCompare(bound, v) >= 0` is read as "v is at most bound" (`Migration.AtMost`).
The lemmas that need more take two assumptions as `requires`:

- "at most" is a total preorder (`Migration.IsVersionPreorder`);
- the gates are ordered 0.16 ≤ 0.33 ≤ 0.57 (`Migration.GatesOrdered`).

Two details of the code that are easy to miss. The model follows the code in both:

- The page-action colour is always gray for the default cookie store. But gray is not
  only produced there: a temporary container whose recorded colour is gray, or a host
  container coloured gray, also gives gray. So `Icons.PageActionColor` states the
  implication, not an "if and only if".
- In `showOrHidePageAction`, a failed host lookup of the container ends the handler before
  any icon, show or hide call. `tabsOnUpdated` awaits it, so after a failed lookup
  `maybeReloadTabInTempContainer` is not called either.

## Model

| member | source | states |
|---|---|---|
| Dispatcher.TemporaryContainers.constructor | src/background.js:16-26 | the no-container set starts empty; storage is the loaded record |
| Dispatcher.TemporaryContainers.Initialize | src/background.js:29-60 | when either permission probe fails, nothing is stored and nothing is called. Otherwise the permission flags are exactly what the host reports, the context menu is added when the preference is on, and then the icon is set only for a non-default icon colour |
| Dispatcher.AddContextMenuEffects | src/background.js:289-302 | the menu item is created exactly when the context-menu preference is on, and at most once |
| Dispatcher.SetIconEffects | src/background.js:305-317 | one browser-action call; both its 16 and 32 paths name the file after the colour, with "default" written "d" |
| Dispatcher.PageActionEffects | src/background.js:180-204 | nothing exactly when the colour could not be decided. Otherwise two calls for the tab: the icon whose 19 and 38 paths give back the decided colour, then show exactly when the page action is visible and hide otherwise |
| Dispatcher.TemporaryContainers.RuntimeOnMessage | src/background.js:62-104 | link clicks are forwarded unchanged. Saving preferences replaces them, sets the icon only when its colour changed, can only turn the notifications permission on, and persists. Resetting statistics zeroes every counter (nested ones too) and leaves preferences unchanged. The history-permission message sets only that flag. Any other message does nothing |
| Dispatcher.TemporaryContainers.RuntimeOnMessageExternal | src/background.js:106-119 | succeeds exactly for `createTabInTempContainer` and fails with "Unknown message.method" otherwise. On success it emits one request with no tab, `active` true when undefined and else the given value, a falsy url turned into null, and `deletesHistory` taken from the preference |
| Dispatcher.TemporaryContainers.BrowserActionOnClicked | src/background.js:122-131 | nothing unless AltC is on; otherwise exactly one request carrying the tab and url, `active` undefined, and `deletesHistory` from the preference |
| Dispatcher.TemporaryContainers.TabsOnCreated | src/background.js:134-146 | an incognito tab only gets its browser action disabled and is never reloaded; every other tab gets exactly one reload request |
| Dispatcher.TemporaryContainers.ShowOrHidePageAction | src/background.js:180-204 | the effects are the icon in the decided colour followed by show or hide; there are none exactly when the host lookup was needed and failed |
| Dispatcher.TemporaryContainers.TabsOnUpdated | src/background.js:149-159 | nothing when the change has no (truthy) url. Otherwise, in order: add history with the new url, then the page-action calls, then the reload request. The reload request is dropped when the host lookup fails |
| Dispatcher.TemporaryContainers.TabsOnRemoved | src/background.js:162-167 | the tab is no longer in the no-container set and every other entry is kept; the removal-queue call is made whether or not the tab was in the set |
| Dispatcher.TemporaryContainers.TabsOnActivated | src/background.js:170-178 | the context menu is always removed; for a non-incognito tab it is added back (when the preference is on) and the page action is refreshed |
| Dispatcher.TemporaryContainers.WindowsOnFocusChanged | src/background.js:207-223 | nothing for the no-window id; otherwise remove the menu, and add it back only when the query gave a first active tab that is not incognito |
| Dispatcher.TemporaryContainers.ContextMenusOnClicked | src/background.js:226-236 | only the link item acts: it opens the clicked link's url with `active` false and `deletesHistory` from the preference |
| Dispatcher.TemporaryContainers.CommandsOnCommand | src/background.js:239-287 | with AltN or AltShiftC off the set is unchanged. A successful tab or window creation adds exactly the new tab id (the window's first tab). A failed creation, or a window with no tabs, leaves the set unchanged. The no-history tab needs AltP and the history permission and always has `deletesHistory` true. The same-container tab needs AltX. Other commands do nothing. No other command touches the set |
| Dispatcher.TemporaryContainers.RuntimeOnInstalled | src/background.js:324-333 | a temporary install does nothing; an update schedules the migration with the previous version; any other reason does nothing |
| Dispatcher.TemporaryContainers.OnUpdateMigration | src/background.js:335-373 | the new preferences are the three gated rules applied, in order, to the old ones, gated on the version with its first "beta" replaced by "."; it persists after each rule whose condition held and opens the notice page after the third |
| Dispatcher.TemporaryContainers.SetDomainLeftClicksNever | src/background.js:352-357 | after the loop every domain pattern's left-click action is "never", and nothing else in the preferences has changed |
| Dispatcher.TemporaryContainers.RuntimeOnStartup | src/background.js:376-399 | the loop over the queried tabs produces what `Dispatcher.StartupEffects` specifies: a forced cleanup is scheduled; if the all-tabs query fails nothing else happens; otherwise the incognito tabs' browser actions are disabled in tab order, and a reload is requested when exactly one tab exists |
| Dispatcher.StartupEffects | src/background.js:382-398 | the forced cleanup always comes first, and it is the only call when the all-tabs query failed |
| Dispatcher.StartupReloadsOnlySoleTab | src/background.js:388-398 | a reload is requested exactly when the query succeeded and found one tab, and only for that tab |
| Dispatcher.StartupDisablesOnlyIncognito | src/background.js:388-394 | a tab id gets its browser action disabled at startup exactly when the query succeeded and found an incognito tab with that id |
| Dispatcher.IncognitoDisables | src/background.js:388-394 | exactly the incognito tabs get a disable call: every incognito tab gets one, and every call belongs to an incognito tab |
| Dispatcher.PageActionDecision | src/background.js:180-204 | the page action is shown iff the lookup succeeded, the preference is on and the url starts with "http". It is hidden iff the lookup succeeded otherwise. The icon names the decided colour and no other |
| Dispatcher.ZeroStatistics | src/background.js:86-95 | every counter, including the nested history counters, is zero, and the start time is the given clock |
| Icons.PageActionColor | src/background.js:181-190 | gray for the default cookie store. Otherwise the recorded temp-container colour when a truthy one is recorded, and otherwise the host lookup's colour. The result is missing exactly when that lookup was needed and failed |
| Icons.PageActionColorConsultsHostOnlyWhenNeeded | src/background.js:182-190 | for the default store, or a store with a recorded colour, the colour does not depend on the host lookup and always exists |
| Icons.PageActionIconPath | src/background.js:191-197 | the path starts with "icons/pageaction-", and taking that prefix and the size suffix off gives back the colour |
| Icons.PageActionIconPathInjective | src/background.js:191-197 | two colours give the same page-action icon iff they are equal |
| Icons.IconName | src/background.js:312-314 | the file name never says "default"; it is "d" exactly for "default" and "d", and is the colour itself otherwise |
| Icons.BrowserActionIconPath | src/background.js:310-320 | taking "../icons/page-" and the size suffix off gives back the icon name |
| Icons.BrowserActionIconPathEqual | src/background.js:310-320 | two icon colours give the same path iff they are equal or are "default" and "d"; this holds for each size |
| Strings.StartsWith | src/background.js:199 | `s` starts with `prefix` exactly when it is at least as long and agrees with it character by character |
| Strings.StartsWithIffIndexOfZero | src/background.js:199 | `startsWith` holds exactly when the first occurrence is at index 0 |
| Strings.IndexOf | src/background.js:339 | the index is the first one at which the pattern occurs, and there is none exactly when it does not occur |
| Strings.ReplaceFirst | src/background.js:339 | the string is unchanged when the pattern does not occur; otherwise only the first occurrence is replaced |
| Migration.NormalizeVersion | src/background.js:339 | a version without "beta" is kept; otherwise its first "beta" alone becomes "." |
| Migration.NoAutomaticModeRule | src/background.js:341-348 | without automatic mode, middle and ctrl+left become "never" and nothing else changes; with automatic mode the preferences are kept |
| Migration.LeftClickRule | src/background.js:349-359 | the global left click and every domain pattern's left click become "never"; the set of patterns and everything else are kept |
| Migration.NewTabRule | src/background.js:360-372 | afterwards automatic mode is never triggered by "navigation"; only the new-tab trigger can change, and only from "navigation" to "created" |
| Migration.Migrate | src/background.js:341-372 | automatic mode and the set of domain patterns are kept; when none of the three gates is open the preferences are unchanged |
| Migration.MigrationEffects | src/background.js:341-372 | only persists and the notice page are emitted; the notice page is opened exactly when the new-tab trigger was changed; whenever the migration changed anything something is persisted |
| Migration.MigrateChangesOnlyActions | src/background.js:341-372 | the migration keeps every preference except link-click actions (each can only become "never") and the new-tab trigger (which can only become "created"). It keeps the set of domain patterns and every other property of each rule |
| Migration.MigrateFromAtMost016 | src/background.js:341-348 | from 0.16 or before without automatic mode, middle and ctrl+left clicks become "never" |
| Migration.MigrateFromAtMost033 | src/background.js:349-359 | from 0.33 or before, the global left click and every domain pattern's left click become "never" |
| Migration.MigrateFromAtMost057 | src/background.js:360-372 | from 0.57 or before, automatic mode is no longer triggered by "navigation" |
| Migration.GatesNest | src/background.js:341-360 | under the preorder assumption, at most 0.16 implies at most 0.33, which implies at most 0.57 |
| Migration.OldestVersionsGetEveryRule | src/background.js:341-372 | under the preorder assumption, an update from 0.16 or before gets the effects of all three rules |
| Migration.RecentVersionsUnchanged | src/background.js:341-372 | under the preorder assumption, an update from after 0.57 changes nothing and persists nothing |
| Migration.MigrateIdempotent | src/background.js:341-372 | running the migration again from the same version changes nothing more |

## Left out

- The collaborators `Container`, `Request`, `MouseClick` and `MultiAccountContainers` are not part of this model. Their source is not available, so the container registry, the removal queue and the cleanup are only visible as the calls made to them.
- Browser calls (menus, icons, page and browser actions, tab and window creation and queries, container lookups, permission probes, `runtime.getURL`) are recorded as effects. Their answers are parameters. The notice page is recorded by its path inside the extension.
- Timers (`delay`) and the interleaving of asynchronous handlers are left out. The delayed disable, cleanup and migration appear as effects at the point where they are scheduled.
- Promise rejections from the collaborators are left out. `maybeAddHistory` is assumed to resolve, so the calls after it in `tabsOnUpdated` are always made.
- `Storage.load` is left out: the storage is given to the constructor, and the `if (!this.storage.local)` loads are not modelled. `persist` is the `Persist` effect.
- Debug logging, `log.DEBUG` on a temporary install, the listener wiring in `initialize`, the collaborators' `initialize` calls, the `Emittery` base class, the unused `macLegacy` flag and the module-level start-up code are left out. These are plumbing.
- JavaScript values are narrowed to their types here. Flags are booleans, and a url is undefined, null or a string, where the empty string is the only falsy string. A `null` message is treated as not being an object: in the source it throws on `message.method`, which also does nothing further.
- Dispatcher.TemporaryContainers.RuntimeOnMessage: saving preferences stores the payload's object itself in the source, so it becomes aliased with the message. The model stores a copy of the value.
- The body of `versionCompare` is not part of this model. The order facts the migration lemmas use are requirements on the `cmp` parameter.
