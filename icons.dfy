/** The page-action colour and visibility decision of `showOrHidePageAction`, and the
    icon paths that it and `setIcon` build. */
module Icons {
  import opened Types
  import opened Strings

  /** The host's cookie store of tabs that are in no container. */
  const DefaultCookieStore: string := "firefox-default"

  /** The extension recorded a (truthy) colour for this cookie store. */
  predicate HasRecordedColor(cookieStoreId: string, tempContainers: map<string, TempContainer>)
  {
    cookieStoreId in tempContainers && tempContainers[cookieStoreId].color != ""
  }

  /** The colour of a tab's page-action icon. `hostColor` is the colour the host's
      container lookup answers for the tab's cookie store, `None` when that lookup fails;
      the result is `None` exactly when the lookup was needed and failed. */
  function PageActionColor(cookieStoreId: string, tempContainers: map<string, TempContainer>, hostColor: Option<string>): (r: Option<string>)
    ensures cookieStoreId == DefaultCookieStore ==> r == Some("gray")
    ensures cookieStoreId != DefaultCookieStore && HasRecordedColor(cookieStoreId, tempContainers) ==>
      r == Some(tempContainers[cookieStoreId].color)
    ensures cookieStoreId != DefaultCookieStore && !HasRecordedColor(cookieStoreId, tempContainers) ==> r == hostColor
    ensures r.None? <==>
      cookieStoreId != DefaultCookieStore && !HasRecordedColor(cookieStoreId, tempContainers) && hostColor.None?
  {
    if cookieStoreId == DefaultCookieStore then Some("gray")
    else if HasRecordedColor(cookieStoreId, tempContainers) then Some(tempContainers[cookieStoreId].color)
    else hostColor
  }

  /** The host lookup matters only for a tab outside the default store whose container
      has no recorded colour; everywhere else the answer is independent of it. */
  lemma PageActionColorConsultsHostOnlyWhenNeeded(cookieStoreId: string, tempContainers: map<string, TempContainer>, h1: Option<string>, h2: Option<string>)
    requires cookieStoreId == DefaultCookieStore || HasRecordedColor(cookieStoreId, tempContainers)
    ensures PageActionColor(cookieStoreId, tempContainers, h1) == PageActionColor(cookieStoreId, tempContainers, h2)
    ensures PageActionColor(cookieStoreId, tempContainers, h1).Some?
  {
  }

  /** The page action is shown when the preference is on and the url is an http(s) one. */
  predicate PageActionVisible(pageActionPreference: bool, url: string)
  {
    pageActionPreference && StartsWith(url, "http")
  }

  /** The end of every icon file name: the size and the extension. */
  function IconSuffix(size: string): string
  {
    "-" + size + ".svg"
  }

  const PageActionPrefix: string := "icons/pageaction-"

  /** The page-action icon of `color` at `size` ("19" or "38"). */
  function PageActionIconPath(color: string, size: string): (path: string)
    ensures StartsWith(path, PageActionPrefix)
    ensures StripAffixes(path, PageActionPrefix, IconSuffix(size)) == Some(color)
  {
    StripAffixesOfConcat(PageActionPrefix, color, IconSuffix(size));
    PageActionPrefix + color + IconSuffix(size)
  }

  /** Different colours give different page-action icons. */
  lemma PageActionIconPathInjective(c1: string, c2: string, size: string)
    ensures PageActionIconPath(c1, size) == PageActionIconPath(c2, size) <==> c1 == c2
  {
    if PageActionIconPath(c1, size) == PageActionIconPath(c2, size) {
      assert StripAffixes(PageActionIconPath(c1, size), PageActionPrefix, IconSuffix(size)) == Some(c1);
    }
  }

  /** `setIcon` names the default colour "d" in its file names. */
  function IconName(iconColor: string): (name: string)
    ensures name != "default"
    ensures name == "d" <==> iconColor == "default" || iconColor == "d"
    ensures iconColor != "default" ==> name == iconColor
  {
    if iconColor == "default" then "d" else iconColor
  }

  const BrowserActionPrefix: string := "../icons/page-"

  /** The browser-action icon `setIcon` builds for `iconColor` at `size` ("16" or "32"). */
  function BrowserActionIconPath(iconColor: string, size: string): (path: string)
    ensures StripAffixes(path, BrowserActionPrefix, IconSuffix(size)) == Some(IconName(iconColor))
  {
    StripAffixesOfConcat(BrowserActionPrefix, IconName(iconColor), IconSuffix(size));
    BrowserActionPrefix + IconName(iconColor) + IconSuffix(size)
  }

  /** Two icon colours give the same browser-action icon exactly when they are equal or
      are "default" and "d"; both sizes are named alike. */
  lemma BrowserActionIconPathEqual(c1: string, c2: string, size: string)
    ensures BrowserActionIconPath(c1, size) == BrowserActionIconPath(c2, size) <==>
      c1 == c2 || (c1 in {"default", "d"} && c2 in {"default", "d"})
  {
    if BrowserActionIconPath(c1, size) == BrowserActionIconPath(c2, size) {
      assert Some(IconName(c1)) == StripAffixes(BrowserActionIconPath(c1, size), BrowserActionPrefix, IconSuffix(size));
    }
    if c1 in {"default", "d"} && c2 in {"default", "d"} {
      assert IconName(c1) == IconName(c2);
    }
  }
}
