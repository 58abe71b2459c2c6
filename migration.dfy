/** The preference rewrite `onUpdateMigration` applies after an update: three rules,
    each gated on the version the extension was updated from. */
module Migration {
  import opened Types
  import opened Strings

  /** The extension's `versionCompare(a, b)`, whose body is not part of this model. */
  type VersionCompare = (string, string) -> int

  /** `versionCompare(bound, v) >= 0`, read as "version `v` is at most `bound`". */
  predicate AtMost(cmp: VersionCompare, v: string, bound: string)
  {
    cmp(bound, v) >= 0
  }

  /** The reading of `versionCompare` the migration relies on: "at most" is a total preorder. */
  ghost predicate IsVersionPreorder(cmp: VersionCompare)
  {
    && (forall a, b, c :: cmp(b, a) >= 0 && cmp(c, b) >= 0 ==> cmp(c, a) >= 0)
    && (forall a, b :: cmp(b, a) >= 0 || cmp(a, b) >= 0)
  }

  /** The three gate versions are ordered 0.16 <= 0.33 <= 0.57. */
  predicate GatesOrdered(cmp: VersionCompare)
  {
    AtMost(cmp, "0.16", "0.33") && AtMost(cmp, "0.33", "0.57")
  }

  const Never: string := "never"
  const Automatic: string := "automatic"

  /** The page opened for users whose automatic-mode new-tab behaviour was changed. */
  const NewTabNoticePage: string := "tmpcontainer/ui/notifications/update_from_0.57_and_below.html"

  /** Pre-release versions "XbetaY" are compared as "X.Y". */
  function NormalizeVersion(previousVersion: string): (r: string)
    ensures (forall i :: !OccursAt(previousVersion, "beta", i)) ==> r == previousVersion
    ensures forall i :: OccursAt(previousVersion, "beta", i) && (forall j :: 0 <= j < i ==> !OccursAt(previousVersion, "beta", j)) ==>
      r == previousVersion[..i] + "." + previousVersion[i + 4..]
  {
    ReplaceFirst(previousVersion, "beta", ".")
  }

  function WithLeftNever(rules: LinkClickRules): LinkClickRules
  {
    rules.(left := rules.left.(action := Never))
  }

  /** Every domain pattern's left-click rule set to "never". */
  function DomainsLeftNever(domains: map<string, LinkClickRules>): map<string, LinkClickRules>
  {
    map pattern | pattern in domains :: WithLeftNever(domains[pattern])
  }

  /** Rule for versions up to 0.16: without automatic mode, middle and ctrl+left clicks
      no longer open temporary containers. */
  function NoAutomaticModeRule(p: Preferences): (r: Preferences)
    ensures !p.automaticMode ==> r.linkClickGlobal.middle.action == Never && r.linkClickGlobal.ctrlleft.action == Never
    ensures p.automaticMode ==> r == p
    ensures r.(linkClickGlobal := p.linkClickGlobal) == p
    ensures r.linkClickGlobal.left == p.linkClickGlobal.left
    ensures r.linkClickGlobal.middle.others == p.linkClickGlobal.middle.others
    ensures r.linkClickGlobal.ctrlleft.others == p.linkClickGlobal.ctrlleft.others
  {
    if !p.automaticMode then
      p.(linkClickGlobal := p.linkClickGlobal.(
        middle := p.linkClickGlobal.middle.(action := Never),
        ctrlleft := p.linkClickGlobal.ctrlleft.(action := Never)))
    else p
  }

  /** Rule for versions up to 0.33: left clicks, globally and per domain, are set to "never". */
  function LeftClickRule(p: Preferences): (r: Preferences)
    ensures r.linkClickGlobal.left.action == Never
    ensures r.linkClickDomain.Keys == p.linkClickDomain.Keys
    ensures forall pattern :: pattern in r.linkClickDomain ==> r.linkClickDomain[pattern].left.action == Never
    ensures forall pattern :: pattern in r.linkClickDomain ==>
      r.linkClickDomain[pattern].(left := p.linkClickDomain[pattern].left) == p.linkClickDomain[pattern]
    ensures r.linkClickGlobal.(left := p.linkClickGlobal.left) == p.linkClickGlobal
    ensures r.(linkClickGlobal := p.linkClickGlobal, linkClickDomain := p.linkClickDomain) == p
  {
    assert DomainsLeftNever(p.linkClickDomain).Keys == p.linkClickDomain.Keys;
    p.(linkClickGlobal := WithLeftNever(p.linkClickGlobal), linkClickDomain := DomainsLeftNever(p.linkClickDomain))
  }

  /** Rule for versions up to 0.57: automatic mode's new-tab trigger "navigation" becomes "created". */
  function NewTabRule(p: Preferences): (r: Preferences)
    ensures !(r.automaticMode && r.automaticModeNewTab == "navigation")
    ensures r.(automaticModeNewTab := p.automaticModeNewTab) == p
    ensures r != p ==> r.automaticModeNewTab == "created" && p.automaticModeNewTab == "navigation"
    ensures p.automaticModeNewTab != "navigation" ==> r == p
  {
    if p.automaticMode && p.automaticModeNewTab == "navigation" then p.(automaticModeNewTab := "created") else p
  }

  /** The preferences after the migration from `prev` (already normalized). */
  function Migrate(p: Preferences, prev: string, cmp: VersionCompare): (r: Preferences)
    ensures r.automaticMode == p.automaticMode
    ensures r.linkClickDomain.Keys == p.linkClickDomain.Keys
    ensures !AtMost(cmp, prev, "0.16") && !AtMost(cmp, prev, "0.33") && !AtMost(cmp, prev, "0.57") ==> r == p
  {
    var p1 := if AtMost(cmp, prev, "0.16") then NoAutomaticModeRule(p) else p;
    var p2 := if AtMost(cmp, prev, "0.33") then LeftClickRule(p1) else p1;
    if AtMost(cmp, prev, "0.57") then NewTabRule(p2) else p2
  }

  /** What the migration writes back and opens: a persist after each rule whose condition
      held, and the notice page after the third. The notice is opened exactly when the
      new-tab trigger was changed, and whenever the migration changed anything something
      was persisted. */
  function MigrationEffects(p: Preferences, prev: string, cmp: VersionCompare): (r: seq<Effect>)
    ensures forall i :: 0 <= i < |r| ==> r[i] == Persist || r[i] == CreateBrowserTab(NewTabNoticePage, None)
    ensures CreateBrowserTab(NewTabNoticePage, None) in r <==>
      Migrate(p, prev, cmp).automaticModeNewTab != p.automaticModeNewTab
    ensures Migrate(p, prev, cmp) != p ==> Persist in r
  {
    (if AtMost(cmp, prev, "0.16") && !p.automaticMode then [Persist] else [])
    + (if AtMost(cmp, prev, "0.33") then [Persist] else [])
    + (if AtMost(cmp, prev, "0.57") && p.automaticMode && p.automaticModeNewTab == "navigation"
       then [Persist, CreateBrowserTab(NewTabNoticePage, None)] else [])
  }

  /** `after` differs from `before` at most in link-click actions, each set to "never",
      and in the automatic-mode new-tab trigger, set to "created"; the set of domain
      patterns is the same. */
  ghost predicate OnlyActionsChanged(after: Preferences, before: Preferences)
  {
    && after.(linkClickGlobal := before.linkClickGlobal, linkClickDomain := before.linkClickDomain,
              automaticModeNewTab := before.automaticModeNewTab) == before
    && after.linkClickDomain.Keys == before.linkClickDomain.Keys
    && SameButActions(after.linkClickGlobal, before.linkClickGlobal)
    && (forall pattern :: pattern in before.linkClickDomain ==>
          SameButActions(after.linkClickDomain[pattern], before.linkClickDomain[pattern]))
    && (after.automaticModeNewTab == before.automaticModeNewTab || after.automaticModeNewTab == "created")
  }

  /** Two rule sets differ at most in their actions, and only by setting them to "never". */
  ghost predicate SameButActions(after: LinkClickRules, before: LinkClickRules)
  {
    && after.middle.others == before.middle.others
    && after.ctrlleft.others == before.ctrlleft.others
    && after.left.others == before.left.others
    && (after.middle.action == before.middle.action || after.middle.action == Never)
    && (after.ctrlleft.action == before.ctrlleft.action || after.ctrlleft.action == Never)
    && (after.left.action == before.left.action || after.left.action == Never)
  }

  lemma OnlyActionsChangedTransitive(a: Preferences, b: Preferences, c: Preferences)
    requires OnlyActionsChanged(a, b) && OnlyActionsChanged(b, c)
    ensures OnlyActionsChanged(a, c)
  {
    forall pattern | pattern in c.linkClickDomain
      ensures SameButActions(a.linkClickDomain[pattern], c.linkClickDomain[pattern])
    {
      assert pattern in b.linkClickDomain;
    }
  }

  /** The migration changes no preference other than link-click actions and the
      automatic-mode new-tab trigger; it keeps the set of domain patterns, and within
      each rule it changes only the action. */
  lemma MigrateChangesOnlyActions(p: Preferences, prev: string, cmp: VersionCompare)
    ensures OnlyActionsChanged(Migrate(p, prev, cmp), p)
  {
    var p1 := if AtMost(cmp, prev, "0.16") then NoAutomaticModeRule(p) else p;
    var p2 := if AtMost(cmp, prev, "0.33") then LeftClickRule(p1) else p1;
    var p3 := if AtMost(cmp, prev, "0.57") then NewTabRule(p2) else p2;
    RulesChangeOnlyActions(p);
    RulesChangeOnlyActions(p1);
    RulesChangeOnlyActions(p2);
    OnlyActionsChangedTransitive(p2, p1, p);
    OnlyActionsChangedTransitive(p3, p2, p);
  }

  lemma RulesChangeOnlyActions(p: Preferences)
    ensures OnlyActionsChanged(p, p)
    ensures OnlyActionsChanged(NoAutomaticModeRule(p), p)
    ensures OnlyActionsChanged(LeftClickRule(p), p)
    ensures OnlyActionsChanged(NewTabRule(p), p)
  {
    var q := LeftClickRule(p);
    assert q.linkClickDomain.Keys == p.linkClickDomain.Keys;
    assert q.(linkClickGlobal := p.linkClickGlobal, linkClickDomain := p.linkClickDomain,
              automaticModeNewTab := p.automaticModeNewTab) == p;
  }

  /** Users from 0.16 or before without automatic mode get middle and ctrl+left set to "never". */
  lemma MigrateFromAtMost016(p: Preferences, prev: string, cmp: VersionCompare)
    requires AtMost(cmp, prev, "0.16") && !p.automaticMode
    ensures Migrate(p, prev, cmp).linkClickGlobal.middle.action == Never
    ensures Migrate(p, prev, cmp).linkClickGlobal.ctrlleft.action == Never
  {
  }

  /** Users from 0.33 or before get every left-click rule set to "never". */
  lemma MigrateFromAtMost033(p: Preferences, prev: string, cmp: VersionCompare)
    requires AtMost(cmp, prev, "0.33")
    ensures Migrate(p, prev, cmp).linkClickGlobal.left.action == Never
    ensures forall pattern :: pattern in Migrate(p, prev, cmp).linkClickDomain ==>
      Migrate(p, prev, cmp).linkClickDomain[pattern].left.action == Never
  {
  }

  /** Users from 0.57 or before no longer have automatic mode triggered by navigation. */
  lemma MigrateFromAtMost057(p: Preferences, prev: string, cmp: VersionCompare)
    requires AtMost(cmp, prev, "0.57")
    ensures var r := Migrate(p, prev, cmp);
      !(r.automaticMode && r.automaticModeNewTab == "navigation")
  {
  }

  /** Under the total-preorder reading the gates nest: a version at most 0.16 is at most
      0.33, and one at most 0.33 is at most 0.57. */
  lemma GatesNest(cmp: VersionCompare, prev: string)
    requires IsVersionPreorder(cmp) && GatesOrdered(cmp)
    ensures AtMost(cmp, prev, "0.16") ==> AtMost(cmp, prev, "0.33")
    ensures AtMost(cmp, prev, "0.33") ==> AtMost(cmp, prev, "0.57")
  {
    if AtMost(cmp, prev, "0.16") {
      assert cmp("0.16", prev) >= 0 && cmp("0.33", "0.16") >= 0;
    }
    if AtMost(cmp, prev, "0.33") {
      assert cmp("0.33", prev) >= 0 && cmp("0.57", "0.33") >= 0;
    }
  }

  /** Under the total-preorder reading, a user from 0.16 or before gets all three rules. */
  lemma OldestVersionsGetEveryRule(p: Preferences, prev: string, cmp: VersionCompare)
    requires IsVersionPreorder(cmp) && GatesOrdered(cmp)
    requires AtMost(cmp, prev, "0.16")
    ensures var r := Migrate(p, prev, cmp);
      && r.linkClickGlobal.left.action == Never
      && (forall pattern :: pattern in r.linkClickDomain ==> r.linkClickDomain[pattern].left.action == Never)
      && !(r.automaticMode && r.automaticModeNewTab == "navigation")
      && (!p.automaticMode ==> r.linkClickGlobal.middle.action == Never && r.linkClickGlobal.ctrlleft.action == Never)
  {
    GatesNest(cmp, prev);
  }

  /** Under the total-preorder reading, an update from a version after 0.57 changes nothing
      and writes nothing. */
  lemma RecentVersionsUnchanged(p: Preferences, prev: string, cmp: VersionCompare)
    requires IsVersionPreorder(cmp) && GatesOrdered(cmp)
    requires !AtMost(cmp, prev, "0.57")
    ensures Migrate(p, prev, cmp) == p
    ensures MigrationEffects(p, prev, cmp) == []
  {
    GatesNest(cmp, prev);
  }

  lemma DomainsLeftNeverIdempotent(domains: map<string, LinkClickRules>)
    ensures DomainsLeftNever(DomainsLeftNever(domains)) == DomainsLeftNever(domains)
  {
    var once := DomainsLeftNever(domains);
    assert DomainsLeftNever(once).Keys == once.Keys;
    forall pattern | pattern in once
      ensures DomainsLeftNever(once)[pattern] == once[pattern]
    {
      assert once[pattern] == WithLeftNever(domains[pattern]);
    }
  }

  /** Running the migration a second time from the same version changes nothing more. */
  lemma MigrateIdempotent(p: Preferences, prev: string, cmp: VersionCompare)
    ensures Migrate(Migrate(p, prev, cmp), prev, cmp) == Migrate(p, prev, cmp)
  {
    var p1 := if AtMost(cmp, prev, "0.16") then NoAutomaticModeRule(p) else p;
    if AtMost(cmp, prev, "0.33") {
      DomainsLeftNeverIdempotent(p1.linkClickDomain);
    }
  }
}
