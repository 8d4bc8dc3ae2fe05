/**
 What the flag table promises: the precedence of the override store, which
 defaults read the build channel or the app configuration, which flags carry
 a server-side key (and that no two share one), and which flags are pinned.
 */
module FeatureFlagProperties {
  import opened FeatureFlags

  /** The flags whose compiled-in default reads the build channel or the app configuration. */
  const ConfigurationDependentFlags: set<FeatureFlag> :=
    {BloggingPrompts, BloggingPromptsEnhancements, JetpackDisconnect, DebugMenu,
     SiteIconCreator, StatsNewAppearance, StatsNewInsights}

  /** The flags that carry a server-side key. */
  const RemoteKeyedFlags: set<FeatureFlag> :=
    {JetpackFeaturesRemovalPhaseOne, JetpackFeaturesRemovalPhaseTwo,
     JetpackFeaturesRemovalPhaseThree, JetpackFeaturesRemovalPhaseFour,
     JetpackFeaturesRemovalPhaseNewUsers, JetpackFeaturesRemovalPhaseSelfHosted,
     JetpackMigrationPreventDuplicateNotifications, WordPressSupportForum, Blaze}

  /** The flags the debug tooling may not override. */
  const PinnedFlags: set<FeatureFlag> :=
    {DebugMenu, TodayWidget, WeeklyRoundup, WeeklyRoundupStaticNotification}

  /** Some two configurations give the flag different compiled-in defaults. */
  ghost predicate DependsOnConfiguration(f: FeatureFlag)
  {
    exists b1: BuildConfiguration, a1: AppConfiguration, b2: BuildConfiguration, a2: AppConfiguration
      :: DefaultValue(f, b1, a1) != DefaultValue(f, b2, a2)
  }

  /** A sequence without repetitions has as many distinct elements as it has entries. */
  lemma {:induction false} DistinctCardinality<T>(s: seq<T>)
    requires forall i, j :: 0 <= i < j < |s| ==> s[i] != s[j]
    ensures |set x | x in s| == |s|
  {
    if s != [] {
      DistinctCardinality(s[1..]);
      assert (set x | x in s) == {s[0]} + (set x | x in s[1..]);
      assert s[0] !in (set x | x in s[1..]);
    }
  }

  // ---------------------------------------------------------------------
  // Precedence of the override store
  // ---------------------------------------------------------------------

  /** A stored override is the effective value, under every build and app configuration. */
  lemma OverrideWins(f: FeatureFlag, overrides: map<FeatureFlag, bool>)
    requires f in overrides
    ensures forall build, app :: Enabled(f, overrides, build, app) == overrides[f]
  {
  }

  /** Without a stored override the effective value is the compiled-in default. */
  lemma NoOverrideGivesDefault(f: FeatureFlag, overrides: map<FeatureFlag, bool>,
                               build: BuildConfiguration, app: AppConfiguration)
    requires f !in overrides
    ensures Enabled(f, overrides, build, app) == DefaultValue(f, build, app)
  {
  }

  /** Storing an override sets that flag's value and leaves every other flag's value alone. */
  lemma StoreOverride(f: FeatureFlag, v: bool, overrides: map<FeatureFlag, bool>,
                      build: BuildConfiguration, app: AppConfiguration)
    ensures Enabled(f, overrides[f := v], build, app) == v
    ensures forall g :: g != f ==>
      Enabled(g, overrides[f := v], build, app) == Enabled(g, overrides, build, app)
  {
  }

  /** Removing an override restores that flag's default and leaves every other flag's value alone. */
  lemma RemoveOverride(f: FeatureFlag, overrides: map<FeatureFlag, bool>,
                       build: BuildConfiguration, app: AppConfiguration)
    ensures Enabled(f, overrides - {f}, build, app) == DefaultValue(f, build, app)
    ensures forall g :: g != f ==>
      Enabled(g, overrides - {f}, build, app) == Enabled(g, overrides, build, app)
  {
  }

  /**
   `enabled` does not consult `canOverride`: a stored override of a pinned
   flag still wins.  In a developer build the debug menu defaults to on, yet
   an override of `false` turns it off.
   */
  lemma PinnedOverrideStillWins(app: AppConfiguration)
    ensures !CanOverride(DebugMenu)
    ensures DefaultValue(DebugMenu, LocalDeveloper, app)
    ensures !Enabled(DebugMenu, map[DebugMenu := false], LocalDeveloper, app)
  {
  }

  // ---------------------------------------------------------------------
  // Compiled-in defaults
  // ---------------------------------------------------------------------

  /**
   The build-channel defaults: the debug menu is on in the developer,
   branch-test and prerelease-testing builds, which are exactly the builds
   that are not App Store builds, and so agrees with the site icon creator;
   Jetpack disconnect is on only in developer builds.
   */
  lemma ChannelDefaults(build: BuildConfiguration, app: AppConfiguration)
    ensures DefaultValue(DebugMenu, build, app) <==>
      build == LocalDeveloper || build == A8cBranchTest || build == A8cPrereleaseTesting
    ensures DefaultValue(DebugMenu, build, app) <==> build != AppStore
    ensures DefaultValue(SiteIconCreator, build, app) == DefaultValue(DebugMenu, build, app)
    ensures DefaultValue(JetpackDisconnect, build, app) <==> build == LocalDeveloper
    ensures DefaultValue(JetpackDisconnect, build, app) ==> DefaultValue(DebugMenu, build, app)
  {
  }

  /**
   The app-configuration defaults: both blogging-prompt flags follow
   `isJetpack` and both stats flags follow `showsStatsRevampV2`, whatever
   the build channel.
   */
  lemma AppConfigurationDefaults(build: BuildConfiguration, app: AppConfiguration)
    ensures DefaultValue(BloggingPrompts, build, app) == app.isJetpack
    ensures DefaultValue(BloggingPromptsEnhancements, build, app) == app.isJetpack
    ensures DefaultValue(StatsNewAppearance, build, app) == app.showsStatsRevampV2
    ensures DefaultValue(StatsNewInsights, build, app) == app.showsStatsRevampV2
  {
  }

  /** Every flag outside the seven configuration-dependent ones has a constant default. */
  lemma ConstantDefault(f: FeatureFlag)
    requires f !in ConfigurationDependentFlags
    ensures forall b1, a1, b2, a2 :: DefaultValue(f, b1, a1) == DefaultValue(f, b2, a2)
  {
  }

  /** Exactly the seven configuration-dependent flags have a default that varies. */
  lemma {:induction false} ConfigurationDependence(f: FeatureFlag)
    ensures DependsOnConfiguration(f) <==> f in ConfigurationDependentFlags
  {
    var off := AppConfiguration(false, false);
    var on := AppConfiguration(true, true);
    if f in ConfigurationDependentFlags {
      if f == JetpackDisconnect || f == DebugMenu || f == SiteIconCreator {
        assert DefaultValue(f, LocalDeveloper, off) != DefaultValue(f, AppStore, off);
      } else {
        assert DefaultValue(f, AppStore, on) != DefaultValue(f, AppStore, off);
      }
    } else {
      ConstantDefault(f);
    }
  }

  // ---------------------------------------------------------------------
  // Remote keys
  // ---------------------------------------------------------------------

  /** A flag has a server-side key exactly when it is one of the nine remote-keyed flags. */
  lemma RemoteKeyPresence(f: FeatureFlag)
    ensures RemoteKey(f).Some? <==> f in RemoteKeyedFlags
  {
  }

  /** Nine flags of the enumeration have a server-side key. */
  lemma {:induction false} RemoteKeyedCount()
    ensures (set f | f in AllCases() && RemoteKey(f).Some?) == RemoteKeyedFlags
    ensures |RemoteKeyedFlags| == 9
  {
    forall f ensures f in AllCases() && RemoteKey(f).Some? <==> f in RemoteKeyedFlags {
      RemoteKeyPresence(f);
    }
    RemoteKeyedFlagsSize();
  }

  lemma RemoteKeyedFlagsSize()
    ensures |RemoteKeyedFlags| == 9
  {
    var keyed := [JetpackFeaturesRemovalPhaseOne, JetpackFeaturesRemovalPhaseTwo,
                  JetpackFeaturesRemovalPhaseThree, JetpackFeaturesRemovalPhaseFour,
                  JetpackFeaturesRemovalPhaseNewUsers, JetpackFeaturesRemovalPhaseSelfHosted,
                  JetpackMigrationPreventDuplicateNotifications, WordPressSupportForum, Blaze];
    assert RemoteKeyedFlags == set f | f in keyed;
    DistinctCardinality(keyed);
  }

  /** No two flags share a server-side key. */
  lemma RemoteKeyInjective(f: FeatureFlag, g: FeatureFlag)
    requires RemoteKey(f).Some? && RemoteKey(f) == RemoteKey(g)
    ensures f == g
  {
  }

  /** A flag of `flags` whose server-side key is `key`, if any. */
  function FindByRemoteKey(key: string, flags: seq<FeatureFlag>): (r: Option<FeatureFlag>)
    ensures r.Some? ==> r.value in flags && RemoteKey(r.value) == Some(key)
    ensures r.None? ==> forall f :: f in flags ==> RemoteKey(f) != Some(key)
  {
    if flags == [] then None
    else if RemoteKey(flags[0]) == Some(key) then Some(flags[0])
    else FindByRemoteKey(key, flags[1..])
  }

  /**
   The flag a server-side key names, if any: a key that matches no flag
   (a stale or unknown one) names nothing.
   */
  function FlagForRemoteKey(key: string): (r: Option<FeatureFlag>)
    ensures r.Some? ==> RemoteKey(r.value) == Some(key)
    ensures r.None? <==> forall f :: RemoteKey(f) != Some(key)
  {
    FindByRemoteKey(key, AllCases())
  }

  /** A flag's server-side key names that flag and no other. */
  lemma RemoteKeyRoundTrip(f: FeatureFlag)
    requires RemoteKey(f).Some?
    ensures FlagForRemoteKey(RemoteKey(f).value) == Some(f)
  {
    var r := FlagForRemoteKey(RemoteKey(f).value);
    assert r.Some?;
    RemoteKeyInjective(r.value, f);
  }

  // ---------------------------------------------------------------------
  // Overridability
  // ---------------------------------------------------------------------

  /** A flag is pinned exactly when it is one of the four pinned flags. */
  lemma PinnedFlagsExactly(f: FeatureFlag)
    ensures !CanOverride(f) <==> f in PinnedFlags
  {
  }

  /** Four flags of the enumeration are pinned; every other may be overridden. */
  lemma {:induction false} PinnedCount()
    ensures (set f | f in AllCases() && !CanOverride(f)) == PinnedFlags
    ensures |PinnedFlags| == 4
  {
    forall f ensures f in AllCases() && !CanOverride(f) <==> f in PinnedFlags {
      PinnedFlagsExactly(f);
    }
  }
}
