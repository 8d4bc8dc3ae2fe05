/**
 The feature-flag registry of the WordPress iOS app: a closed enumeration of
 named flags, and four total lookups over it (the effective value, the
 server-side key, the debug-menu label and whether a flag may be overridden).

 The app's collaborators become parameters: the local override store is a
 `map<FeatureFlag, bool>` (a flag absent from the map has no override), the
 build channel is a `BuildConfiguration`, and the two app-configuration
 switches are an `AppConfiguration` record.
 */
module FeatureFlags {

  datatype Option<+T> = None | Some(value: T)

  /** The channel the app was built for. */
  datatype BuildConfiguration = LocalDeveloper | A8cBranchTest | A8cPrereleaseTesting | AppStore

  /** The two app-configuration switches that some defaults read. */
  datatype AppConfiguration = AppConfiguration(isJetpack: bool, showsStatsRevampV2: bool)

  /** The known feature flags, in declaration order. */
  datatype FeatureFlag =
    | BloggingPrompts
    | BloggingPromptsEnhancements
    | BloggingPromptsSocial
    | JetpackDisconnect
    | DebugMenu
    | ReaderCSS
    | HomepageSettings
    | UnifiedPrologueCarousel
    | TodayWidget
    | MilestoneNotifications
    | BloggingReminders
    | SiteIconCreator
    | WeeklyRoundup
    | WeeklyRoundupStaticNotification
    | WeeklyRoundupBGProcessingTask
    | Domains
    | TimeZoneSuggester
    | MediaPickerPermissionsNotice
    | NotificationCommentDetails
    | SiteIntentQuestion
    | LandInTheEditor
    | StatsNewAppearance
    | StatsNewInsights
    | SiteName
    | QuickStartForExistingUsers
    | QrLogin
    | BetaSiteDesigns
    | FeatureHighlightTooltip
    | JetpackPowered
    | JetpackPoweredBottomSheet
    | ContentMigration
    | NewJetpackLandingScreen
    | NewWordPressLandingScreen
    | NewCoreDataContext
    | JetpackMigrationPreventDuplicateNotifications
    | JetpackFeaturesRemovalPhaseOne
    | JetpackFeaturesRemovalPhaseTwo
    | JetpackFeaturesRemovalPhaseThree
    | JetpackFeaturesRemovalPhaseFour
    | JetpackFeaturesRemovalPhaseNewUsers
    | JetpackFeaturesRemovalPhaseSelfHosted
    | WordPressSupportForum
    | JetpackIndividualPluginSupport
    | Blaze

  const FlagCount: nat := 44

  /** The enum's integer raw value: its position in declaration order, from 0. */
  function RawValue(f: FeatureFlag): (r: nat)
    ensures r < FlagCount
  {
    match f
    case BloggingPrompts => 0
    case BloggingPromptsEnhancements => 1
    case BloggingPromptsSocial => 2
    case JetpackDisconnect => 3
    case DebugMenu => 4
    case ReaderCSS => 5
    case HomepageSettings => 6
    case UnifiedPrologueCarousel => 7
    case TodayWidget => 8
    case MilestoneNotifications => 9
    case BloggingReminders => 10
    case SiteIconCreator => 11
    case WeeklyRoundup => 12
    case WeeklyRoundupStaticNotification => 13
    case WeeklyRoundupBGProcessingTask => 14
    case Domains => 15
    case TimeZoneSuggester => 16
    case MediaPickerPermissionsNotice => 17
    case NotificationCommentDetails => 18
    case SiteIntentQuestion => 19
    case LandInTheEditor => 20
    case StatsNewAppearance => 21
    case StatsNewInsights => 22
    case SiteName => 23
    case QuickStartForExistingUsers => 24
    case QrLogin => 25
    case BetaSiteDesigns => 26
    case FeatureHighlightTooltip => 27
    case JetpackPowered => 28
    case JetpackPoweredBottomSheet => 29
    case ContentMigration => 30
    case NewJetpackLandingScreen => 31
    case NewWordPressLandingScreen => 32
    case NewCoreDataContext => 33
    case JetpackMigrationPreventDuplicateNotifications => 34
    case JetpackFeaturesRemovalPhaseOne => 35
    case JetpackFeaturesRemovalPhaseTwo => 36
    case JetpackFeaturesRemovalPhaseThree => 37
    case JetpackFeaturesRemovalPhaseFour => 38
    case JetpackFeaturesRemovalPhaseNewUsers => 39
    case JetpackFeaturesRemovalPhaseSelfHosted => 40
    case WordPressSupportForum => 41
    case JetpackIndividualPluginSupport => 42
    case Blaze => 43
  }

  /** The enum's failable `init?(rawValue:)`: the flag whose raw value is `n`, if any. */
  function FromRawValue(n: int): (r: Option<FeatureFlag>)
    ensures r.Some? <==> 0 <= n < FlagCount
  {
    match n
    case 0 => Some(BloggingPrompts)
    case 1 => Some(BloggingPromptsEnhancements)
    case 2 => Some(BloggingPromptsSocial)
    case 3 => Some(JetpackDisconnect)
    case 4 => Some(DebugMenu)
    case 5 => Some(ReaderCSS)
    case 6 => Some(HomepageSettings)
    case 7 => Some(UnifiedPrologueCarousel)
    case 8 => Some(TodayWidget)
    case 9 => Some(MilestoneNotifications)
    case 10 => Some(BloggingReminders)
    case 11 => Some(SiteIconCreator)
    case 12 => Some(WeeklyRoundup)
    case 13 => Some(WeeklyRoundupStaticNotification)
    case 14 => Some(WeeklyRoundupBGProcessingTask)
    case 15 => Some(Domains)
    case 16 => Some(TimeZoneSuggester)
    case 17 => Some(MediaPickerPermissionsNotice)
    case 18 => Some(NotificationCommentDetails)
    case 19 => Some(SiteIntentQuestion)
    case 20 => Some(LandInTheEditor)
    case 21 => Some(StatsNewAppearance)
    case 22 => Some(StatsNewInsights)
    case 23 => Some(SiteName)
    case 24 => Some(QuickStartForExistingUsers)
    case 25 => Some(QrLogin)
    case 26 => Some(BetaSiteDesigns)
    case 27 => Some(FeatureHighlightTooltip)
    case 28 => Some(JetpackPowered)
    case 29 => Some(JetpackPoweredBottomSheet)
    case 30 => Some(ContentMigration)
    case 31 => Some(NewJetpackLandingScreen)
    case 32 => Some(NewWordPressLandingScreen)
    case 33 => Some(NewCoreDataContext)
    case 34 => Some(JetpackMigrationPreventDuplicateNotifications)
    case 35 => Some(JetpackFeaturesRemovalPhaseOne)
    case 36 => Some(JetpackFeaturesRemovalPhaseTwo)
    case 37 => Some(JetpackFeaturesRemovalPhaseThree)
    case 38 => Some(JetpackFeaturesRemovalPhaseFour)
    case 39 => Some(JetpackFeaturesRemovalPhaseNewUsers)
    case 40 => Some(JetpackFeaturesRemovalPhaseSelfHosted)
    case 41 => Some(WordPressSupportForum)
    case 42 => Some(JetpackIndividualPluginSupport)
    case 43 => Some(Blaze)
    case _ => None
  }

  /** Converting a flag to its raw value and back gives the flag. */
  lemma RawValueRoundTrip(f: FeatureFlag)
    ensures FromRawValue(RawValue(f)) == Some(f)
  {
  }

  /** Converting a raw value to a flag and back gives the raw value. */
  lemma FromRawValueRoundTrip(n: int)
    requires 0 <= n < FlagCount
    ensures RawValue(FromRawValue(n).value) == n
  {
  }

  /** Every flag exactly once, in raw-value (declaration) order: the enum's `allCases`. */
  function AllCases(): (r: seq<FeatureFlag>)
    ensures |r| == FlagCount
    ensures forall i :: 0 <= i < |r| ==> RawValue(r[i]) == i
    ensures forall f :: f in r
    ensures forall i, j :: 0 <= i < j < |r| ==> r[i] != r[j]
  {
    var r := seq(FlagCount, i requires 0 <= i < FlagCount => FromRawValue(i).value);
    forall i | 0 <= i < |r| ensures RawValue(r[i]) == i {
      FromRawValueRoundTrip(i);
    }
    forall f ensures f in r {
      RawValueRoundTrip(f);
      assert r[RawValue(f)] == f;
    }
    r
  }

  /**
   The compiled-in default of a flag, read only when the override store has
   no entry for it.  `debugMenu`'s channel test `~=` is read as membership of
   the build channel in a list of channels.
   */
  function DefaultValue(f: FeatureFlag, build: BuildConfiguration, app: AppConfiguration): bool
  {
    match f
    case BloggingPrompts => app.isJetpack
    case BloggingPromptsEnhancements => app.isJetpack
    case BloggingPromptsSocial => false
    case JetpackDisconnect => build == LocalDeveloper
    case DebugMenu => build in [LocalDeveloper, A8cBranchTest, A8cPrereleaseTesting]
    case ReaderCSS => false
    case HomepageSettings => true
    case UnifiedPrologueCarousel => true
    case TodayWidget => true
    case MilestoneNotifications => true
    case BloggingReminders => true
    case SiteIconCreator => build != AppStore
    case WeeklyRoundup => true
    case WeeklyRoundupStaticNotification => false
    case WeeklyRoundupBGProcessingTask => true
    case Domains => true
    case TimeZoneSuggester => true
    case MediaPickerPermissionsNotice => true
    case NotificationCommentDetails => true
    case SiteIntentQuestion => true
    case LandInTheEditor => false
    case StatsNewAppearance => app.showsStatsRevampV2
    case StatsNewInsights => app.showsStatsRevampV2
    case SiteName => false
    case QuickStartForExistingUsers => true
    case QrLogin => true
    case BetaSiteDesigns => false
    case FeatureHighlightTooltip => true
    case JetpackPowered => true
    case JetpackPoweredBottomSheet => true
    case ContentMigration => true
    case NewJetpackLandingScreen => true
    case NewWordPressLandingScreen => true
    case NewCoreDataContext => true
    case JetpackMigrationPreventDuplicateNotifications => true
    case JetpackFeaturesRemovalPhaseOne => false
    case JetpackFeaturesRemovalPhaseTwo => false
    case JetpackFeaturesRemovalPhaseThree => false
    case JetpackFeaturesRemovalPhaseFour => false
    case JetpackFeaturesRemovalPhaseNewUsers => false
    case JetpackFeaturesRemovalPhaseSelfHosted => false
    case WordPressSupportForum => false
    case JetpackIndividualPluginSupport => false
    case Blaze => false
  }

  /**
   Whether the feature is on: a value in the override store wins, whatever
   the build and app configuration; otherwise the compiled-in default.
   `canOverride` is not consulted.
   */
  function Enabled(f: FeatureFlag, overrides: map<FeatureFlag, bool>,
                   build: BuildConfiguration, app: AppConfiguration): bool
  {
    if f in overrides then overrides[f] else DefaultValue(f, build, app)
  }

  /** Whether the feature is off: always the opposite of `Enabled`. */
  function Disabled(f: FeatureFlag, overrides: map<FeatureFlag, bool>,
                    build: BuildConfiguration, app: AppConfiguration): (r: bool)
    ensures r != Enabled(f, overrides, build, app)
    ensures f in overrides ==> r == !overrides[f]
  {
    Enabled(f, overrides, build, app) == false
  }

  /** The key a server-side feature flag must carry to match this flag, if it has one. */
  function RemoteKey(f: FeatureFlag): (r: Option<string>)
    ensures r.Some? ==> |r.value| > 0
  {
    match f
    case JetpackFeaturesRemovalPhaseOne => Some("jp_removal_one")
    case JetpackFeaturesRemovalPhaseTwo => Some("jp_removal_two")
    case JetpackFeaturesRemovalPhaseThree => Some("jp_removal_three")
    case JetpackFeaturesRemovalPhaseFour => Some("jp_removal_four")
    case JetpackFeaturesRemovalPhaseNewUsers => Some("jp_removal_new_users")
    case JetpackFeaturesRemovalPhaseSelfHosted => Some("jp_removal_self_hosted")
    case JetpackMigrationPreventDuplicateNotifications => Some("prevent_duplicate_notifs_remote_field")
    case WordPressSupportForum => Some("enable_wordpress_support_forum")
    case Blaze => Some("blaze")
    case _ => None
  }

  /** The label of the flag in the debug build's override menu. */
  function Description(f: FeatureFlag): (r: string)
    ensures |r| > 0
  {
    match f
    case BloggingPrompts => "Blogging Prompts"
    case BloggingPromptsEnhancements => "Blogging Prompts Enhancements"
    case BloggingPromptsSocial => "Blogging Prompts Social"
    case JetpackDisconnect => "Jetpack disconnect"
    case DebugMenu => "Debug menu"
    case ReaderCSS => "Ignore Reader CSS Cache"
    case HomepageSettings => "Homepage Settings"
    case UnifiedPrologueCarousel => "Unified Prologue Carousel"
    case TodayWidget => "iOS 14 Today Widget"
    case MilestoneNotifications => "Milestone notifications"
    case BloggingReminders => "Blogging Reminders"
    case SiteIconCreator => "Site Icon Creator"
    case WeeklyRoundup => "Weekly Roundup"
    case WeeklyRoundupStaticNotification => "Weekly Roundup Static Notification"
    case WeeklyRoundupBGProcessingTask => "Weekly Roundup BGProcessingTask"
    case Domains => "Domain Purchases"
    case TimeZoneSuggester => "TimeZone Suggester"
    case MediaPickerPermissionsNotice => "Media Picker Permissions Notice"
    case NotificationCommentDetails => "Notification Comment Details"
    case SiteIntentQuestion => "Site Intent Question"
    case LandInTheEditor => "Land In The Editor"
    case StatsNewAppearance => "New Appearance for Stats"
    case StatsNewInsights => "New Cards for Stats Insights"
    case SiteName => "Site Name"
    case QuickStartForExistingUsers => "Quick Start For Existing Users"
    case QrLogin => "QR Code Login"
    case BetaSiteDesigns => "Fetch Beta Site Designs"
    case FeatureHighlightTooltip => "Feature Highlight Tooltip"
    case JetpackPowered => "Jetpack powered banners and badges"
    case JetpackPoweredBottomSheet => "Jetpack powered bottom sheet"
    case ContentMigration => "Content Migration"
    case NewJetpackLandingScreen => "New Jetpack landing screen"
    case NewWordPressLandingScreen => "New WordPress landing screen"
    case NewCoreDataContext => "Use new Core Data context structure (Require app restart)"
    case JetpackMigrationPreventDuplicateNotifications =>
      "Jetpack Migration prevent duplicate WordPress app notifications when Jetpack is installed"
    case JetpackFeaturesRemovalPhaseOne => "Jetpack Features Removal Phase One"
    case JetpackFeaturesRemovalPhaseTwo => "Jetpack Features Removal Phase Two"
    case JetpackFeaturesRemovalPhaseThree => "Jetpack Features Removal Phase Three"
    case JetpackFeaturesRemovalPhaseFour => "Jetpack Features Removal Phase Four"
    case JetpackFeaturesRemovalPhaseNewUsers => "Jetpack Features Removal Phase For New Users"
    case JetpackFeaturesRemovalPhaseSelfHosted => "Jetpack Features Removal Phase For Self-Hosted Sites"
    case WordPressSupportForum => "Provide support through a forum"
    case JetpackIndividualPluginSupport => "Jetpack Individual Plugin Support"
    case Blaze => "Blaze"
  }

  /** Whether the debug tooling offers to override the flag. */
  function CanOverride(f: FeatureFlag): bool
  {
    match f
    case DebugMenu => false
    case TodayWidget => false
    case WeeklyRoundup => false
    case WeeklyRoundupStaticNotification => false
    case _ => true
  }
}
