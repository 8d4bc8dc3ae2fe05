# Feature flags of the WordPress iOS app

This project models the app's feature-flag registry, `FeatureFlag`. It is a closed enumeration of 44 named flags. Four total lookups are defined over it:

- `enabled`: the effective on/off value. A value in the local override store wins. Without one, the flag's compiled-in default applies, which may read the build channel and two app-configuration switches.
- `remoteKey`: the key that a server-side feature flag must carry to match the flag. Only some flags have one.
- `description`: the flag's label in the debug build's override menu.
- `canOverride`: whether the debug tooling offers to override the flag.

The model also covers the enum's integer raw values and its `allCases` list, both of which come from the enum's declaration.

The app's collaborators become parameters:

- The override store (`FeatureFlagOverrideStore`) is a `map<FeatureFlag, bool>`. A flag with no entry has no override.
- The build channel (`BuildConfiguration.current`) is a `BuildConfiguration`. Its four channels are `LocalDeveloper`, `A8cBranchTest`, `A8cPrereleaseTesting` and `AppStore`.
- `AppConfiguration.isJetpack` and `AppConfiguration.showsStatsRevampV2` are the two fields of an `AppConfiguration` record.

There are two modules:

- `FeatureFlags` (`feature_flag.dfy`) holds the enumeration and the lookups, one function per switch in the source.
- `FeatureFlagProperties` (`feature_flag_properties.dfy`) holds what the table promises, stated over those functions.

`enabled` never consults `canOverride`: a stored override of a pinned flag still wins (see `PinnedOverrideStillWins`). Refusing overrides of pinned flags would be the override store's job, and its code is not part of this model.

## Model

| member | source | states |
|---|---|---|
| FeatureFlags.RawValue | WordPress/Classes/Utility/BuildInformation/FeatureFlag.swift:4-48 | each flag's integer raw value is its declaration position, below the flag count of 44 |
| FeatureFlags.FromRawValue | WordPress/Classes/Utility/BuildInformation/FeatureFlag.swift:4-48 | the failable raw-value initialiser yields a flag exactly for the integers 0 to 43 |
| FeatureFlags.RawValueRoundTrip | WordPress/Classes/Utility/BuildInformation/FeatureFlag.swift:4-48 | converting a flag to its raw value and back gives the same flag |
| FeatureFlags.FromRawValueRoundTrip | WordPress/Classes/Utility/BuildInformation/FeatureFlag.swift:4-48 | converting a valid raw value to a flag and back gives the same number |
| FeatureFlags.AllCases | WordPress/Classes/Utility/BuildInformation/FeatureFlag.swift:4-48 | `allCases` has 44 entries in raw-value order, contains every flag and has no repetitions |
| FeatureFlags.Enabled | WordPress/Classes/Utility/BuildInformation/FeatureFlag.swift:51-150 | the effective value; its contract is carried by `OverrideWins` (a stored override wins under every configuration) and `NoOverrideGivesDefault` (otherwise the compiled-in default) |
| FeatureFlags.DefaultValue | WordPress/Classes/Utility/BuildInformation/FeatureFlag.swift:56-149 | the compiled-in default; its contract is carried by `ChannelDefaults`, `AppConfigurationDefaults` and `ConstantDefault` |
| FeatureFlags.Disabled | WordPress/Classes/Utility/BuildInformation/FeatureFlag.swift:152-154 | `disabled` always differs from `enabled`, and with a stored override it is that override's negation |
| FeatureFlagProperties.OverrideWins | WordPress/Classes/Utility/BuildInformation/FeatureFlag.swift:51-54 | a stored override is the effective value under every build channel and app configuration |
| FeatureFlagProperties.NoOverrideGivesDefault | WordPress/Classes/Utility/BuildInformation/FeatureFlag.swift:51-149 | without a stored override the effective value is the flag's compiled-in default |
| FeatureFlagProperties.StoreOverride | WordPress/Classes/Utility/BuildInformation/FeatureFlag.swift:52-54 | after storing an override for one flag, that flag's value is the stored value and every other flag's value is unchanged |
| FeatureFlagProperties.RemoveOverride | WordPress/Classes/Utility/BuildInformation/FeatureFlag.swift:52-56 | after removing one flag's override, that flag falls back to its default and every other flag's value is unchanged |
| FeatureFlagProperties.PinnedOverrideStillWins | WordPress/Classes/Utility/BuildInformation/FeatureFlag.swift:51-66 | `debugMenu` cannot be overridden and defaults to on in developer builds, yet a stored `false` turns it off, because `enabled` ignores `canOverride` |
| FeatureFlagProperties.ChannelDefaults | WordPress/Classes/Utility/BuildInformation/FeatureFlag.swift:63-80 | `debugMenu` defaults to on exactly in developer, branch-test and prerelease-testing builds, which means every non-App-Store build, so it agrees with `siteIconCreator`; `jetpackDisconnect` defaults to on exactly in developer builds, so it implies `debugMenu` |
| FeatureFlagProperties.AppConfigurationDefaults | WordPress/Classes/Utility/BuildInformation/FeatureFlag.swift:57-106 | both blogging-prompt flags default to `isJetpack` and both stats flags default to `showsStatsRevampV2`, under any build channel |
| FeatureFlagProperties.ConstantDefault | WordPress/Classes/Utility/BuildInformation/FeatureFlag.swift:56-149 | every flag outside the seven configuration-dependent ones has the same default under every build channel and app configuration |
| FeatureFlagProperties.ConfigurationDependence | WordPress/Classes/Utility/BuildInformation/FeatureFlag.swift:56-149 | a flag's default differs between some two configurations if and only if it is one of the seven configuration-dependent flags |
| FeatureFlags.RemoteKey | WordPress/Classes/Utility/BuildInformation/FeatureFlag.swift:156-180 | every server-side key that is present is a non-empty string |
| FeatureFlagProperties.RemoteKeyPresence | WordPress/Classes/Utility/BuildInformation/FeatureFlag.swift:157-180 | a flag has a server-side key if and only if it is one of the six Jetpack-removal phases, the duplicate-notification flag, the support-forum flag or `blaze` |
| FeatureFlagProperties.RemoteKeyedCount | WordPress/Classes/Utility/BuildInformation/FeatureFlag.swift:157-180 | the flags of `allCases` that have a server-side key are exactly those nine, and there are nine of them |
| FeatureFlagProperties.RemoteKeyInjective | WordPress/Classes/Utility/BuildInformation/FeatureFlag.swift:156-180 | two flags with the same server-side key are the same flag |
| FeatureFlagProperties.FindByRemoteKey | WordPress/Classes/Utility/BuildInformation/FeatureFlag.swift:156-180 | searching a list of flags for a server-side key finds a listed flag that has that key, or reports that no listed flag has it |
| FeatureFlagProperties.FlagForRemoteKey | WordPress/Classes/Utility/BuildInformation/FeatureFlag.swift:156-180 | a server-side key names a flag that carries it; it names nothing exactly when no flag carries it, as with a stale or unknown key |
| FeatureFlagProperties.RemoteKeyRoundTrip | WordPress/Classes/Utility/BuildInformation/FeatureFlag.swift:156-180 | the lookup by a flag's own server-side key gives back that flag |
| FeatureFlags.Description | WordPress/Classes/Utility/BuildInformation/FeatureFlag.swift:195-286 | every flag has a non-empty debug-menu label |
| FeatureFlags.CanOverride | WordPress/Classes/Utility/BuildInformation/FeatureFlag.swift:288-301 | whether a flag may be overridden; its contract is carried by `PinnedFlagsExactly` |
| FeatureFlagProperties.PinnedFlagsExactly | WordPress/Classes/Utility/BuildInformation/FeatureFlag.swift:288-301 | a flag cannot be overridden if and only if it is `debugMenu`, `todayWidget`, `weeklyRoundup` or `weeklyRoundupStaticNotification` |
| FeatureFlagProperties.PinnedCount | WordPress/Classes/Utility/BuildInformation/FeatureFlag.swift:288-301 | the pinned flags of `allCases` are exactly those four, and there are four of them |

## Left out

- `FeatureFlagOverrideStore` is not part of this model. It persists overrides in the app's settings and its code is not shown. It appears here only as the map that `enabled` reads, and `StoreOverride` and `RemoveOverride` state what a store update or removal means for `enabled`. Whether the store refuses overrides of pinned flags is not modelled.
- `BuildConfiguration` and `AppConfiguration` are not part of this model beyond the four channels and the two switches that the defaults read. The current channel and the configuration values are parameters. The `~=` operator that `debugMenu`'s default applies to the build channel and a list of channels (line 66) is defined outside this file; the model reads it as membership of the channel in that list.
- The Objective-C bridge class `Feature` (lines 186-191) is left out. It only forwards to `enabled` and exists for runtime interop.
- The remote feature-flag store that fetches server-side values is not part of this model. `FlagForRemoteKey` is the lookup such a store would perform by key. `enabled` in this file does not read remote values.
- FeatureFlags.Description: the contract states only that every label is non-empty. The exact label texts are in the function body, copied from the source, and no other property of them is promised.
