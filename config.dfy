/**
 * `Config`: the Liquibase settings that a `Mikrator` run uses, and how they become the map of
 * scope values that Liquibase's `Scope.child` receives.
 *
 * The source declares one nullable `var` per setting. Here they are one map from `Setting` to
 * its value, where a setting missing from the map is a field holding `null`. The configuration
 * keys of the settings are Liquibase constants outside this model; they are the parameter
 * `keyOf`, and the properties of the scope-value map hold whenever those keys are pairwise
 * distinct and distinct from the three keys the source writes itself (`DistinctKeys`).
 */
module Config {
  import opened Wrappers

  // ---------------------------------------------------------------------------------------------
  // Settings and values

  /** The named settings of `Config`, one per nullable field, in the order `buildScopeValues` puts them. */
  datatype Setting =
    // GlobalConfiguration
    | AllowDuplicatedChangesetIdentifiers | AlwaysDropInsteadOfReplace | AlwaysOverrideStoredLogicSchema
    | AutoReorg | ChangeLogLockPollRate | ChangeLogLockWaitTime | ConvertDataTypes
    | DatabaseChangeLogTableName | DatabaseChangeLogLockTableName | DdlLockTimeout | DiffColumnOrder
    | DuplicateFileMode | FileEncoding | GenerateChangeSetCreatedValues
    | GeneratedChangeSetIdsIncludeDescription | Headless | IncludeCatalogInSpecification
    | IncludeRelationsForComputedColumns | IncludeSchemaNameForDefault | LiquibaseCatalogName
    | LiquibaseSchemaName | LiquibaseTablespaceName | OutputFileEncoding | OutputLineSeparator
    | PreserveClasspathPrefixInNormalizedPaths | PreserveSchemaCase | SearchPath | SecureParsing
    | ShouldSnapshotData | ShowBanner | Strict | SupportsMethodValidationLevel | TrimLoadDataFileHeader
    | UiService | ValidateXmlChangeLogFiles
    // AnalyticsArgs
    | AnalyticsConfigCacheTimeoutMillis | AnalyticsConfigEndpointTimeoutMillis | AnalyticsConfigEndpointUrl
    | AnalyticsDevOverride | AnalyticsEnabled | AnalyticsLicenseKeyChars | AnalyticsLogLevel
    | AnalyticsTimeoutMillis
    // LicenseTrackingArgs
    | LicenseTrackingEnabled | LicenseTrackingLogLevel | LicenseTrackingTimeout | LicenseTrackingTrackingId
    | LicenseTrackingUrl
    // SqlConfiguration
    | SqlAlwaysSetFetchSize | SqlShowAtLogLevel | SqlShowSqlWarningMessages

  /** The order of the `conf` calls in `buildScopeValues`, section by section. */
  const SettingOrder: seq<Setting> := GlobalSettings + AnalyticsSettings + LicenseTrackingSettings + SqlSettings

  const GlobalSettings: seq<Setting> := [
    AllowDuplicatedChangesetIdentifiers, AlwaysDropInsteadOfReplace, AlwaysOverrideStoredLogicSchema,
    AutoReorg, ChangeLogLockPollRate, ChangeLogLockWaitTime, ConvertDataTypes,
    DatabaseChangeLogTableName, DatabaseChangeLogLockTableName, DdlLockTimeout, DiffColumnOrder,
    DuplicateFileMode, FileEncoding, GenerateChangeSetCreatedValues,
    GeneratedChangeSetIdsIncludeDescription, Headless, IncludeCatalogInSpecification,
    IncludeRelationsForComputedColumns, IncludeSchemaNameForDefault, LiquibaseCatalogName,
    LiquibaseSchemaName, LiquibaseTablespaceName, OutputFileEncoding, OutputLineSeparator,
    PreserveClasspathPrefixInNormalizedPaths, PreserveSchemaCase, SearchPath, SecureParsing,
    ShouldSnapshotData, ShowBanner, Strict, SupportsMethodValidationLevel, TrimLoadDataFileHeader,
    UiService, ValidateXmlChangeLogFiles
  ]

  const AnalyticsSettings: seq<Setting> := [
    AnalyticsConfigCacheTimeoutMillis, AnalyticsConfigEndpointTimeoutMillis, AnalyticsConfigEndpointUrl,
    AnalyticsDevOverride, AnalyticsEnabled, AnalyticsLicenseKeyChars, AnalyticsLogLevel,
    AnalyticsTimeoutMillis
  ]

  const LicenseTrackingSettings: seq<Setting> := [
    LicenseTrackingEnabled, LicenseTrackingLogLevel, LicenseTrackingTimeout, LicenseTrackingTrackingId,
    LicenseTrackingUrl
  ]

  const SqlSettings: seq<Setting> := [SqlAlwaysSetFetchSize, SqlShowAtLogLevel, SqlShowSqlWarningMessages]

  /** A `ResourceAccessor`; the field's default is an `EmptyResourceAccessor`. */
  datatype ResourceAccessor = EmptyResourceAccessor | OtherResourceAccessor(description: string)

  /** The values that end up in the scope-value map. */
  datatype Value =
    | BoolValue(b: bool)
    | LongValue(l: int)
    | IntValue(i: int)
    | StringValue(s: string)
    | DuplicateFileModeValue(mode: string)
    | CharsetValue(charset: string)
    | ValidationLevelValue(level: string)
    | UiServiceValue(service: string)
    | LevelValue(level: string)
    | ResourceAccessorValue(accessor: ResourceAccessor)
    /** A `java.lang.Class`, by qualified name. */
    | ClassValue(className: string)
    /** An `AnalyticsConfiguration` object with its priority and both analytics switches. */
    | AnalyticsConfigurationValue(priority: int, ossAnalyticsEnabled: bool, proAnalyticsEnabled: bool)
    /** Any other object passed to `set`. */
    | OtherValue(description: string)

  /** The Kotlin type of each setting's field. */
  datatype SettingType = BoolType | LongType | IntType | StringType | DuplicateFileModeType | CharsetType
                       | ValidationLevelType | UiServiceType | LevelType

  function TypeOf(s: Setting): SettingType
  {
    match s
    case ChangeLogLockPollRate | ChangeLogLockWaitTime | AnalyticsConfigCacheTimeoutMillis => LongType
    case DdlLockTimeout | AnalyticsConfigEndpointTimeoutMillis | AnalyticsLicenseKeyChars
       | AnalyticsTimeoutMillis | LicenseTrackingTimeout => IntType
    case DatabaseChangeLogTableName | DatabaseChangeLogLockTableName | LiquibaseCatalogName
       | LiquibaseSchemaName | LiquibaseTablespaceName | OutputFileEncoding | OutputLineSeparator
       | SearchPath | AnalyticsConfigEndpointUrl | LicenseTrackingTrackingId | LicenseTrackingUrl => StringType
    case DuplicateFileMode => DuplicateFileModeType
    case FileEncoding => CharsetType
    case SupportsMethodValidationLevel => ValidationLevelType
    case UiService => UiServiceType
    case AnalyticsLogLevel | LicenseTrackingLogLevel | SqlShowAtLogLevel => LevelType
    case _ => BoolType
  }

  /** Whether `v` is a value of the field type of `s`; `Long` and `Int` are 64- and 32-bit. */
  predicate HasType(s: Setting, v: Value)
  {
    match TypeOf(s)
    case BoolType => v.BoolValue?
    case LongType => v.LongValue? && -0x8000_0000_0000_0000 <= v.l < 0x8000_0000_0000_0000
    case IntType => v.IntValue? && -0x8000_0000 <= v.i < 0x8000_0000
    case StringType => v.StringValue?
    case DuplicateFileModeType => v.DuplicateFileModeValue?
    case CharsetType => v.CharsetValue?
    case ValidationLevelType => v.ValidationLevelValue?
    case UiServiceType => v.UiServiceValue?
    case LevelType => v.LevelValue?
  }

  /** A `ConfigurationDefinition<T>`, of which `set` uses only the key. */
  datatype ConfigurationDefinition = ConfigurationDefinition(key: string)

  // ---------------------------------------------------------------------------------------------
  // Keys and the scope-value map

  /** `Scope.Attr.resourceAccessor.name`. */
  const ResourceAccessorKey: string := "resourceAccessor"
  /** The plugin override key of `AnalyticsListener`. */
  const AnalyticsListenerKey: string := "liquibase.plugin.liquibase.analytics.AnalyticsListener"
  /** The plugin override key of `AnalyticsConfiguration`. */
  const AnalyticsConfigurationKey: string := "liquibase.plugin.liquibase.analytics.configuration.AnalyticsConfiguration"

  /** The listener class that replaces analytics when it is disabled. */
  const NoOpAnalyticsListener: Value := ClassValue("liquibase.analytics.NoOpAnalyticsListener")
  /** The configuration object that replaces analytics when it is disabled: priority 100, both switches off. */
  const DisabledAnalyticsConfiguration: Value := AnalyticsConfigurationValue(100, false, false)

  /** The setting keys are pairwise distinct and differ from the keys the source writes itself. */
  predicate DistinctKeys(keyOf: Setting -> string)
  {
    && (forall s: Setting, t: Setting :: s != t ==> keyOf(s) != keyOf(t))
    && (forall s: Setting :: keyOf(s) != ResourceAccessorKey && keyOf(s) != AnalyticsListenerKey
                             && keyOf(s) != AnalyticsConfigurationKey)
  }

  /** Whether `analyticsEnabled` holds `false`. */
  predicate AnalyticsDisabled(settings: map<Setting, Value>)
  {
    AnalyticsEnabled in settings && settings[AnalyticsEnabled] == BoolValue(false)
  }

  /**
   * One `conf` call: a null setting adds nothing, any other binds its key to its value; for
   * `analyticsEnabled` holding `false` the two plugin overrides follow.
   */
  function Conf(m: map<string, Value>, s: Setting, settings: map<Setting, Value>, keyOf: Setting -> string)
    : (r: map<string, Value>)
    ensures s !in settings ==> r == m
    ensures s in settings ==> keyOf(s) in r
    ensures m.Keys <= r.Keys
  {
    if s !in settings then m
    else if s == AnalyticsEnabled && settings[s] == BoolValue(false) then
      m[keyOf(s) := settings[s]][AnalyticsListenerKey := NoOpAnalyticsListener]
       [AnalyticsConfigurationKey := DisabledAnalyticsConfiguration]
    else m[keyOf(s) := settings[s]]
  }

  /** The `conf` calls for the settings of `order`, one after the other, starting from `m`. */
  function ConfAll(m: map<string, Value>, order: seq<Setting>, settings: map<Setting, Value>,
                   keyOf: Setting -> string): (r: map<string, Value>)
    ensures m.Keys <= r.Keys
    ensures forall s :: s in order && s in settings ==> keyOf(s) in r
  {
    if order == [] then m
    else Conf(ConfAll(m, order[..|order| - 1], settings, keyOf), order[|order| - 1], settings, keyOf)
  }

  /** The keys that the `conf` calls of `order` add. */
  function AddedKeys(order: seq<Setting>, settings: map<Setting, Value>, keyOf: Setting -> string): set<string>
  {
    (set s | s in order && s in settings :: keyOf(s))
    + (if AnalyticsEnabled in order && AnalyticsDisabled(settings)
       then {AnalyticsListenerKey, AnalyticsConfigurationKey} else {})
  }

  /**
   * The scope values: the resource accessor first, then the settings in `SettingOrder`, then all
   * of `additional`, each later put replacing an earlier one with the same key.
   */
  function ScopeValues(resourceAccessor: ResourceAccessor, settings: map<Setting, Value>,
                       additional: map<string, Value>, keyOf: Setting -> string): (r: map<string, Value>)
    ensures forall k :: k in additional ==> k in r && r[k] == additional[k]
  {
    ConfAll(map[ResourceAccessorKey := ResourceAccessorValue(resourceAccessor)], SettingOrder, settings, keyOf)
    + additional
  }

  // ---------------------------------------------------------------------------------------------
  // Lemmas about the scope-value map

  /** The keys of the settings of `order` that are not null, split at the last one. */
  lemma SettingKeysSnoc(init: seq<Setting>, last: Setting, settings: map<Setting, Value>, keyOf: Setting -> string)
    ensures (set s | s in init + [last] && s in settings :: keyOf(s))
         == (set s | s in init && s in settings :: keyOf(s)) + (if last in settings then {keyOf(last)} else {})
  {
    var whole := set s | s in init + [last] && s in settings :: keyOf(s);
    var front := set s | s in init && s in settings :: keyOf(s);
    var extra: set<string> := if last in settings then {keyOf(last)} else {};
    forall x | x in whole ensures x in front + extra {
      var s :| s in init + [last] && s in settings && keyOf(s) == x;
      if s != last {
        assert s in init;
      }
    }
    forall x | x in front + extra ensures x in whole {
      if x in front {
        var s :| s in init && s in settings && keyOf(s) == x;
        assert s in init + [last];
      } else {
        assert last in init + [last];
      }
    }
    assert whole == front + extra;
  }

  /** One `conf` call adds the setting's key when it is not null, and the plugin keys when analytics is disabled. */
  lemma ConfKeys(m: map<string, Value>, s: Setting, settings: map<Setting, Value>, keyOf: Setting -> string)
    ensures Conf(m, s, settings, keyOf).Keys
         == m.Keys + (if s in settings then {keyOf(s)} else {})
            + (if s == AnalyticsEnabled && AnalyticsDisabled(settings)
               then {AnalyticsListenerKey, AnalyticsConfigurationKey} else {})
  {
  }

  lemma {:induction false} ConfAllKeys(m: map<string, Value>, order: seq<Setting>, settings: map<Setting, Value>,
                                       keyOf: Setting -> string)
    ensures ConfAll(m, order, settings, keyOf).Keys == m.Keys + AddedKeys(order, settings, keyOf)
  {
    if order != [] {
      var init, last := order[..|order| - 1], order[|order| - 1];
      assert order == init + [last];
      ConfAllKeys(m, init, settings, keyOf);
      ConfKeys(ConfAll(m, init, settings, keyOf), last, settings, keyOf);
      AddedKeysSnoc(init, last, settings, keyOf);
    }
  }

  /** The keys the `conf` calls of `init + [last]` add: those of `init`, then those of `last`. */
  lemma AddedKeysSnoc(init: seq<Setting>, last: Setting, settings: map<Setting, Value>, keyOf: Setting -> string)
    ensures AddedKeys(init + [last], settings, keyOf)
         == AddedKeys(init, settings, keyOf) + (if last in settings then {keyOf(last)} else {})
            + (if last == AnalyticsEnabled && AnalyticsDisabled(settings)
               then {AnalyticsListenerKey, AnalyticsConfigurationKey} else {})
  {
    SettingKeysSnoc(init, last, settings, keyOf);
    assert AnalyticsEnabled in init + [last] <==> AnalyticsEnabled in init || last == AnalyticsEnabled;
  }

  /** The value a `conf` call of `order` puts under a setting's key is the setting's own value. */
  lemma {:induction false} ConfAllSetting(m: map<string, Value>, order: seq<Setting>, settings: map<Setting, Value>,
                                          keyOf: Setting -> string, s: Setting)
    requires DistinctKeys(keyOf)
    requires s in order && s in settings
    ensures keyOf(s) in ConfAll(m, order, settings, keyOf)
    ensures ConfAll(m, order, settings, keyOf)[keyOf(s)] == settings[s]
  {
    var init, last := order[..|order| - 1], order[|order| - 1];
    assert order == init + [last];
    var before := ConfAll(m, init, settings, keyOf);
    assert ConfAll(m, order, settings, keyOf) == Conf(before, last, settings, keyOf);
    if last == s {
      ConfOwnSetting(before, s, settings, keyOf);
    } else {
      assert s in init;
      ConfAllSetting(m, init, settings, keyOf, s);
      ConfOtherSetting(before, last, settings, keyOf, s);
    }
  }

  /** A `conf` call for a non-null setting binds the setting's key to its value. */
  lemma ConfOwnSetting(m: map<string, Value>, s: Setting, settings: map<Setting, Value>, keyOf: Setting -> string)
    requires DistinctKeys(keyOf)
    requires s in settings
    ensures keyOf(s) in Conf(m, s, settings, keyOf)
    ensures Conf(m, s, settings, keyOf)[keyOf(s)] == settings[s]
  {
    assert keyOf(s) != AnalyticsListenerKey && keyOf(s) != AnalyticsConfigurationKey;
  }

  /** A `conf` call for another setting leaves a setting's key as it was. */
  lemma ConfOtherSetting(m: map<string, Value>, t: Setting, settings: map<Setting, Value>,
                         keyOf: Setting -> string, s: Setting)
    requires DistinctKeys(keyOf)
    requires t != s && keyOf(s) in m
    ensures keyOf(s) in Conf(m, t, settings, keyOf)
    ensures Conf(m, t, settings, keyOf)[keyOf(s)] == m[keyOf(s)]
  {
    assert keyOf(t) != keyOf(s);
    assert keyOf(s) != AnalyticsListenerKey && keyOf(s) != AnalyticsConfigurationKey;
  }

  /** A key that no `conf` call of `order` writes keeps its value from `m`. */
  lemma {:induction false} ConfAllUntouched(m: map<string, Value>, order: seq<Setting>, settings: map<Setting, Value>,
                                            keyOf: Setting -> string, k: string)
    requires k !in AddedKeys(order, settings, keyOf)
    ensures (k in ConfAll(m, order, settings, keyOf)) == (k in m)
    ensures k in m ==> ConfAll(m, order, settings, keyOf)[k] == m[k]
  {
    if order != [] {
      var init, last := order[..|order| - 1], order[|order| - 1];
      assert order == init + [last];
      assert AddedKeys(init, settings, keyOf) <= AddedKeys(order, settings, keyOf);
      ConfAllUntouched(m, init, settings, keyOf, k);
    }
  }

  /** With analytics disabled, the two plugin overrides are the ones `conf` of `analyticsEnabled` puts. */
  lemma {:induction false} ConfAllPlugins(m: map<string, Value>, order: seq<Setting>, settings: map<Setting, Value>,
                                          keyOf: Setting -> string)
    requires DistinctKeys(keyOf)
    requires AnalyticsEnabled in order && AnalyticsDisabled(settings)
    ensures AnalyticsListenerKey in ConfAll(m, order, settings, keyOf)
    ensures ConfAll(m, order, settings, keyOf)[AnalyticsListenerKey] == NoOpAnalyticsListener
    ensures AnalyticsConfigurationKey in ConfAll(m, order, settings, keyOf)
    ensures ConfAll(m, order, settings, keyOf)[AnalyticsConfigurationKey] == DisabledAnalyticsConfiguration
  {
    var init, last := order[..|order| - 1], order[|order| - 1];
    assert order == init + [last];
    if last != AnalyticsEnabled {
      ConfAllPlugins(m, init, settings, keyOf);
    }
  }

  /** `SettingOrder` lists every setting. */
  lemma AllSettingsOrdered(s: Setting)
    ensures s in SettingOrder
  {
  }

  /**
   * The keys of the scope-value map are exactly the resource-accessor key, the keys of the
   * non-null settings, the two plugin overrides when analytics is disabled, and the keys of
   * `additional`. In particular a null setting contributes no key.
   */
  lemma ScopeValuesKeys(resourceAccessor: ResourceAccessor, settings: map<Setting, Value>,
                        additional: map<string, Value>, keyOf: Setting -> string)
    ensures ScopeValues(resourceAccessor, settings, additional, keyOf).Keys
         == {ResourceAccessorKey} + (set s | s in settings :: keyOf(s))
            + (if AnalyticsDisabled(settings) then {AnalyticsListenerKey, AnalyticsConfigurationKey} else {})
            + additional.Keys
  {
    var start := map[ResourceAccessorKey := ResourceAccessorValue(resourceAccessor)];
    ConfAllKeys(start, SettingOrder, settings, keyOf);
    OrderedSettingKeys(settings, keyOf);
  }

  /** Restricting the non-null settings to those of `SettingOrder` loses none. */
  lemma OrderedSettingKeys(settings: map<Setting, Value>, keyOf: Setting -> string)
    ensures (set s | s in SettingOrder && s in settings :: keyOf(s)) == (set s | s in settings :: keyOf(s))
  {
    forall s | s in settings ensures s in SettingOrder { AllSettingsOrdered(s); }
  }

  /** A null setting has no key in the scope values unless `additional` supplies one. */
  lemma NullSettingAbsent(resourceAccessor: ResourceAccessor, settings: map<Setting, Value>,
                          additional: map<string, Value>, keyOf: Setting -> string, s: Setting)
    requires DistinctKeys(keyOf)
    requires s !in settings && keyOf(s) !in additional
    ensures keyOf(s) !in ScopeValues(resourceAccessor, settings, additional, keyOf)
  {
    NullSettingNotAdded(SettingOrder, settings, keyOf, s);
    ConfAllUntouched(map[ResourceAccessorKey := ResourceAccessorValue(resourceAccessor)], SettingOrder, settings,
                     keyOf, keyOf(s));
  }

  /** No `conf` call adds the key of a null setting. */
  lemma NullSettingNotAdded(order: seq<Setting>, settings: map<Setting, Value>, keyOf: Setting -> string, s: Setting)
    requires DistinctKeys(keyOf)
    requires s !in settings
    ensures keyOf(s) !in AddedKeys(order, settings, keyOf)
  {
    forall t | t in order && t in settings ensures keyOf(t) != keyOf(s) {
      assert t != s;
    }
    assert keyOf(s) != AnalyticsListenerKey && keyOf(s) != AnalyticsConfigurationKey;
  }

  /** A non-null setting's key is bound to exactly the setting's value unless `additional` overrides it. */
  lemma SettingBound(resourceAccessor: ResourceAccessor, settings: map<Setting, Value>,
                     additional: map<string, Value>, keyOf: Setting -> string, s: Setting)
    requires DistinctKeys(keyOf)
    requires s in settings && keyOf(s) !in additional
    ensures keyOf(s) in ScopeValues(resourceAccessor, settings, additional, keyOf)
    ensures ScopeValues(resourceAccessor, settings, additional, keyOf)[keyOf(s)] == settings[s]
  {
    AllSettingsOrdered(s);
    ConfAllSetting(map[ResourceAccessorKey := ResourceAccessorValue(resourceAccessor)], SettingOrder, settings,
                   keyOf, s);
  }

  /** The resource accessor is always present, bound to the field's value unless `additional` overrides it. */
  lemma ResourceAccessorPresent(resourceAccessor: ResourceAccessor, settings: map<Setting, Value>,
                                additional: map<string, Value>, keyOf: Setting -> string)
    requires DistinctKeys(keyOf)
    ensures ResourceAccessorKey in ScopeValues(resourceAccessor, settings, additional, keyOf)
    ensures ResourceAccessorKey !in additional ==>
              ScopeValues(resourceAccessor, settings, additional, keyOf)[ResourceAccessorKey]
              == ResourceAccessorValue(resourceAccessor)
  {
    ConfAllUntouched(map[ResourceAccessorKey := ResourceAccessorValue(resourceAccessor)], SettingOrder, settings,
                     keyOf, ResourceAccessorKey);
  }

  /**
   * `analyticsEnabled == false` puts both plugin overrides (which only `additional` can replace);
   * `true` or `null` puts neither, so then those keys are present only if `additional` has them.
   */
  lemma AnalyticsOverrides(resourceAccessor: ResourceAccessor, settings: map<Setting, Value>,
                           additional: map<string, Value>, keyOf: Setting -> string)
    requires DistinctKeys(keyOf)
    ensures AnalyticsDisabled(settings) ==>
              var r := ScopeValues(resourceAccessor, settings, additional, keyOf);
              && AnalyticsListenerKey in r && AnalyticsConfigurationKey in r
              && (AnalyticsListenerKey !in additional ==> r[AnalyticsListenerKey] == NoOpAnalyticsListener)
              && (AnalyticsConfigurationKey !in additional ==>
                    r[AnalyticsConfigurationKey] == DisabledAnalyticsConfiguration)
    ensures !AnalyticsDisabled(settings) ==>
              var r := ScopeValues(resourceAccessor, settings, additional, keyOf);
              && (AnalyticsListenerKey in r <==> AnalyticsListenerKey in additional)
              && (AnalyticsConfigurationKey in r <==> AnalyticsConfigurationKey in additional)
  {
    var start := map[ResourceAccessorKey := ResourceAccessorValue(resourceAccessor)];
    if AnalyticsDisabled(settings) {
      AllSettingsOrdered(AnalyticsEnabled);
      ConfAllPlugins(start, SettingOrder, settings, keyOf);
    } else {
      ScopeValuesKeys(resourceAccessor, settings, additional, keyOf);
    }
  }

  // ---------------------------------------------------------------------------------------------
  // The configuration object

  class Config {
    /** The entries given through `set`, by configuration key. */
    var additional: map<string, Value>
    var resourceAccessor: ResourceAccessor
    /** The named settings that are not null. */
    var settings: map<Setting, Value>

    /** Every non-null setting holds a value of its field's type. */
    ghost predicate Valid()
      reads this
    {
      forall s :: s in settings ==> HasType(s, settings[s])
    }

    /** A configuration with every setting null, no additional entries and an empty resource accessor. */
    constructor ()
      ensures Valid()
      ensures additional == map[] && resourceAccessor == EmptyResourceAccessor && settings == map[]
    {
      additional := map[];
      resourceAccessor := EmptyResourceAccessor;
      settings := map[];
    }

    /** `config[definition] = value`: stores `value` under the definition's key, replacing an earlier one. */
    method Set(configuration: ConfigurationDefinition, value: Value)
      modifies this`additional
      ensures additional == old(additional)[configuration.key := value]
    {
      additional := additional[configuration.key := value];
    }

    /** Assigns a named setting; `None` assigns `null`. */
    method Assign(s: Setting, v: Option<Value>)
      requires Valid()
      requires v.Some? ==> HasType(s, v.value)
      modifies this`settings
      ensures Valid()
      ensures settings == if v.Some? then old(settings)[s := v.value] else old(settings) - {s}
    {
      if v.Some? {
        settings := settings[s := v.value];
      } else {
        settings := settings - {s};
      }
    }

    /** Assigns the resource accessor. */
    method AssignResourceAccessor(accessor: ResourceAccessor)
      modifies this`resourceAccessor
      ensures resourceAccessor == accessor
    {
      resourceAccessor := accessor;
    }

    /** `buildScopeValues()`: the conditional puts in source order, then `putAll(additional)`. */
    method BuildScopeValues(keyOf: Setting -> string) returns (values: map<string, Value>)
      ensures values == ScopeValues(resourceAccessor, settings, additional, keyOf)
    {
      var start := map[ResourceAccessorKey := ResourceAccessorValue(resourceAccessor)];
      values := start;
      for i := 0 to |SettingOrder|
        invariant values == ConfAll(start, SettingOrder[..i], settings, keyOf)
      {
        assert SettingOrder[..i + 1][..i] == SettingOrder[..i];
        values := PutSetting(values, SettingOrder[i], keyOf);
      }
      assert SettingOrder[..|SettingOrder|] == SettingOrder;
      values := values + additional;
    }

    /** One `conf` call: puts a non-null setting, and for `analyticsEnabled == false` the two plugin overrides. */
    method PutSetting(values: map<string, Value>, s: Setting, keyOf: Setting -> string)
      returns (r: map<string, Value>)
      ensures r == Conf(values, s, settings, keyOf)
    {
      r := values;
      if s in settings {
        r := r[keyOf(s) := settings[s]];
        if s == AnalyticsEnabled && settings[s] == BoolValue(false) {
          r := r[AnalyticsListenerKey := NoOpAnalyticsListener];
          r := r[AnalyticsConfigurationKey := DisabledAnalyticsConfiguration];
        }
      }
    }
  }

  // ---------------------------------------------------------------------------------------------
  // Config(block)

  /** One statement of a `Config { … }` block. */
  datatype ConfigCall =
    | SetCall(configuration: ConfigurationDefinition, value: Value)
    | AssignCall(setting: Setting, v: Option<Value>)
    | AssignResourceAccessorCall(accessor: ResourceAccessor)

  /** A block is well typed when every assignment gives its setting a value of the field's type. */
  predicate WellTyped(block: seq<ConfigCall>)
  {
    forall i :: 0 <= i < |block| && block[i].AssignCall? && block[i].v.Some? ==>
      HasType(block[i].setting, block[i].v.value)
  }

  /** The fields of a `Config`, as a value. */
  datatype ConfigState = ConfigState(additional: map<string, Value>, resourceAccessor: ResourceAccessor,
                                     settings: map<Setting, Value>)

  const InitialState := ConfigState(map[], EmptyResourceAccessor, map[])

  function Step(st: ConfigState, call: ConfigCall): ConfigState
  {
    match call
    case SetCall(configuration, value) => st.(additional := st.additional[configuration.key := value])
    case AssignCall(s, v) =>
      st.(settings := if v.Some? then st.settings[s := v.value] else st.settings - {s})
    case AssignResourceAccessorCall(accessor) => st.(resourceAccessor := accessor)
  }

  /** The state after running the statements of `block` in order. */
  function Apply(st: ConfigState, block: seq<ConfigCall>): ConfigState
  {
    if block == [] then st else Step(Apply(st, block[..|block| - 1]), block[|block| - 1])
  }

  /**
   * The `Config { … }` entry point: a fresh configuration with the statements of `block` run on
   * it, in order.
   */
  method NewConfig(block: seq<ConfigCall>) returns (c: Config)
    requires WellTyped(block)
    ensures fresh(c) && c.Valid()
    ensures ConfigState(c.additional, c.resourceAccessor, c.settings) == Apply(InitialState, block)
  {
    c := new Config();
    for i := 0 to |block|
      invariant c.Valid()
      invariant ConfigState(c.additional, c.resourceAccessor, c.settings) == Apply(InitialState, block[..i])
    {
      assert block[..i + 1][..i] == block[..i];
      match block[i]
      case SetCall(configuration, value) => c.Set(configuration, value);
      case AssignCall(s, v) => c.Assign(s, v);
      case AssignResourceAccessorCall(accessor) => c.AssignResourceAccessor(accessor);
    }
    assert block[..|block|] == block;
  }

  /**
   * A later `set` with the same key replaces an earlier value: the value of a key is the one its
   * last `set` in the block gave it, whatever other statements follow.
   */
  lemma {:induction false} LastSetWins(st: ConfigState, block: seq<ConfigCall>, i: nat, key: string, value: Value)
    requires i < |block| && block[i] == SetCall(ConfigurationDefinition(key), value)
    requires forall j :: i < j < |block| && block[j].SetCall? ==> block[j].configuration.key != key
    ensures key in Apply(st, block).additional && Apply(st, block).additional[key] == value
  {
    if i < |block| - 1 {
      LastSetWins(st, block[..|block| - 1], i, key, value);
    }
  }
}
