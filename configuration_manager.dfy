/**
 * ConfigurationManager.swift: the app's settings, kept in memory and
 * persisted as JSON in UserDefaults under one key.  Every change goes through
 * `saveConfiguration`, which writes the store, adopts the new value and posts
 * a `configurationDidChange` notification carrying it.  The JSON codec is
 * given as a pair of functions; UserDefaults is a map from keys to data and the
 * notification center the sequence of configurations posted so far.
 */
module Configuration {
  import opened Common
  import opened Models

  const ConfigurationKey: string := "PLaMoTranslationConfiguration"

  /** The bytes UserDefaults holds for a key. */
  type Data = seq<int>

  /** What the manager touches: the defaults store, `_configuration` and the
      notifications it has posted. */
  datatype Store = Store(defaults: map<string, Data>, configuration: AppConfiguration, posted: seq<AppConfiguration>)

  /** `loadConfigurationFromDefaults`: the stored configuration, if present and decodable. */
  function StoredConfiguration(defaults: map<string, Data>, decode: Data -> Option<AppConfiguration>): Option<AppConfiguration> {
    if ConfigurationKey in defaults then decode(defaults[ConfigurationKey]) else None
  }

  /** `saveConfiguration`: when encoding succeeds the data is stored, the value
      adopted and the notification posted; when it fails nothing changes. */
  function AfterSave(s: Store, config: AppConfiguration, encode: AppConfiguration -> Option<Data>): Store {
    match encode(config)
    case Some(data) => Store(s.defaults[ConfigurationKey := data], config, s.posted + [config])
    case None => s
  }

  /** `loadConfiguration`: the stored configuration if it decodes; otherwise the
      default, which is saved and adopted (adopted even if saving failed). */
  function AfterLoad(s: Store, encode: AppConfiguration -> Option<Data>, decode: Data -> Option<AppConfiguration>)
    : (AppConfiguration, Store)
  {
    match StoredConfiguration(s.defaults, decode)
    case Some(config) => (config, s.(configuration := config))
    case None => (DefaultConfiguration, AfterSave(s, DefaultConfiguration, encode).(configuration := DefaultConfiguration))
  }

  /** The codec reads back what it writes for `config`. */
  predicate RoundTrips(config: AppConfiguration, encode: AppConfiguration -> Option<Data>, decode: Data -> Option<AppConfiguration>) {
    encode(config).Some? && decode(encode(config).value) == Some(config)
  }

  class ConfigurationManager {
    var defaults: map<string, Data>
    var configuration: AppConfiguration
    var posted: seq<AppConfiguration>
    const encode: AppConfiguration -> Option<Data>
    const decode: Data -> Option<AppConfiguration>

    function Snapshot(): Store
      reads this
    {
      Store(defaults, configuration, posted)
    }

    /** `init`: the stored configuration if present and decodable, else the
        default; nothing is written. */
    constructor (stored: map<string, Data>, encode: AppConfiguration -> Option<Data>, decode: Data -> Option<AppConfiguration>)
      ensures this.encode == encode && this.decode == decode
      ensures defaults == stored && posted == []
      ensures configuration == match StoredConfiguration(stored, decode)
        case Some(config) => config
        case None => DefaultConfiguration
    {
      this.encode := encode;
      this.decode := decode;
      defaults := stored;
      posted := [];
      var fromDefaults := StoredConfiguration(stored, decode);
      configuration := if fromDefaults.Some? then fromDefaults.value else DefaultConfiguration;
    }

    method SaveConfiguration(config: AppConfiguration)
      modifies this
      ensures Snapshot() == AfterSave(old(Snapshot()), config, encode)
    {
      var data := encode(config);
      if data.Some? {
        defaults := defaults[ConfigurationKey := data.value];
        configuration := config;
        posted := posted + [config];
      }
    }

    method LoadConfiguration() returns (config: AppConfiguration)
      modifies this
      ensures (config, Snapshot()) == AfterLoad(old(Snapshot()), encode, decode)
    {
      if ConfigurationKey in defaults {
        var decoded := decode(defaults[ConfigurationKey]);
        if decoded.Some? {
          configuration := decoded.value;
          return decoded.value;
        }
      }
      SaveConfiguration(DefaultConfiguration);
      configuration := DefaultConfiguration;
      return DefaultConfiguration;
    }

    method ResetToDefaults()
      modifies this
      ensures Snapshot() == AfterSave(old(Snapshot()), DefaultConfiguration, encode)
    {
      SaveConfiguration(DefaultConfiguration);
    }

    method UpdateSourceLanguage(language: Language)
      modifies this
      ensures Snapshot() == AfterSave(old(Snapshot()), old(configuration).(sourceLanguage := language), encode)
    {
      var config := configuration.(sourceLanguage := language);
      SaveConfiguration(config);
    }

    method UpdateTargetLanguage(language: Language)
      modifies this
      ensures Snapshot() == AfterSave(old(Snapshot()), old(configuration).(targetLanguage := language), encode)
    {
      var config := configuration.(targetLanguage := language);
      SaveConfiguration(config);
    }

    method UpdateServerEndpoint(endpoint: string)
      modifies this
      ensures Snapshot() == AfterSave(old(Snapshot()), old(configuration).(serverEndpoint := endpoint), encode)
    {
      var config := configuration.(serverEndpoint := endpoint);
      SaveConfiguration(config);
    }

    /** Also asks the login-item service to follow `enabled`, which is not modelled. */
    method UpdateAutoLaunch(enabled: bool)
      modifies this
      ensures Snapshot() == AfterSave(old(Snapshot()), old(configuration).(autoLaunch := enabled), encode)
    {
      var config := configuration.(autoLaunch := enabled);
      SaveConfiguration(config);
    }

    method UpdateResultWindowTimeout(timeout: real)
      modifies this
      ensures Snapshot() == AfterSave(old(Snapshot()), old(configuration).(resultWindowTimeout := timeout), encode)
    {
      var config := configuration.(resultWindowTimeout := timeout);
      SaveConfiguration(config);
    }

    method UpdateHotkeyEnabled(enabled: bool)
      modifies this
      ensures Snapshot() == AfterSave(old(Snapshot()), old(configuration).(hotkeyEnabled := enabled), encode)
    {
      var config := configuration.(hotkeyEnabled := enabled);
      SaveConfiguration(config);
    }
  }

  /** A successful save stores the configuration under the key, adopts it,
      announces it once, and leaves every other key of the store alone; a failed
      save changes nothing. */
  lemma SaveEffect(s: Store, config: AppConfiguration, encode: AppConfiguration -> Option<Data>)
    ensures var t := AfterSave(s, config, encode);
      && (encode(config).Some? ==>
            && t.configuration == config && t.posted == s.posted + [config]
            && ConfigurationKey in t.defaults && t.defaults[ConfigurationKey] == encode(config).value
            && (forall k :: k in s.defaults && k != ConfigurationKey ==> k in t.defaults && t.defaults[k] == s.defaults[k])
            && t.defaults.Keys == s.defaults.Keys + {ConfigurationKey})
      && (encode(config).None? ==> t == s)
  {
  }

  /** Saving and then loading gives back what was saved, when the codec round-trips. */
  lemma SaveThenLoad(s: Store, config: AppConfiguration, encode: AppConfiguration -> Option<Data>, decode: Data -> Option<AppConfiguration>)
    requires RoundTrips(config, encode, decode)
    ensures AfterLoad(AfterSave(s, config, encode), encode, decode).0 == config
    ensures AfterLoad(AfterSave(s, config, encode), encode, decode).1 == AfterSave(s, config, encode)
  {
  }

  /** Loading is stable: once a load has settled on a configuration, loading
      again returns the same one, provided the codec round-trips the default. */
  lemma LoadTwice(s: Store, encode: AppConfiguration -> Option<Data>, decode: Data -> Option<AppConfiguration>)
    requires RoundTrips(DefaultConfiguration, encode, decode)
    ensures var (first, t) := AfterLoad(s, encode, decode);
      AfterLoad(t, encode, decode).0 == first
  {
    if StoredConfiguration(s.defaults, decode).None? {
      SaveThenLoad(s, DefaultConfiguration, encode, decode);
    }
  }

  /** After a reset the configuration is the default, when it can be encoded. */
  lemma ResetGivesDefault(s: Store, encode: AppConfiguration -> Option<Data>)
    requires encode(DefaultConfiguration).Some?
    ensures AfterSave(s, DefaultConfiguration, encode).configuration == DefaultConfiguration
  {
  }
}
