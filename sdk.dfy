/**
 * The SDK facade: its two built-in configurations and the constructor that
 * picks one by environment and lays the caller's overrides on top.
 */
module Sdk {
  import opened JsValue

  /** A configuration record, property name to value. */
  type Config = map<string, Value>

  const ProductionConfig: Config := map[
    "baseUrl" := Str("https://api.assisfy.com/api/v1"),
    "socketUrl" := Str("wss://api.assisfy.com/v1/connect")
  ]

  const DevelopmentConfig: Config := map[
    "baseUrl" := Str("https://api-dev.assisfy.com/api/v1"),
    "socketUrl" := Str("wss://api-dev.assisfy.com/v1/connect")
  ]

  /** An `AssisfySDK` instance: its three fields never change after construction. */
  datatype AssisfySdk = AssisfySdk(apiKey: Value, config: Config, environment: Value)

  /** The defaults chosen by `environment === "development"`. */
  function Defaults(environment: Value): Config {
    if environment == Str("development") then DevelopmentConfig else ProductionConfig
  }

  /** The properties that `...v` copies: an object's own properties, nothing for
      `undefined`, `null`, booleans and numbers. */
  function OwnProperties(v: Value): Config {
    if v.Obj? then v.props else map[]
  }

  /** `new AssisfySDK({ apiKey, config, environment })`; an omitted `config`
      is `undefined`, which the default `{}` replaces and spreads to nothing. */
  function NewSdk(apiKey: Value, config: Value, environment: Value): (sdk: AssisfySdk)
    ensures sdk.apiKey == apiKey && sdk.environment == environment
    ensures sdk.config.Keys == Defaults(environment).Keys + OwnProperties(config).Keys
    ensures forall k :: k in OwnProperties(config) ==> sdk.config[k] == OwnProperties(config)[k]
    ensures forall k :: k in Defaults(environment) && k !in OwnProperties(config) ==>
      sdk.config[k] == Defaults(environment)[k]
  {
    AssisfySdk(apiKey, Defaults(environment) + OwnProperties(config), environment)
  }

  /** `sdk.config.<key>`. */
  function ConfigValue(sdk: AssisfySdk, key: string): Value {
    if key in sdk.config then sdk.config[key] else Undefined
  }

  /** Only the exact string "development" selects the development defaults;
      every other environment, "staging" and an omitted one included, gets
      production's. */
  lemma DevelopmentOnlyForDevelopment(environment: Value)
    ensures Defaults(environment) == DevelopmentConfig <==> environment == Str("development")
    ensures Defaults(environment) == ProductionConfig <==> environment != Str("development")
  {
    assert ProductionConfig["baseUrl"] != DevelopmentConfig["baseUrl"];
  }

  /** With no overrides the SDK's configuration is exactly the selected defaults. */
  lemma NoOverridesKeepsDefaults(apiKey: Value, environment: Value)
    ensures NewSdk(apiKey, Undefined, environment).config == Defaults(environment)
  {
  }

  /** A caller that overrides `baseUrl` is heard; `socketUrl` keeps its default. */
  lemma OverrideExample()
    ensures var sdk := NewSdk(Str("key"), Obj(map["baseUrl" := Str("http://localhost:4000")]), Str("staging"));
      ConfigValue(sdk, "baseUrl") == Str("http://localhost:4000")
      && ConfigValue(sdk, "socketUrl") == Str("wss://api.assisfy.com/v1/connect")
  {
  }
}
