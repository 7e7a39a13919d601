/**
 * `getConfig` of src/utils/configUtils.js: the application configuration is
 * taken from the first of four sources that applies, in priority order:
 * the configuration stored in the browser, complete environment variables,
 * the generated `aws-exports` module, and finally an empty configuration
 * that makes the application show its configuration screen.
 */
module Config {
  import opened Wrappers
  import opened JsText

  /** Cognito settings; a field is `None` when its source leaves it `undefined`. */
  datatype CognitoConfig = CognitoConfig(
    region: Option<string>,
    userPoolId: Option<string>,
    userPoolClientId: Option<string>,
    identityPoolId: Option<string>)

  /** Bedrock agent settings; every path that builds one fills all four fields. */
  datatype BedrockConfig = BedrockConfig(
    region: string,
    agentId: string,
    agentAliasId: string,
    agentName: string)

  datatype AppConfig = AppConfig(cognito: CognitoConfig, bedrock: BedrockConfig)

  /** The `VITE_*` variables of `import.meta.env`; `None` when unset. */
  datatype Env = Env(
    cognitoRegion: Option<string>,
    cognitoUserPoolId: Option<string>,
    cognitoUserPoolClientId: Option<string>,
    cognitoIdentityPoolId: Option<string>,
    bedrockRegion: Option<string>,
    bedrockAgentId: Option<string>,
    bedrockAgentAliasId: Option<string>,
    bedrockAgentName: Option<string>)

  /** The `default` export of `aws-exports`, when that module exists and has one. */
  datatype AwsExports = AwsExports(
    awsCognitoRegion: Option<string>,
    awsUserPoolsId: Option<string>,
    awsUserPoolsWebClientId: Option<string>,
    awsCognitoIdentityPoolId: Option<string>)

  const DefaultAgentName: string := "Agent"

  /** The six variables that must all be non-empty for the environment to be used. */
  predicate EnvComplete(env: Env) {
    && Truthy(env.cognitoRegion)
    && Truthy(env.cognitoUserPoolId)
    && Truthy(env.cognitoUserPoolClientId)
    && Truthy(env.bedrockRegion)
    && Truthy(env.bedrockAgentId)
    && Truthy(env.bedrockAgentAliasId)
  }

  /** The Bedrock part built from the environment, with its `||` defaults. */
  function EnvBedrock(env: Env): (b: BedrockConfig)
    ensures b.agentName != ""
  {
    BedrockConfig(
      OrElse(env.bedrockRegion, ""),
      OrElse(env.bedrockAgentId, ""),
      OrElse(env.bedrockAgentAliasId, ""),
      OrElse(env.bedrockAgentName, DefaultAgentName))
  }

  /** `envConfig`: the Cognito part keeps the raw variables, `undefined` included. */
  function EnvConfig(env: Env): AppConfig {
    AppConfig(
      CognitoConfig(env.cognitoRegion, env.cognitoUserPoolId, env.cognitoUserPoolClientId, env.cognitoIdentityPoolId),
      EnvBedrock(env))
  }

  /** The aws-exports configuration: Cognito from the exports, Bedrock from the environment. */
  function ExportsConfig(exports: AwsExports, env: Env): AppConfig {
    AppConfig(
      CognitoConfig(exports.awsCognitoRegion, exports.awsUserPoolsId,
                    exports.awsUserPoolsWebClientId, exports.awsCognitoIdentityPoolId),
      EnvBedrock(env))
  }

  const EmptyConfig: AppConfig :=
    AppConfig(CognitoConfig(Some(""), Some(""), Some(""), Some("")),
              BedrockConfig("", "", "", DefaultAgentName))

  /**
   * `getConfig()`. `stored` is the parsed `appConfig` entry of local storage,
   * `None` when the entry is absent or empty; `exports` is `None` when the
   * module could not be imported or has no default export.
   */
  function GetConfig(stored: Option<AppConfig>, env: Env, exports: Option<AwsExports>): (r: AppConfig)
    ensures stored.Some? ==> r == stored.value
    ensures stored.None? ==> r.bedrock.agentName != ""
  {
    if stored.Some? then stored.value
    else if EnvComplete(env) then EnvConfig(env)
    else if exports.Some? then ExportsConfig(exports.value, env)
    else EmptyConfig
  }

  /** A stored configuration is returned unchanged, whatever the environment and the exports hold. */
  lemma StoredConfigWins(c: AppConfig, env: Env, exports: Option<AwsExports>)
    ensures GetConfig(Some(c), env, exports) == c
  {
  }

  /**
   * Without a stored configuration, the environment is used when all six
   * required variables are non-empty; otherwise the exports, and failing
   * those the empty configuration.
   */
  lemma EnvironmentChosenIffComplete(env: Env, exports: Option<AwsExports>)
    ensures EnvComplete(env) ==> GetConfig(None, env, exports) == EnvConfig(env)
    ensures !EnvComplete(env) ==>
      GetConfig(None, env, exports) == if exports.Some? then ExportsConfig(exports.value, env) else EmptyConfig
  {
  }

  /** When the environment wins, every required field of the result is non-empty and comes from the environment. */
  lemma EnvironmentConfigIsComplete(env: Env, exports: Option<AwsExports>)
    requires EnvComplete(env)
    ensures var r := GetConfig(None, env, exports);
      && r.cognito.region == env.cognitoRegion && Truthy(r.cognito.region)
      && r.cognito.userPoolId == env.cognitoUserPoolId && Truthy(r.cognito.userPoolId)
      && r.cognito.userPoolClientId == env.cognitoUserPoolClientId && Truthy(r.cognito.userPoolClientId)
      && Some(r.bedrock.region) == env.bedrockRegion && r.bedrock.region != ""
      && Some(r.bedrock.agentId) == env.bedrockAgentId && r.bedrock.agentId != ""
      && Some(r.bedrock.agentAliasId) == env.bedrockAgentAliasId && r.bedrock.agentAliasId != ""
  {
  }

  /**
   * The identity pool variable is never required: changing it never changes
   * which source is used, and it only shows up in the environment's result.
   */
  lemma IdentityPoolNotRequired(stored: Option<AppConfig>, env: Env, exports: Option<AwsExports>, pool: Option<string>)
    ensures EnvComplete(env.(cognitoIdentityPoolId := pool)) == EnvComplete(env)
    ensures var r := GetConfig(stored, env, exports);
      GetConfig(stored, env.(cognitoIdentityPoolId := pool), exports)
        == if stored.None? && EnvComplete(env) then r.(cognito := r.cognito.(identityPoolId := pool)) else r
  {
  }

  /** The agent name from the environment defaults to 'Agent' when unset or empty. */
  lemma AgentNameDefaults(env: Env, exports: Option<AwsExports>)
    requires !Truthy(env.bedrockAgentName)
    requires EnvComplete(env) || exports.Some?
    ensures GetConfig(None, env, exports).bedrock.agentName == DefaultAgentName
  {
  }

  /** The aws-exports fallback: Cognito from the exports, Bedrock from the environment defaulting to '' and 'Agent'. */
  lemma ExportsFallback(env: Env, e: AwsExports)
    requires !EnvComplete(env)
    ensures var r := GetConfig(None, env, Some(e));
      && r.cognito.region == e.awsCognitoRegion
      && r.cognito.userPoolId == e.awsUserPoolsId
      && r.cognito.userPoolClientId == e.awsUserPoolsWebClientId
      && r.cognito.identityPoolId == e.awsCognitoIdentityPoolId
      && r.bedrock.region == OrElse(env.bedrockRegion, "")
      && r.bedrock.agentId == OrElse(env.bedrockAgentId, "")
      && r.bedrock.agentAliasId == OrElse(env.bedrockAgentAliasId, "")
      && r.bedrock.agentName == OrElse(env.bedrockAgentName, DefaultAgentName)
  {
  }

  /** When no source applies, every string is '' except the agent name, which is 'Agent'. */
  lemma EmptyDefault(env: Env)
    requires !EnvComplete(env)
    ensures var r := GetConfig(None, env, None);
      && r.cognito.region == Some("") && r.cognito.userPoolId == Some("")
      && r.cognito.userPoolClientId == Some("") && r.cognito.identityPoolId == Some("")
      && r.bedrock.region == "" && r.bedrock.agentId == "" && r.bedrock.agentAliasId == ""
      && r.bedrock.agentName == "Agent"
  {
  }
}
