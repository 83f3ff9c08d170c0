/**
 * The provider's `Configure`: resolve the API root and token from the
 * provider block, falling back to the environment, report what is missing,
 * and hand one client to resources and data sources alike.
 */
module Provider {
  import opened Wrappers
  import opened Os
  import opened Tf
  import opened Client

  const RootVariable: string := "PINATA_ROOT"
  const TokenVariable: string := "PINATA_TOKEN"

  /** `PinataProviderModel`. */
  datatype ProviderConfig = ProviderConfig(root: TfString, token: TfString)

  /** The error diagnostics `Configure` can report. */
  datatype ConfigProblem = UnknownRoot | UnknownToken | MissingToken

  const RootAttribute: string := "root"
  const TokenAttribute: string := "token"
  const UnknownRootSummary: string := "Unknown Pinata API root"
  const UnknownTokenSummary: string := "Unknown Pinata JWT token"
  const MissingTokenSummary: string := "Missing Pinata JWT token"
  const UnknownRootDetail: string :=
    "The provider cannot create the Pinata client as there is an unknown configuration value for the Pinata API root. "
    + "Either target apply the source of the value first, set the value statically in the configuration, or use the PINATA_ROOT environment variable."
  const UnknownTokenDetail: string :=
    "The provider cannot create the Pinata client as there is an unknown configuration value for the Pinata JWT token. "
    + "Either target apply the source of the value first, set the value statically in the configuration, or use the PINATA_TOKEN environment variable."
  const MissingTokenDetail: string :=
    "The provider cannot create the Pinata client as there is a missing or empty value for the Pinata JWT token. "
    + "Set the token value in the configuration or use the PINATA_TOKEN environment variable. "
    + "If either is already set, ensure the value is not empty."

  /** The diagnostic each problem is reported as, attached to the setting it is about. */
  function ToDiagnostic(p: ConfigProblem): (d: Diagnostic)
    ensures d.attribute == Some(if p.UnknownRoot? then RootAttribute else TokenAttribute)
    ensures p.UnknownRoot? ==> d.summary == UnknownRootSummary
    ensures p.UnknownToken? ==> d.summary == UnknownTokenSummary
    ensures p.MissingToken? ==> d.summary == MissingTokenSummary
  {
    match p
    case UnknownRoot => Diagnostic(Some(RootAttribute), UnknownRootSummary, UnknownRootDetail)
    case UnknownToken => Diagnostic(Some(TokenAttribute), UnknownTokenSummary, UnknownTokenDetail)
    case MissingToken => Diagnostic(Some(TokenAttribute), MissingTokenSummary, MissingTokenDetail)
  }

  /** The three problems are told apart by their summaries. */
  lemma ConfigDiagnosticsDistinct(p: ConfigProblem, q: ConfigProblem)
    requires p != q
    ensures ToDiagnostic(p).summary != ToDiagnostic(q).summary
  {
    assert UnknownRootSummary[15] != UnknownTokenSummary[15];
    assert UnknownRootSummary[0] != MissingTokenSummary[0];
    assert UnknownTokenSummary[0] != MissingTokenSummary[0];
  }

  /** What `Configure` leaves in its response. */
  datatype ConfigureResponse = ConfigureResponse(
    diagnostics: seq<ConfigProblem>,
    resourceData: Option<Client>,
    dataSourceData: Option<Client>)

  /** A setting's effective value: the configured one unless it is null, then the environment's. */
  function Resolve(configured: TfString, fallback: string): (v: string)
    requires !configured.Unknown?
    ensures configured.Null? ==> v == fallback
    ensures configured.Known? ==> v == configured.value
  {
    if configured.Null? then fallback else configured.value
  }

  /** The problems reported for unknown settings, root first, both at once when both are unknown. */
  function UnknownProblems(config: ProviderConfig): (ps: seq<ConfigProblem>)
    ensures UnknownRoot in ps <==> config.root.Unknown?
    ensures UnknownToken in ps <==> config.token.Unknown?
    ensures ps == [] <==> !config.root.Unknown? && !config.token.Unknown?
    ensures |ps| == (if config.root.Unknown? then 1 else 0) + (if config.token.Unknown? then 1 else 0)
    ensures config.root.Unknown? ==> ps[0] == UnknownRoot
  {
    (if config.root.Unknown? then [UnknownRoot] else []) + (if config.token.Unknown? then [UnknownToken] else [])
  }

  method Configure(config: ProviderConfig, env: map<string, string>) returns (resp: ConfigureResponse)
    // an unknown root or token: both reported, no client
    ensures config.root.Unknown? || config.token.Unknown? ==>
      resp == ConfigureResponse(UnknownProblems(config), None, None)
    // an empty effective token, even one configured as "", is an error, and no client is built
    ensures !config.root.Unknown? && !config.token.Unknown? && Resolve(config.token, Getenv(env, TokenVariable)) == "" ==>
      resp == ConfigureResponse([MissingToken], None, None)
    // otherwise one client, built from the effective settings, goes to resources and data sources
    ensures !config.root.Unknown? && !config.token.Unknown? && Resolve(config.token, Getenv(env, TokenVariable)) != "" ==>
      var root := Resolve(config.root, Getenv(env, RootVariable));
      resp.diagnostics == [] && resp.resourceData.Some? && resp.dataSourceData == resp.resourceData
      && resp.resourceData.value.hostURL == (if root == "" then DefaultHostURL else root)
      && resp.resourceData.value.token == Resolve(config.token, Getenv(env, TokenVariable))
      && resp.resourceData.value.timeoutSeconds == TimeoutSeconds
  {
    var diagnostics: seq<ConfigProblem> := [];
    if config.root.Unknown? {
      diagnostics := diagnostics + [UnknownRoot];
    }
    if config.token.Unknown? {
      diagnostics := diagnostics + [UnknownToken];
    }
    if |diagnostics| > 0 {
      return ConfigureResponse(diagnostics, None, None);
    }

    var root := Getenv(env, RootVariable);
    var token := Getenv(env, TokenVariable);
    if !config.root.Null? {
      root := ValueString(config.root);
    }
    if !config.token.Null? {
      token := ValueString(config.token);
    }

    if token == "" {
      diagnostics := diagnostics + [MissingToken];
    }
    if |diagnostics| > 0 {
      return ConfigureResponse(diagnostics, None, None);
    }

    // NewClient's error is always nil, so the source's error branch is never taken
    var client, _ := NewClient(Some(root), Some(token));
    resp := ConfigureResponse([], Some(client), Some(client));
  }
}
