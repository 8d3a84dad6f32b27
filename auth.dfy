/**
 * Credential selection and session construction of `get_authenticated_services`
 * (src/mcp_google_workspace/auth/google_auth.py).
 *
 * Everything the procedure asks of the outside world (environment variables, whether files
 * exist, whether a key file loads, whether a refresh or the browser flow succeeds, whether
 * `build` succeeds) is an abstract outcome in `Env`; the token file is an object whose
 * contents the procedure may overwrite.
 */
module GoogleAuth {
  import opened Wrappers
  import opened PyStr

  /** The one scope list that every credential path requests (`SCOPES`). */
  const Scopes: seq<string> := [
    "https://www.googleapis.com/auth/spreadsheets",
    "https://www.googleapis.com/auth/drive",
    "https://www.googleapis.com/auth/documents"
  ]

  /** The flags of an OAuth user credential that the decision chain reads. */
  datatype UserToken = UserToken(hasAccessToken: bool, expired: bool, hasRefreshToken: bool) {
    /** google-auth's `valid`: an access token is present and not expired. */
    predicate Valid() {
      hasAccessToken && !expired
    }
  }

  /** What `Credentials.from_authorized_user_info(json.load(f), SCOPES)` makes of the token file. */
  datatype TokenFileContents = Readable(token: UserToken) | Unreadable

  /**
   * The token file after `token.write(creds.to_json())`, as the next run reads it. `to_json`
   * leaves out a missing refresh token, and `from_authorized_user_info` requires that key, so
   * a credential without one is written but does not read back.
   */
  function Stored(t: UserToken): (c: TokenFileContents)
    ensures c.Readable? <==> t.hasRefreshToken
    ensures c.Readable? ==> c.token == t
  {
    if t.hasRefreshToken then Readable(t) else Unreadable
  }

  datatype ServiceAccountOrigin = FromConfig | FromFile(path: string)

  datatype Credential =
    | ServiceAccount(origin: ServiceAccountOrigin, scopes: seq<string>)
    | User(token: UserToken, scopes: seq<string>)
  {
    /** `creds.valid`; a service-account credential holds no access token before its first use. */
    predicate Valid() {
      User? && token.Valid()
    }
  }

  /** Where the credential in use came from. */
  datatype Source = EmbeddedConfig | ServiceAccountFile | StoredToken | RefreshedToken | InteractiveFlow

  /** `InstalledAppFlow.run_local_server`: fails, or grants a fresh token (with or without a refresh token). */
  datatype FlowOutcome = FlowFails | FlowGrants(withRefreshToken: bool)

  /** The environment as the procedure observes it. */
  datatype Env = Env(
    credentialsConfig: Option<string>,  // CREDENTIALS_CONFIG
    configDecodes: bool,                // base64 decoding, JSON parsing and from_service_account_info succeed
    serviceAccountPath: string,         // SERVICE_ACCOUNT_PATH
    serviceAccountFileExists: bool,     // os.path.exists(SERVICE_ACCOUNT_PATH)
    serviceAccountFileLoads: bool,      // from_service_account_file succeeds
    refreshSucceeds: bool,              // creds.refresh(Request()) succeeds
    flow: FlowOutcome,
    tokenWriteSucceeds: bool,           // open(TOKEN_PATH, 'w') and the write succeed
    servicesBuild: bool,                // the three build(...) calls succeed
    driveFolderId: string               // DRIVE_FOLDER_ID, '' when unset
  )

  /** The exceptions that escape `get_authenticated_services`; none of them is caught there. */
  datatype AuthError =
    | ConfigMalformed
    | TokenFileUnreadable
    | RefreshFailed
    | FlowFailed
    | TokenWriteFailed
    | ServiceBuildFailed

  /** A client built by `build(api, version, credentials=creds)`. */
  datatype Service = Service(api: string, version: string, credential: Credential)

  /** `GoogleWorkspaceContext`. */
  datatype WorkspaceContext = WorkspaceContext(sheets: Service, docs: Service, drive: Service, folderId: Option<string>)

  /** `DRIVE_FOLDER_ID if DRIVE_FOLDER_ID else None`. */
  function NormalizeFolderId(driveFolderId: string): (r: Option<string>)
    ensures r.None? <==> driveFolderId == ""
    ensures r.Some? ==> r.value == driveFolderId
    ensures Truthy(r) == r.Some?
  {
    if driveFolderId != "" then Some(driveFolderId) else None
  }

  /** Lines 92-101: three services over one credential, and the normalised folder id. */
  function BuildContext(creds: Credential, driveFolderId: string): (ctx: WorkspaceContext)
    ensures ctx.sheets.credential == ctx.docs.credential == ctx.drive.credential == creds
    ensures ctx.folderId == NormalizeFolderId(driveFolderId)
  {
    WorkspaceContext(
      Service("sheets", "v4", creds),
      Service("docs", "v1", creds),
      Service("drive", "v3", creds),
      NormalizeFolderId(driveFolderId))
  }

  /** `if CREDENTIALS_CONFIG:` */
  predicate ConfigPresent(env: Env) {
    Truthy(env.credentialsConfig)
  }

  /** `if SERVICE_ACCOUNT_PATH and os.path.exists(SERVICE_ACCOUNT_PATH):` */
  predicate ServiceAccountFileTried(env: Env) {
    env.serviceAccountPath != "" && env.serviceAccountFileExists
  }

  /** `if not creds:` after both service-account steps: no service-account credential survived. */
  predicate OAuthRuns(env: Env) {
    !(ConfigPresent(env) && !env.configDecodes)
    && !(ServiceAccountFileTried(env) && env.serviceAccountFileLoads)
    && !(ConfigPresent(env) && !ServiceAccountFileTried(env))
  }

  /** The token a successful `creds.refresh` leaves: a fresh access token, the refresh token kept. */
  function Refreshed(t: UserToken): UserToken {
    UserToken(true, false, t.hasRefreshToken)
  }

  /**
   * What one run produces: the context or the exception, the source of the credential the
   * services were (or would have been) built from, and the token written to the token file.
   */
  datatype Resolution = Resolution(outcome: Result<WorkspaceContext, AuthError>, source: Option<Source>, written: Option<UserToken>)

  function Fail(e: AuthError): Resolution {
    Resolution(Err(e), None, None)
  }

  function Finish(env: Env, creds: Credential, source: Source, written: Option<UserToken>): Resolution {
    if env.servicesBuild then Resolution(Ok(BuildContext(creds, env.driveFolderId)), Some(source), written)
    else Resolution(Err(ServiceBuildFailed), Some(source), written)
  }

  /** Lines 87-89: the write precedes the service build, so a build failure keeps the new file. */
  function Persist(env: Env, t: UserToken, source: Source): Resolution {
    if env.tokenWriteSucceeds then Finish(env, User(t, Scopes), source, Some(t))
    else Fail(TokenWriteFailed)
  }

  /**
   * The decision procedure written as one ordered chain, in the order in which the code gives
   * each source effect: a malformed embedded config aborts; a service-account file that exists
   * and loads wins even over a good embedded config (it is assigned later); the embedded config
   * survives only when no service-account file is tried; otherwise the OAuth branch decides.
   */
  function Resolve(env: Env, tokenFile: Option<TokenFileContents>): (res: Resolution)
    ensures res.outcome.Ok? ==> res.source.Some?
    ensures res.outcome.Ok? ==> var ctx := res.outcome.value;
      ctx.sheets.credential == ctx.docs.credential == ctx.drive.credential
      && ctx.sheets.credential.scopes == Scopes
      && ctx.folderId == NormalizeFolderId(env.driveFolderId)
    ensures res.written.Some? ==> res.written.value.Valid()
    ensures res.written.Some? <==> res.source == Some(RefreshedToken) || res.source == Some(InteractiveFlow)
  {
    if ConfigPresent(env) && !env.configDecodes then Fail(ConfigMalformed)
    else if ServiceAccountFileTried(env) && env.serviceAccountFileLoads then
      Finish(env, ServiceAccount(FromFile(env.serviceAccountPath), Scopes), ServiceAccountFile, None)
    else if ConfigPresent(env) && !ServiceAccountFileTried(env) then
      Finish(env, ServiceAccount(FromConfig, Scopes), EmbeddedConfig, None)
    else
      match tokenFile
      case Some(Unreadable) => Fail(TokenFileUnreadable)
      case Some(Readable(t)) =>
        if t.Valid() then Finish(env, User(t, Scopes), StoredToken, None)
        else if t.expired && t.hasRefreshToken then
          if env.refreshSucceeds then Persist(env, Refreshed(t), RefreshedToken) else Fail(RefreshFailed)
        else InteractiveStep(env)
      case None => InteractiveStep(env)
  }

  /** Lines 83-85 and 87-89: the browser flow, then the token write. */
  function InteractiveStep(env: Env): Resolution {
    match env.flow
    case FlowFails => Fail(FlowFailed)
    case FlowGrants(withRefresh) => Persist(env, UserToken(true, false, withRefresh), InteractiveFlow)
  }

  /** The token file at `TOKEN_PATH`; `None` when no file exists there. */
  class TokenFile {
    var contents: Option<TokenFileContents>

    constructor (contents: Option<TokenFileContents>)
      ensures this.contents == contents
    {
      this.contents := contents;
    }
  }

  /**
   * `get_authenticated_services`, step by step: the local `creds` is reassigned across the
   * conditionals, reset to `None` when the service-account file fails to load, and the token
   * file is overwritten whenever the refresh-or-flow branch runs.
   */
  method GetAuthenticatedServices(env: Env, tokenFile: TokenFile)
    returns (r: Result<WorkspaceContext, AuthError>, ghost source: Option<Source>)
    modifies tokenFile
    ensures var res := Resolve(env, old(tokenFile.contents));
      r == res.outcome && source == res.source
      && tokenFile.contents == if res.written.Some? then Some(Stored(res.written.value)) else old(tokenFile.contents)
  {
    var creds: Option<Credential> := None;
    source := None;
    ghost var stored := tokenFile.contents;

    if Truthy(env.credentialsConfig) {
      if !env.configDecodes {
        return Err(ConfigMalformed), None;
      }
      creds := Some(ServiceAccount(FromConfig, Scopes));
      source := Some(EmbeddedConfig);
    }

    if env.serviceAccountPath != "" && env.serviceAccountFileExists {
      if env.serviceAccountFileLoads {
        creds := Some(ServiceAccount(FromFile(env.serviceAccountPath), Scopes));
        source := Some(ServiceAccountFile);
      } else {
        creds := None;
        source := None;
      }
    }
    assert creds.None? <==> OAuthRuns(env);
    assert creds.Some? ==> source.Some? && Resolve(env, stored) == Finish(env, creds.value, source.value, None);

    if creds.None? {
      if tokenFile.contents.Some? {
        match tokenFile.contents.value
        case Unreadable =>
          return Err(TokenFileUnreadable), None;
        case Readable(t) =>
          creds := Some(User(t, Scopes));
          source := Some(StoredToken);
      }

      if creds.None? || !creds.value.Valid() {
        if creds.Some? && creds.value.token.expired && creds.value.token.hasRefreshToken {
          if !env.refreshSucceeds {
            return Err(RefreshFailed), None;
          }
          creds := Some(User(Refreshed(creds.value.token), Scopes));
          source := Some(RefreshedToken);
        } else {
          match env.flow
          case FlowFails =>
            return Err(FlowFailed), None;
          case FlowGrants(withRefresh) =>
            creds := Some(User(UserToken(true, false, withRefresh), Scopes));
            source := Some(InteractiveFlow);
        }

        if !env.tokenWriteSucceeds {
          return Err(TokenWriteFailed), None;
        }
        tokenFile.contents := Some(Stored(creds.value.token));
      }
    }

    if !env.servicesBuild {
      return Err(ServiceBuildFailed), source;
    }
    r := Ok(BuildContext(creds.value, env.driveFolderId));
  }

  // ---- Properties of the decision chain ----

  /** A service-account file that exists and loads overrides a good embedded config. */
  lemma ServiceAccountFileOverridesConfig(env: Env, tokenFile: Option<TokenFileContents>)
    requires ConfigPresent(env) && env.configDecodes
    requires ServiceAccountFileTried(env) && env.serviceAccountFileLoads
    ensures Resolve(env, tokenFile).source == Some(ServiceAccountFile)
    ensures Resolve(env, tokenFile).written == None
  {
  }

  /** The embedded config is used exactly when it is present, decodes, and no service-account file is tried. */
  lemma EmbeddedConfigUsedIff(env: Env, tokenFile: Option<TokenFileContents>)
    ensures Resolve(env, tokenFile).source == Some(EmbeddedConfig)
      <==> ConfigPresent(env) && env.configDecodes && !ServiceAccountFileTried(env)
  {
  }

  /**
   * A service-account file that exists but fails to load discards the embedded-config
   * credential: the run behaves exactly as if `CREDENTIALS_CONFIG` were unset.
   */
  lemma FailedServiceAccountDiscardsConfig(env: Env, tokenFile: Option<TokenFileContents>)
    requires ConfigPresent(env) && env.configDecodes
    requires ServiceAccountFileTried(env) && !env.serviceAccountFileLoads
    ensures OAuthRuns(env)
    ensures Resolve(env, tokenFile) == Resolve(env.(credentialsConfig := None), tokenFile)
  {
  }

  /** A malformed embedded config escapes as an error whatever else is configured, and nothing is written. */
  lemma MalformedConfigPropagates(env: Env, tokenFile: Option<TokenFileContents>)
    requires ConfigPresent(env) && !env.configDecodes
    ensures Resolve(env, tokenFile) == Resolution(Err(ConfigMalformed), None, None)
  {
  }

  /** The OAuth sources are used only when the OAuth branch runs, and it reads the token file only then. */
  lemma UserSourcesOnlyInOAuthBranch(env: Env, tokenFile: Option<TokenFileContents>, other: Option<TokenFileContents>)
    ensures !OAuthRuns(env) ==> Resolve(env, tokenFile) == Resolve(env, other)
    ensures Resolve(env, tokenFile).source in {Some(StoredToken), Some(RefreshedToken), Some(InteractiveFlow)} ==> OAuthRuns(env)
  {
  }

  /**
   * Inside the OAuth branch with a credential that is missing or not valid, the stored token is
   * refreshed exactly when one was loaded, is expired and carries a refresh token; otherwise the
   * interactive flow runs.
   */
  lemma RefreshIff(env: Env, tokenFile: Option<TokenFileContents>)
    requires OAuthRuns(env) && tokenFile != Some(Unreadable)
    requires !(tokenFile.Some? && tokenFile.value.token.Valid())
    requires env.refreshSucceeds && env.flow.FlowGrants? && env.tokenWriteSucceeds
    ensures Resolve(env, tokenFile).source == Some(RefreshedToken)
      <==> tokenFile.Some? && tokenFile.value.token.expired && tokenFile.value.token.hasRefreshToken
    ensures Resolve(env, tokenFile).source == Some(InteractiveFlow)
      <==> !(tokenFile.Some? && tokenFile.value.token.expired && tokenFile.value.token.hasRefreshToken)
  {
  }

  /** The token file is written iff the refresh-or-flow branch ran and the write succeeded. */
  lemma TokenWrittenIff(env: Env, tokenFile: Option<TokenFileContents>)
    ensures Resolve(env, tokenFile).written.Some? <==>
      OAuthRuns(env) && tokenFile != Some(Unreadable)
      && !(tokenFile.Some? && tokenFile.value.token.Valid())
      && env.tokenWriteSucceeds
      && (if tokenFile.Some? && tokenFile.value.token.expired && tokenFile.value.token.hasRefreshToken
          then env.refreshSucceeds else env.flow.FlowGrants?)
  {
  }

  /** A valid stored token is used as it is and never rewritten. */
  lemma ValidTokenNeverRewritten(env: Env, t: UserToken)
    requires OAuthRuns(env) && t.Valid()
    ensures Resolve(env, Some(Readable(t))).source == Some(StoredToken)
    ensures Resolve(env, Some(Readable(t))).written == None
  {
  }

  /** Neither service-account path writes the token file. */
  lemma NoWriteOnServiceAccountPaths(env: Env, tokenFile: Option<TokenFileContents>)
    requires Resolve(env, tokenFile).source in {Some(EmbeddedConfig), Some(ServiceAccountFile)}
    ensures Resolve(env, tokenFile).written == None
  {
  }

  /**
   * Two runs in the same environment: once a run has written the token file, the next run
   * loads that token, uses it, and writes nothing, provided the token carries a refresh token.
   * A token without one does not read back, and the next run stops at the token file.
   */
  lemma {:induction false} SecondRunReusesWrittenToken(env: Env, tokenFile: Option<TokenFileContents>)
    requires Resolve(env, tokenFile).written.Some?
    ensures var t := Resolve(env, tokenFile).written.value;
      var next := Resolve(env, Some(Stored(t)));
      (t.hasRefreshToken ==> next.source == Some(StoredToken) && next.written == None)
      && (!t.hasRefreshToken ==> next == Fail(TokenFileUnreadable))
  {
    var t := Resolve(env, tokenFile).written.value;
    TokenWrittenIff(env, tokenFile);
    if t.hasRefreshToken {
      ValidTokenNeverRewritten(env, t);
    }
  }
}
