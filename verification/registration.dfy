/**
 * `registerForPushNotifications` as a decision function. Every platform service the
 * code awaits is replaced by a value in `Environment` (what the service would
 * answer), and every call the code makes is recorded, in order, in a trace.
 */
module Registration {
  import opened Wrappers
  import opened Platform
  import opened Channels

  /** The platform calls registration can make. */
  datatype PlatformCall =
    | SetChannelCall(write: ChannelWrite)   // setNotificationChannelAsync
    | GetPermissionsCall                    // getPermissionsAsync
    | RequestPermissionsCall                // requestPermissionsAsync, the interactive prompt
    | GetTokenCall(projectId: string)       // getExpoPushTokenAsync({ projectId })

  /** What `getExpoPushTokenAsync` does: resolve with a token string, or throw. */
  datatype TokenResponse = TokenData(data: string) | TokenFailure

  /** The two places the build configuration may carry the project id. */
  datatype ProjectConfig = ProjectConfig(
    expoConfigEasProjectId: Option<string>,   // Constants.expoConfig.extra.eas.projectId
    easConfigProjectId: Option<string>)       // Constants.easConfig.projectId

  /** Everything registration reads from the host, fixed for one run. */
  datatype Environment = Environment(
    os: Os,
    isDevice: bool,
    existingStatus: PermissionStatus,
    requestedStatus: PermissionStatus,
    config: ProjectConfig,
    tokenResponse: TokenResponse)

  /** How the returned promise settles: with a token or `undefined`, or rejected with the permission error. */
  datatype RegisterOutcome = Resolved(token: Option<string>) | PermissionNotGranted

  datatype Run = Run(outcome: RegisterOutcome, trace: seq<PlatformCall>)

  /** Result of the permission step: the final status and the calls it made. */
  datatype PermissionStep = PermissionStep(finalStatus: PermissionStatus, calls: seq<PlatformCall>)

  /** Result of the token step: the token, if any, and the calls it made. */
  datatype TokenStep = TokenStep(token: Option<string>, calls: seq<PlatformCall>)

  /** Number of interactive permission prompts in a trace. */
  function Prompts(trace: seq<PlatformCall>): nat
    decreases |trace|
  {
    if |trace| == 0 then 0
    else (if trace[0] == RequestPermissionsCall then 1 else 0) + Prompts(trace[1..])
  }

  /** The trace contains a token request. */
  predicate RequestsToken(trace: seq<PlatformCall>) {
    exists i :: 0 <= i < |trace| && trace[i].GetTokenCall?
  }

  /** A concatenation requests a token exactly when one of its parts does. */
  lemma RequestsTokenConcat(a: seq<PlatformCall>, b: seq<PlatformCall>)
    ensures RequestsToken(a + b) <==> RequestsToken(a) || RequestsToken(b)
  {
    if RequestsToken(a) {
      var i :| 0 <= i < |a| && a[i].GetTokenCall?;
      assert (a + b)[i] == a[i];
    }
    if RequestsToken(b) {
      var i :| 0 <= i < |b| && b[i].GetTokenCall?;
      assert (a + b)[|a| + i] == b[i];
    }
  }

  /** The trace queries or changes permissions, or asks for a token. */
  predicate TouchesPermissionsOrToken(trace: seq<PlatformCall>) {
    exists i :: 0 <= i < |trace| && !trace[i].SetChannelCall?
  }

  /** Registration ends with notification permission, whether it was held already or just given. */
  predicate PermissionGranted(env: Environment) {
    env.existingStatus == Granted || env.requestedStatus == Granted
  }

  /** A JavaScript string value in a condition: absent and empty are falsy. */
  predicate Truthy(s: Option<string>) {
    s.Some? && s.value != ""
  }

  /** `expoConfig…projectId ?? easConfig.projectId`: the fallback is used only when the first is absent. */
  function ProjectId(config: ProjectConfig): (id: Option<string>)
    ensures id.Some? <==> config.expoConfigEasProjectId.Some? || config.easConfigProjectId.Some?
    ensures config.expoConfigEasProjectId.Some? ==> id == config.expoConfigEasProjectId
    ensures config.expoConfigEasProjectId.None? ==> id == config.easConfigProjectId
  {
    match config.expoConfigEasProjectId
    case Some(id) => Some(id)
    case None => config.easConfigProjectId
  }

  /** The calls that provision the channels on `os`, one per channel write. */
  function ProvisioningCalls(os: Os): seq<PlatformCall> {
    var writes := ChannelWrites(os);
    seq(|writes|, i requires 0 <= i < |writes| => SetChannelCall(writes[i]))
  }

  /** Lines 77-83: query the status; prompt only when it is not already granted. */
  function AcquirePermission(existing: PermissionStatus, requested: PermissionStatus): (step: PermissionStep)
    ensures |step.calls| >= 1 && step.calls[0] == GetPermissionsCall
    ensures step.finalStatus == Granted <==> existing == Granted || requested == Granted
    ensures Prompts(step.calls) == (if existing == Granted then 0 else 1)
    ensures forall i :: 0 <= i < |step.calls| ==> !step.calls[i].SetChannelCall? && !step.calls[i].GetTokenCall?
  {
    if existing != Granted then
      var calls := [GetPermissionsCall, RequestPermissionsCall];
      assert calls[1..][1..] == [];
      PermissionStep(requested, calls)
    else
      var calls := [GetPermissionsCall];
      assert calls[1..] == [];
      PermissionStep(existing, calls)
  }

  /**
   * Lines 89-97: inside the try block. A falsy project id throws before the token call;
   * that throw, like any failure of the token call, is caught and leaves the token undefined.
   */
  function FetchToken(config: ProjectConfig, response: TokenResponse): (step: TokenStep)
    ensures RequestsToken(step.calls) <==> Truthy(ProjectId(config))
    ensures step.calls == [] || (Truthy(ProjectId(config)) && step.calls == [GetTokenCall(ProjectId(config).value)])
    ensures step.token.Some? <==> Truthy(ProjectId(config)) && response.TokenData?
    ensures step.token.Some? ==> step.token.value == response.data
  {
    var projectId := ProjectId(config);
    if !Truthy(projectId) then
      TokenStep(None, [])
    else
      var calls := [GetTokenCall(projectId.value)];
      assert calls[0].GetTokenCall?;
      match response
      case TokenData(data) => TokenStep(Some(data), calls)
      case TokenFailure => TokenStep(None, calls)
  }

  /** `registerForPushNotifications`, lines 46-103. */
  function Register(env: Environment): (run: Run)
    ensures |run.trace| >= |ProvisioningCalls(env.os)|
    ensures run.trace[..|ProvisioningCalls(env.os)|] == ProvisioningCalls(env.os)
    ensures !env.isDevice ==> run.outcome == Resolved(None) && run.trace == ProvisioningCalls(env.os)
    ensures env.isDevice ==>
      |run.trace| > |ProvisioningCalls(env.os)| && run.trace[|ProvisioningCalls(env.os)|] == GetPermissionsCall
    ensures run.outcome == PermissionNotGranted <==> env.isDevice && !PermissionGranted(env)
    ensures RequestsToken(run.trace) <==>
      env.isDevice && PermissionGranted(env) && Truthy(ProjectId(env.config))
    ensures forall i :: 0 <= i < |run.trace| && run.trace[i].GetTokenCall? ==>
      Truthy(ProjectId(env.config)) && run.trace[i].projectId == ProjectId(env.config).value
    ensures run.outcome.Resolved? && run.outcome.token.Some? <==>
      env.isDevice && PermissionGranted(env) && Truthy(ProjectId(env.config)) && env.tokenResponse.TokenData?
    ensures run.outcome.Resolved? && run.outcome.token.Some? ==> run.outcome.token.value == env.tokenResponse.data
  {
    var provisioning := ProvisioningCalls(env.os);
    if !env.isDevice then
      Run(Resolved(None), provisioning)
    else
      var permission := AcquirePermission(env.existingStatus, env.requestedStatus);
      if permission.finalStatus != Granted then
        RequestsTokenConcat(provisioning, permission.calls);
        Run(PermissionNotGranted, provisioning + permission.calls)
      else
        var token := FetchToken(env.config, env.tokenResponse);
        var trace := provisioning + permission.calls + token.calls;
        assert trace[..|provisioning|] == provisioning;
        RequestsTokenConcat(provisioning, permission.calls);
        RequestsTokenConcat(provisioning + permission.calls, token.calls);
        Run(Resolved(token.token), trace)
  }

  /**
   * The mount effect, lines 22-26: the hook's token state takes the resolved value
   * only when it is truthy; a rejection or a falsy value leaves the state as it was.
   */
  function AdoptToken(current: Option<string>, outcome: RegisterOutcome): (next: Option<string>)
    ensures outcome.PermissionNotGranted? ==> next == current
    ensures next != current ==> outcome.Resolved? && Truthy(outcome.token) && next == outcome.token
    ensures outcome.Resolved? && Truthy(outcome.token) ==> next == outcome.token
  {
    match outcome
    case Resolved(token) => if Truthy(token) then token else current
    case PermissionNotGranted => current
  }

  /** The token state after mounting: `null` at first, then whatever the effect adopts. */
  function MountedToken(env: Environment): Option<string> {
    AdoptToken(None, Register(env).outcome)
  }

  /**
   * End to end: the hook holds a token exactly when the device is physical, permission
   * ends granted, the project id is truthy and the token service returns a non-empty string.
   */
  lemma MountedTokenIff(env: Environment)
    ensures MountedToken(env).Some? <==>
      env.isDevice && PermissionGranted(env) && Truthy(ProjectId(env.config)) &&
      env.tokenResponse.TokenData? && env.tokenResponse.data != ""
    ensures MountedToken(env).Some? ==> MountedToken(env).value == env.tokenResponse.data
  {
  }

  /**
   * Nullish coalescing falls back only on an absent id: an empty primary id hides a
   * present fallback, so no token is requested.
   */
  lemma EmptyPrimaryIdShadowsFallback(fallback: string, response: TokenResponse)
    ensures !RequestsToken(FetchToken(ProjectConfig(Some(""), Some(fallback)), response).calls)
    ensures FetchToken(ProjectConfig(Some(""), Some(fallback)), response).token == None
  {
  }
}
