/** The session holder of lib/auth/auth_manager.js: the stored credentials, the
    authorization-code exchange (the HTTP exchange is a parameter) and the
    `isAuthenticated` gate. */
module Auth {
  import opened Wrappers
  import opened EnvFile

  /** JavaScript truthiness of an optional string: present and non-empty. */
  predicate Present(v: Option<string>) {
    v.Some? && v.value != ""
  }

  /** `s.length`: JavaScript counts UTF-16 code units, so a character outside
      the Basic Multilingual Plane counts twice. */
  function Utf16Length(s: string): (n: nat)
    ensures |s| <= n <= 2 * |s|
    ensures n == |s| <==> forall i :: 0 <= i < |s| ==> s[i] as int <= 0xFFFF
    ensures n == 2 * |s| <==> forall i :: 0 <= i < |s| ==> s[i] as int > 0xFFFF
  {
    if s == [] then 0
    else (if s[0] as int > 0xFFFF then 2 else 1) + Utf16Length(s[1..])
  }

  /** The one check `authenticate` makes on the code: present and six code units
      long. Its characters are not checked. */
  function ValidCode(authCode: Option<string>): (ok: bool)
    ensures ok ==> authCode.Some? && 3 <= |authCode.value| <= 6
  {
    Present(authCode) && Utf16Length(authCode.value) == 6
  }

  const CodeLengthError := "Authorization code must be 6 digits long"
  const RejectedError := "Invalid or expired authorization code"
  const AuthenticatePath := "/api/device-proxy/authenticate"

  /** The HTTP exchange: a transport error, or `response.data` with its
      `success` flag read for truthiness and the three fields it may carry. */
  datatype HttpResult =
    | NetworkError(message: string)
    | Reply(success: bool, token: Option<string>, deviceId: Option<string>, name: Option<string>)

  /** The POST `authenticate` makes: URL and `auth_code`. */
  datatype AuthRequest = AuthRequest(url: string, authCode: string)

  /** The value a successful `authenticate` resolves to (`success: true`). */
  datatype AuthResult = AuthResult(token: Option<string>, deviceId: Option<string>, deviceName: Option<string>)

  /** `getAuthData()` */
  datatype AuthData = AuthData(authToken: Option<string>, deviceProxyId: Option<string>,
                               deviceName: Option<string>, serverUrl: string)

  /** `serverHost || this.serverUrl` */
  function Host(serverHost: Option<string>, serverUrl: string): (h: string)
    ensures Present(serverHost) ==> h == serverHost.value
    ensures !Present(serverHost) ==> h == serverUrl
  {
    if Present(serverHost) then serverHost.value else serverUrl
  }

  /** `process.env.KEY || null` */
  function FromEnv(processEnv: map<string, string>, key: string): (v: Option<string>)
    ensures v.Some? <==> key in processEnv && processEnv[key] != ""
    ensures v.Some? ==> v.value == processEnv[key]
  {
    if key in processEnv && processEnv[key] != "" then Some(processEnv[key]) else None
  }

  /** The updates a successful authentication writes to `.env`. */
  function CredentialUpdates(token: Option<string>, deviceId: Option<string>, name: Option<string>, host: string): EnvVars {
    map["AUTH_TOKEN" := token, "DEVICE_ID" := deviceId, "DEVICE_NAME" := name, "SERVER_HOST" := Some(host)]
  }

  /** The `.env` written after a successful authentication holds the new
      credentials (an absent one as the empty string) and keeps the port and
      server URL it held before. */
  lemma CredentialsWritten(vars: EnvVars, token: Option<string>, deviceId: Option<string>, name: Option<string>, host: string)
    ensures var s := Values(Apply(vars, CredentialUpdates(token, deviceId, name, host)));
      && s.port == Values(vars).port && s.serverUrl == Values(vars).serverUrl
      && s.authToken == token.GetOr("") && s.deviceId == deviceId.GetOr("")
      && s.deviceName == name.GetOr("") && s.serverHost == host
  {
    var u := Apply(vars, CredentialUpdates(token, deviceId, name, host));
    assert u["AUTH_TOKEN"] == token && u["DEVICE_ID"] == deviceId && u["DEVICE_NAME"] == name;
    assert u["SERVER_HOST"] == Some(host);
  }

  /** A code is accepted on its length alone: six letters pass, and so do three
      characters outside the Basic Multilingual Plane. */
  lemma CodeCheckIsLengthOnly()
    ensures ValidCode(Some("abcdef"))
    ensures ValidCode(Some("\U{1F600}\U{1F600}\U{1F600}"))
    ensures !ValidCode(Some("12345")) && !ValidCode(Some("")) && !ValidCode(None)
  {
    var wide := "\U{1F600}\U{1F600}\U{1F600}";
    assert wide[1..][1..] == "\U{1F600}";
    assert Utf16Length(wide[1..][1..]) == 2;
    assert Utf16Length(wide) == 6;
    assert Utf16Length("abcdef") == 6;
    assert Utf16Length("12345") == 5;
  }

  class AuthManager {
    const env: EnvManager
    var authToken: Option<string>
    var deviceProxyId: Option<string>
    var deviceName: Option<string>
    var serverUrl: string

    /** Credentials come from the process environment; a missing or empty
        variable is `null`, and the server URL falls back to its default. */
    constructor (processEnv: map<string, string>, envFile: Option<string>)
      ensures fresh(env) && env.file == envFile
      ensures authToken == FromEnv(processEnv, "AUTH_TOKEN")
      ensures deviceProxyId == FromEnv(processEnv, "DEVICE_ID")
      ensures deviceName == FromEnv(processEnv, "DEVICE_NAME")
      ensures serverUrl == FromEnv(processEnv, "ELIXIR_SERVER_URL").GetOr(ServerUrlDefault)
    {
      env := new EnvManager(envFile);
      authToken := FromEnv(processEnv, "AUTH_TOKEN");
      deviceProxyId := FromEnv(processEnv, "DEVICE_ID");
      deviceName := FromEnv(processEnv, "DEVICE_NAME");
      serverUrl := FromEnv(processEnv, "ELIXIR_SERVER_URL").GetOr(ServerUrlDefault);
    }

    /** `isAuthenticated()` */
    function IsAuthenticated(): (b: bool)
      reads this
      ensures b <==> Present(authToken) && Present(deviceProxyId)
    {
      Present(authToken) && Present(deviceProxyId)
    }

    /** `getAuthData()`: the four fields as they are. */
    function GetAuthData(): (d: AuthData)
      reads this
      ensures d.authToken == authToken && d.deviceProxyId == deviceProxyId
      ensures d.deviceName == deviceName && d.serverUrl == serverUrl
    {
      AuthData(authToken, deviceProxyId, deviceName, serverUrl)
    }

    /** `authenticate(authCode, serverHost)`, with `response` standing for what the
        POST returns. `request` is the POST made, if any. */
    method Authenticate(authCode: Option<string>, serverHost: Option<string>, response: HttpResult)
      returns (r: Result<AuthResult, string>, request: Option<AuthRequest>)
      modifies this, env
      ensures !ValidCode(authCode) ==>
        r == Failure(CodeLengthError) && request == None && unchanged(this) && unchanged(env)
      ensures ValidCode(authCode) ==>
        request == Some(AuthRequest(Host(serverHost, old(serverUrl)) + AuthenticatePath, authCode.value))
      ensures ValidCode(authCode) && response.NetworkError? ==>
        r == Failure(response.message) && unchanged(this) && unchanged(env)
      ensures ValidCode(authCode) && response.Reply? && !response.success ==>
        r == Failure(RejectedError) && unchanged(this) && unchanged(env)
      ensures ValidCode(authCode) && response.Reply? && response.success ==>
        var host := Host(serverHost, old(serverUrl));
        && authToken == response.token && deviceProxyId == response.deviceId
        && deviceName == response.name && serverUrl == host
        && r == Success(AuthResult(authToken, deviceProxyId, deviceName))
        && env.file == Some(old(env.Updated(CredentialUpdates(response.token, response.deviceId, response.name, host))))
    {
      if !ValidCode(authCode) {
        return Failure(CodeLengthError), None;
      }
      var httpServerUrl := Host(serverHost, serverUrl);
      request := Some(AuthRequest(httpServerUrl + AuthenticatePath, authCode.value));
      match response
      case NetworkError(message) =>
        r := Failure(message);
      case Reply(success, token, deviceId, name) =>
        if success {
          authToken := token;
          deviceProxyId := deviceId;
          deviceName := name;
          serverUrl := httpServerUrl;
          env.UpdateEnvFile(CredentialUpdates(token, deviceId, name, httpServerUrl));
          r := Success(AuthResult(authToken, deviceProxyId, deviceName));
        } else {
          r := Failure(RejectedError);
        }
    }

    /** `disconnect()`: forget the credentials, keep the server URL, and clear
        the credentials from `.env`. */
    method Disconnect()
      modifies this, env
      ensures authToken == None && deviceProxyId == None && deviceName == None
      ensures serverUrl == old(serverUrl) && !IsAuthenticated()
      ensures env.file == Some(old(env.Updated(ClearUpdates)))
    {
      authToken := None;
      deviceProxyId := None;
      deviceName := None;
      env.ClearAuthFromEnv();
    }
  }
}
