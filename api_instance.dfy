/** Building the payment API client from credentials and deciding whether credentials are valid. */
module ApiInstance {
  import opened Wrappers
  import opened StoreConfig

  const ClientIdPath: string := "payment/mercadopago_standard/client_id"
  const ClientSecretPath: string := "payment/mercadopago_standard/client_secret"
  const SandboxModePath: string := "payment/mercadopago_standard/sandbox_mode"

  const PlatformOpenPlatform: string := "openplatform"
  const PlatformStd: string := "std"
  const IntegrationType: string := "magento"

  const InvalidArgumentsMessage: string := "Invalid arguments. Use CLIENT_ID and CLIENT SECRET, or ACCESS_TOKEN"

  /** The client's integration settings: the credentials it was built with, the platform
      mode, the sandbox flag, the integration type and the module version tag (`so`). */
  datatype ApiClient = ApiClient(
    credentials: seq<string>,
    platform: string,
    sandbox: bool,
    clientType: string,
    so: string)

  /** The exception thrown for a wrong number of credential arguments. */
  datatype ApiError = InvalidArguments(message: string)

  /** A freshly constructed client: the credentials are set and nothing else is. */
  function NewClient(credentials: seq<string>): ApiClient
  {
    ApiClient(credentials, "", false, "", "")
  }

  /** `getApiInstance`: one argument is an access token (open-platform mode), two are a
      client id and secret (standard mode); any other count is an error. */
  method GetApiInstance(args: seq<string>, config: Config, version: string)
    returns (r: Result<ApiClient, ApiError>)
    ensures r.Failure? <==> !(1 <= |args| <= 2)
    ensures r.Failure? ==> r.error == InvalidArguments(InvalidArgumentsMessage)
    ensures r.Success? ==> r.value.credentials == args
    ensures r.Success? ==> r.value.platform == (if |args| == 1 then PlatformOpenPlatform else PlatformStd)
    ensures r.Success? ==> (r.value.sandbox <==> IsSetFlag(config, SandboxModePath))
    ensures r.Success? ==> r.value.clientType == IntegrationType && r.value.so == version
  {
    var params := |args|;
    if params > 2 || params < 1 {
      return Failure(InvalidArguments(InvalidArgumentsMessage));
    }
    var api: ApiClient;
    if params == 1 {
      api := NewClient([args[0]]);
      api := api.(platform := PlatformOpenPlatform);
    } else {
      api := NewClient([args[0], args[1]]);
      api := api.(platform := PlatformStd);
    }
    if IsSetFlag(config, SandboxModePath) {
      api := api.(sandbox := true);
    }
    api := api.(clientType := IntegrationType);
    api := api.(so := version);
    return Success(api);
  }

  /** HTTP statuses of the probe request that mean the access token is rejected. */
  predicate IsRejectedStatus(status: int)
  {
    status == 401 || status == 400
  }

  /** `isValidAccessToken`: builds an open-platform client for the token; the status of the
      probe request (`GET /v1/payment_methods`) is given. Only 400 and 401 mean invalid. */
  method IsValidAccessToken(accessToken: string, probeStatus: int, config: Config, version: string)
    returns (valid: bool)
    ensures !valid <==> (probeStatus == 400 || probeStatus == 401)
  {
    var mp := GetApiInstance([accessToken], config, version);
    assert mp.Success? && mp.value.platform == PlatformOpenPlatform;
    if IsRejectedStatus(probeStatus) {
      return false;
    }
    return true;
  }

  /** `isValidClientCredentials`: builds a standard client for the pair; whether the access
      token exchange succeeded is given. Any failure of the exchange means invalid. */
  method IsValidClientCredentials(clientId: string, clientSecret: string, exchangeSucceeded: bool, config: Config, version: string)
    returns (valid: bool)
    ensures valid <==> exchangeSucceeded
  {
    var mp := GetApiInstance([clientId, clientSecret], config, version);
    assert mp.Success? && mp.value.platform == PlatformStd;
    if !exchangeSucceeded {
      return false;
    }
    return true;
  }

  /** The client `getAccessToken` asks for a token: always the two-argument, standard form,
      with the configured client id and secret (an unset one is passed as null, shown here as ""). */
  method AccessTokenClient(config: Config, version: string) returns (r: Result<ApiClient, ApiError>)
    ensures r.Success?
    ensures r.value.platform == PlatformStd
    ensures r.value.credentials == [GetValue(config, ClientIdPath).GetOr(""), GetValue(config, ClientSecretPath).GetOr("")]
  {
    var clientId := GetValue(config, ClientIdPath);
    var clientSecret := GetValue(config, ClientSecretPath);
    r := GetApiInstance([clientId.GetOr(""), clientSecret.GetOr("")], config, version);
  }
}
