/** The order status the store has configured for each payment status the provider reports. */
module StatusOrder {
  import opened Wrappers
  import opened StoreConfig

  const StatusPathPrefix: string := "payment/mercadopago/order_status_"
  const DefaultStatus: string := "in_process"

  /** The provider statuses that have an order status path of their own. */
  predicate IsMappedStatus(status: string)
  {
    status in {"approved", "refunded", "in_mediation", "cancelled", "rejected", "chargeback"}
  }

  /** `getStatusOrder`: the configured order status for a payment status; every status
      without a path of its own falls back to the `in_process` one. */
  function GetStatusOrder(status: string, config: Config): (r: Option<string>)
    ensures IsMappedStatus(status) ==> r == GetValue(config, StatusPathPrefix + status)
    ensures !IsMappedStatus(status) ==> r == GetValue(config, StatusPathPrefix + DefaultStatus)
  {
    match status
    case "approved" => GetValue(config, StatusPathPrefix + "approved")
    case "refunded" => GetValue(config, StatusPathPrefix + "refunded")
    case "in_mediation" => GetValue(config, StatusPathPrefix + "in_mediation")
    case "cancelled" => GetValue(config, StatusPathPrefix + "cancelled")
    case "rejected" => GetValue(config, StatusPathPrefix + "rejected")
    case "chargeback" => GetValue(config, StatusPathPrefix + "chargeback")
    case _ => GetValue(config, StatusPathPrefix + "in_process")
  }

  /** The configuration path a payment status is read from. */
  function StatusPath(status: string): string
  {
    StatusPathPrefix + (if IsMappedStatus(status) then status else DefaultStatus)
  }

  lemma PrefixCancels(a: string, b: string)
    requires StatusPathPrefix + a == StatusPathPrefix + b
    ensures a == b
  {
    assert a == (StatusPathPrefix + a)[|StatusPathPrefix|..];
    assert b == (StatusPathPrefix + b)[|StatusPathPrefix|..];
  }

  /** Whatever value is configured at a status's path is what the lookup returns. */
  lemma ConfiguredStatusIsReturned(status: string, config: Config, orderStatus: string)
    ensures GetStatusOrder(status, config[StatusPath(status) := orderStatus]) == Some(orderStatus)
  {
  }

  /** Configuring the order status of one mapped payment status changes the lookup of no other. */
  lemma OtherStatusesUnaffected(configured: string, status: string, config: Config, orderStatus: string)
    requires IsMappedStatus(configured) && configured != status
    ensures GetStatusOrder(status, config[StatusPathPrefix + configured := orderStatus]) == GetStatusOrder(status, config)
  {
    var other := if IsMappedStatus(status) then status else DefaultStatus;
    if StatusPathPrefix + configured == StatusPathPrefix + other {
      PrefixCancels(configured, other);
    }
  }

  /** Every payment status without a path of its own is treated as `in_process`. */
  lemma UnmappedIsInProcess(status: string, config: Config)
    requires !IsMappedStatus(status)
    ensures GetStatusOrder(status, config) == GetStatusOrder(DefaultStatus, config)
  {
  }
}
