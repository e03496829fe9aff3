# MercadoPago payment helper — a Dafny model

This project models the helper class of the MercadoPago payment module for Magento 2
(`MercadoPago\Core\Helper\Data`). The helper sits between the store and the MercadoPago
payment API and does six things:

- it reads amount fields that may list one amount per payment instrument, separated by `|`
  (`"100.00|50.00"` for a payment split over two cards), and adds them up (`_getMultiCardValue`);
- it reconciles a payment into an order's grand total, coupon discount and finance cost
  (installment interest), the part of the amount paid that transaction, coupon and shipping
  do not account for (`setOrderSubtotals`);
- it maps a provider payment status to the order status configured for it in the store (`getStatusOrder`);
- it builds the API client from one access token or from a client id and secret, and decides
  whether credentials are valid (`getApiInstance`, `isValidAccessToken`,
  `isValidClientCredentials`, `getAccessToken`);
- it flattens the nested card and payer data of a payment record into top-level entries (`setPayerInfo`);
- it composes the order-history message for a payment (`getMessage`).

Modules, one per file:

- `Wrappers` holds `Option` and `Result`.
- `Decimal` renders natural numbers in decimal and reads them back.
- `PhpStrings` models PHP's `explode`, `implode` and `str_replace` of one character by nothing.
- `PhpFloat` models PHP's `(float)` cast of a string: optional sign, digits, optional
  fraction, optional exponent, and 0 when the string does not start with a number.
- `PhpValues` holds PHP values, reading array entries, and string conversion.
- `StoreConfig` models the store configuration as a map from configuration path to value,
  with PHP truthiness of a value.
- `MultiCard` models `_getMultiCardValue`.
- `Subtotals` models `setOrderSubtotals`. The order is a class whose six monetary fields the
  method updates in place.
- `StatusOrder` models `getStatusOrder`.
- `ApiInstance` models client construction and the credential checks.
- `PayerInfo` models `setPayerInfo`. The payment record, passed by reference in the source,
  is a class whose entry map the method updates.
- `Message` models `getMessage`.

Amounts are exact rationals (`real`). The reconciliation is specified by the function
`Subtotals.Reconciled` of the payment and the order's fields before the call. The loop of
`_getMultiCardValue` is specified by the function `MultiCard.MultiCardSum`. The properties
of the source are proved about these functions.

## Model

| member | source | states |
|---|---|---|
| MultiCard.GetMultiCardValue | app/code/MercadoPago/Core/Helper/Data.php:261-271 | the loop over the `|`-separated tokens returns the left-to-right sum of each token's space-free text cast to a number |
| MultiCard.SumTokensAppend | app/code/MercadoPago/Core/Helper/Data.php:263-268 | the accumulated total over two runs of tokens is the sum of their totals |
| MultiCard.EmptyFieldIsZero | app/code/MercadoPago/Core/Helper/Data.php:261-271 | an empty field (one empty token) totals 0 |
| MultiCard.SingleAmount | app/code/MercadoPago/Core/Helper/Data.php:264-266 | a field without `|` totals its own space-free text cast to a number |
| MultiCard.JoinedFieldsAdd | app/code/MercadoPago/Core/Helper/Data.php:264-268 | joining two fields with `|` adds their totals |
| MultiCard.ImplodedTokensAdd | app/code/MercadoPago/Core/Helper/Data.php:264-268 | `|`-free tokens joined by `|` total the sum of the token values |
| MultiCard.CentsFieldTotal | app/code/MercadoPago/Core/Helper/Data.php:261-271 | a field listing two-decimal amounts totals exactly the sum of those amounts |
| MultiCard.WholeAmount | app/code/MercadoPago/Core/Helper/Data.php:261-271 | a whole number written in decimal totals itself |
| PhpStrings.Explode | app/code/MercadoPago/Core/Helper/Data.php:264 | `explode` returns at least one piece |
| PhpStrings.ExplodePiecesLackDelimiter | app/code/MercadoPago/Core/Helper/Data.php:264 | no piece contains the delimiter |
| PhpStrings.ImplodeExplode | app/code/MercadoPago/Core/Helper/Data.php:264 | joining the pieces with the delimiter gives back the string |
| PhpStrings.ExplodeImplode | app/code/MercadoPago/Core/Helper/Data.php:264 | splitting delimiter-free pieces joined by the delimiter gives back the pieces |
| PhpStrings.ExplodeNoDelimiter | app/code/MercadoPago/Core/Helper/Data.php:264 | a string without the delimiter is one piece |
| PhpStrings.ExplodeConcat | app/code/MercadoPago/Core/Helper/Data.php:264 | splitting `a|b` gives the pieces of `a` followed by those of `b` |
| PhpStrings.RemoveChar | app/code/MercadoPago/Core/Helper/Data.php:266 | removing spaces leaves no space, no new character and no longer string |
| PhpStrings.RemoveCharConcat | app/code/MercadoPago/Core/Helper/Data.php:266 | removing spaces distributes over concatenation |
| PhpStrings.RemoveCharAbsent | app/code/MercadoPago/Core/Helper/Data.php:266 | a string without spaces is unchanged |
| PhpFloat.ParseFloat | app/code/MercadoPago/Core/Helper/Data.php:266 | the `(float)` cast: an optional sign, then the leading numeral (digits, optional fraction, optional exponent), 0 when there is none; pinned down by the `PhpFloat` lemmas below |
| PhpFloat.NoNumeralIsZero | app/code/MercadoPago/Core/Helper/Data.php:266 | a string that does not start with a sign, digit or point casts to 0 |
| PhpFloat.UnsignedCast | app/code/MercadoPago/Core/Helper/Data.php:266 | without a sign the cast is the unsigned reading |
| PhpFloat.MinusNegates | app/code/MercadoPago/Core/Helper/Data.php:266 | a leading minus negates the value |
| PhpFloat.UnsignedWhole | app/code/MercadoPago/Core/Helper/Data.php:266 | digits followed by non-numeric text read as the digits' value |
| PhpFloat.UnsignedWithFraction | app/code/MercadoPago/Core/Helper/Data.php:266 | digits, a point and digits, without an exponent, read as the whole part plus the fraction |
| PhpFloat.NatPrefixRoundTrip | app/code/MercadoPago/Core/Helper/Data.php:266 | a rendered whole number followed by non-numeric text casts back to the number |
| PhpFloat.CentsRoundTrip | app/code/MercadoPago/Core/Helper/Data.php:266 | an amount rendered with two decimals casts back to exactly that amount |
| Decimal.NatToStringRoundTrip | app/code/MercadoPago/Core/Helper/Data.php:266 | the decimal rendering of a number reads back as the number |
| Decimal.NatToStringInjective | app/code/MercadoPago/Core/Helper/Data.php:266 | distinct numbers have distinct renderings |
| Subtotals.SetOrderSubtotals | app/code/MercadoPago/Core/Helper/Data.php:212-238 | the order's six monetary fields become `Reconciled` of the payment and their old values |
| Subtotals.GrandTotalIsAmountPaid | app/code/MercadoPago/Core/Helper/Data.php:214-221 | both grand totals are the aggregated `total_paid_amount` when set, else `transaction_details.total_paid_amount` |
| Subtotals.DiscountFollowsCoupon | app/code/MercadoPago/Core/Helper/Data.php:223-228 | a non-zero coupon, negative included, sets both discounts to its negation; a zero coupon leaves them as they were |
| Subtotals.ResidualFormula | app/code/MercadoPago/Core/Helper/Data.php:226-232 | both branches compute balance − transaction + coupon − shipping |
| Subtotals.FinanceCostIsPositiveResidual | app/code/MercadoPago/Core/Helper/Data.php:234-237 | both finance costs are set, to the residual, exactly when it is positive; otherwise they keep their values |
| Subtotals.ReconcileIdempotent | app/code/MercadoPago/Core/Helper/Data.php:212-238 | reconciling the same payment twice is reconciling once |
| Subtotals.ReconcileKeepsMirror | app/code/MercadoPago/Core/Helper/Data.php:220-236 | each base field keeps mirroring its display field |
| Subtotals.ReconcileAmounts | app/code/MercadoPago/Core/Helper/Data.php:212-238 | given the four aggregated amounts, the grand total, discount and finance cost in closed form |
| Subtotals.Order.constructor | app/code/MercadoPago/Core/Helper/Data.php:220-236 | a fresh order has none of the six fields set |
| StatusOrder.GetStatusOrder | app/code/MercadoPago/Core/Helper/Data.php:143-176 | each of the six mapped statuses reads its own path; every other status reads the `in_process` path |
| StatusOrder.PrefixCancels | app/code/MercadoPago/Core/Helper/Data.php:147-171 | distinct status names give distinct configuration paths |
| StatusOrder.ConfiguredStatusIsReturned | app/code/MercadoPago/Core/Helper/Data.php:143-176 | the value configured at a status's path is what the lookup returns |
| StatusOrder.OtherStatusesUnaffected | app/code/MercadoPago/Core/Helper/Data.php:143-176 | configuring one mapped status changes the lookup of no other status |
| StatusOrder.UnmappedIsInProcess | app/code/MercadoPago/Core/Helper/Data.php:170-172 | an unmapped status is looked up as `in_process` |
| StoreConfig.IsSetFlag | app/code/MercadoPago/Core/Helper/Data.php:70 | PHP truthiness of a configuration value: unset, `""` and `"0"` are false; `ApiInstance.GetApiInstance` states sandbox mode in terms of it |
| ApiInstance.GetApiInstance | app/code/MercadoPago/Core/Helper/Data.php:57-79 | fails with the invalid-arguments message exactly for a count other than 1 or 2; otherwise the client holds the arguments, the platform for the count, sandbox iff the sandbox setting is truthy, type `magento` and the version |
| ApiInstance.IsValidAccessToken | app/code/MercadoPago/Core/Helper/Data.php:89-98 | the token is invalid exactly when the probe answers 400 or 401 |
| ApiInstance.IsValidClientCredentials | app/code/MercadoPago/Core/Helper/Data.php:109-119 | the pair is valid exactly when the token exchange does not fail |
| ApiInstance.AccessTokenClient | app/code/MercadoPago/Core/Helper/Data.php:128-134 | the token is requested by a standard-platform client holding the configured client id and secret |
| PayerInfo.PaymentRecord.SetPayerInfo | app/code/MercadoPago/Core/Helper/Data.php:245-254 | writes the masked card, cardholder name and payer names and e-mail, keeps every other entry, adds exactly those five keys and returns the record |
| PayerInfo.PaymentRecord.constructor | app/code/MercadoPago/Core/Helper/Data.php:245 | the record holds the given entries |
| PhpValues.ToPhpString | app/code/MercadoPago/Core/Helper/Data.php:201-203 | PHP's string conversion of a read value: null and false give the empty string, true gives `1`, an integer its decimal form, an array `Array`; its integer case is pinned down by the two lemmas below |
| PhpValues.IntToStringSign | app/code/MercadoPago/Core/Helper/Data.php:201 | an integer's rendering starts with a minus exactly when it is negative |
| PhpValues.IntToStringInjective | app/code/MercadoPago/Core/Helper/Data.php:201 | distinct integer ids render differently |
| Message.SprintfAfterLiteral | app/code/MercadoPago/Core/Helper/Data.php:201-203 | formatting puts the argument in place of the first `%s` |
| Message.FormatLine | app/code/MercadoPago/Core/Helper/Data.php:201-203 | a caption with `%s` formats to the caption followed by the argument |
| Message.Sprintf | app/code/MercadoPago/Core/Helper/Data.php:201-203 | the `%s` reading of each line's phrase: the first `%s` is replaced by the argument; pinned down by `SprintfAfterLiteral` and `SprintfWithoutConversion` |
| Message.SprintfWithoutConversion | app/code/MercadoPago/Core/Helper/Data.php:201-203 | a format without a `%s` conversion is printed unchanged |
| Message.GetMessage | app/code/MercadoPago/Core/Helper/Data.php:198-206 | the message is the status text, then the id, status and status-detail captions, each followed by the payment's value as a string |
| Message.RenderPhrase | app/code/MercadoPago/Core/Helper/Data.php:201-203 | Magento's one-argument phrase rendering, which replaces `%1` placeholders only; pinned down by `RenderWithoutPlaceholder` |
| Message.RenderWithoutPlaceholder | app/code/MercadoPago/Core/Helper/Data.php:201-203 | text without a `1` renders unchanged, whatever the argument |
| Message.GetMessageAsWritten | app/code/MercadoPago/Core/Helper/Data.php:198-206 | `getMessage` with each phrase rendered the Magento way; pinned down by `AsWrittenOmitsPaymentValues` |
| Message.AsWrittenOmitsPaymentValues | app/code/MercadoPago/Core/Helper/Data.php:198-206 | as Magento renders the phrases, the message is the status text followed by the three formats with their literal `%s`, the same for every payment |

## Left out

- Logging (`log`, Data.php:43-50) writes to the store's logger and is not modelled.
- The HTTP calls are not modelled. `IsValidAccessToken` takes the probe's response status as a parameter, and `IsValidClientCredentials` takes whether the token exchange succeeded.
- `getAccessToken` returns what the API's token exchange returns. The model stops at the client it asks (`AccessTokenClient`).
- `_getAssignedState` (Data.php:183-190) queries the order status collection of the store's database and is not modelled.
- The constructor and the dependency injection of the helper are not modelled.
- `MercadoPago_Lib_Api` is not part of this model. A freshly built client is assumed to have sandbox mode off and no platform, type or version set.
- The message text for a status comes from `MessageInterface`, which is not part of this model; it is the parameter `messages`.
- Message.GetMessage: the translation function `__()` is read as `sprintf`-style replacement of `%s`, the evident intent of Data.php:201-203. Magento's phrase renderer substitutes `%1`-style placeholders instead; `Message.GetMessageAsWritten` models that, and "## Findings" states the consequence. Translation through a dictionary is not modelled.
- Message.GetMessage: the source returns a `Phrase` or string. The model returns the rendered string.
- ApiInstance.GetApiInstance: the error for a wrong argument count is modelled as the intended `LocalizedException` carrying the message (Data.php:61). In Magento 2 that exception's constructor takes a `Phrase`, so passing a plain string fails with a `TypeError` instead; the model does not capture that.
- ApiInstance.AccessTokenClient: an unset client id or secret is PHP `null` in the source (Data.php:130-133) and the empty string `""` in the model.
- Floating point: amounts are exact rationals, so rounding of PHP floats (for example `0.1 + 0.2`) is not modelled.
- PhpFloat.ParseFloat: the `(float)` cast's skipping of leading whitespace is not modelled. The spaces are removed before the cast anyway, but tabs and newlines are not.
- Subtotals.PaymentData: the amount fields are given as their string form. A numeric field in the decoded payment is taken as its PHP string rendering, and `transaction_details.total_paid_amount` as the number it holds.
- An unset `coupon_amount`, `transaction_amount` or `shipping_cost` is taken as the empty string (null converts to `""`), which totals 0. PHP's notice for the missing key is not modelled.
- PayerInfo.PaymentRecord.SetPayerInfo: indexing a string value (`$payment['card']` holding a string) yields null in the model, whereas PHP would take a string offset.
- `getStatusOrder` compares with PHP's loose `==`. The model compares strings exactly, which agrees for string statuses.

## Findings

| source | as written | input that shows it | evidently intended | confidence | as-written member | corrected member |
|---|---|---|---|---|---|---|
| app/code/MercadoPago/Core/Helper/Data.php:201-203 | each line is `__('<br/> … %s', $value)`; Magento's phrase renderer replaces only `%1`-style placeholders, so `%s` stays literal and the value is dropped | any payment, for example one whose `id` is 123: the message reads `<br/> Payment id: %s` and never contains `123` | each caption followed by the payment's id, status and status detail | not executed; depends on Magento's placeholder renderer, which is not part of this model | Message.GetMessageAsWritten, Message.AsWrittenOmitsPaymentValues | Message.GetMessage |
