# nostrpix-api in Dafny

A Dafny model of the reasoning core of nostrpix-api. The service keeps a satoshi balance per
user. Lightning deposits made through Strike credit that balance, and PIX payouts go out through
Sqala. The model covers these parts:

- **Conversion** (`conversion.dfy`): BRL to satoshi conversion, rounded down, and the BTC/BRL
  price cache with its 300 s time-to-live.
- **PixKeys, PixService, PixHelpers** (`pix_keys.dfy`, `pix_service.dfy`, `pix_helpers.dfy`):
  - the two PIX key normalisers, which try CPF, CNPJ, phone, email and UUID in that order, and
    the first that accepts wins;
  - the fee- and spread-adjusting amount validator;
  - the plain bounds-and-cents amount validator.
- **Ledger** (`ledger.dfy`): the `users`, `lightning_deposits` and `pix_payments` tables,
  held in memory as a `Database` class. It also gives the meaning of the query forms the services
  use: insert, select-by-column with `.single()`, and update-by-column.
- **SupabaseService, DatabaseService** (`supabase_service.dfy`, `database_service.dfy`): the two
  data access layers over those tables. They include the read-then-write balance update, and the
  rule that `user_id` takes precedence over `public_key`. The `get_lightning_deposit_via_lnurl`,
  `list_user_pix_payments` and `list_user_lightning_deposits` of `src/services/database.service.ts`
  (lines 128-160) are the same queries as their Supabase counterparts. They are modelled once, by
  `SupabaseService.GetUserLightningDeposit`, `SupabaseService.ListUserPixPayments` and
  `SupabaseService.ListUserLightningDeposits`.
- **StrikeService** (`strike_service.dfy`):
  - creating a Lightning deposit;
  - reconciling a user's unpaid deposits against Strike's invoice states. Each unpaid deposit
    becomes `paid := (state == PAID)`. When the callbacks run one after another, the user is
    credited exactly the amounts that became paid. The code runs them concurrently, and then a
    credit can be lost (see "## Findings");
  - the status check for one deposit.
- **SqalaService** (`sqala_service.dfy`): the Sqala HTTP client. It has a module-level access
  token cache, an interceptor that adds a Basic or a Bearer `Authorization` header, and the two
  calls that validate their input before sending.
- **JsValues, ErrorService, ErrorHelpers, ErrorClassifiers** (`js_values.dfy`,
  `error_service.dfy`, `error_helpers.dfy`, `error_classifiers.dfy`): the two recursive error
  classifiers, with the JavaScript values they inspect, and `async_handler`.

Everything outside the process is a parameter:

- Poll replies: the CoinGecko reply, the Strike invoice states of one call, the Sqala token reply
  and the Sqala response.
- The clock: `Date.now()` is a parameter in milliseconds.
- Generated ids: the id the database would generate for a new row is the parameter `freshId`.
- Library code: the key validators, `JSON.parse` (a finite table) and base-64 `encode`.

The reconciliation proofs rest on the `Database.Valid` invariant: primary keys are unique, and
every deposit and payment belongs to an existing user. Over that invariant the model proves these
properties:

- the table effect of reconciliation;
- that the balance minus the paid deposit amounts is conserved, on the sequential schedule;
- that a second run with the same invoice states credits nothing, on the sequential schedule;
- that the returned list has one entry per unpaid deposit, in list order.

The code does not guarantee the sequential schedule, even within one call. Under `Promise.all`
two crediting callbacks can both read the balance before either writes it, and then one
credit is lost. The conservation and idempotence results hold only for the sequential schedule.

Where the code and the design description of the system disagree, the model follows the code:

- Balance updates are a read followed by a write. They are not an atomic adjustment.
- No lower bound is checked on a balance.
- A failed price fetch rethrows the fetch's error. It does not raise a distinct "price
  unavailable" error.
- Reconciliation flips a deposit and credits the user in two separate writes.

Two observations on the source:

- `src/services/pix.service.ts` imports `convert_brl_to_sats` and `get_btc_price_data` and reads
  `btc_price_brl`.
  - `src/services/conversion.service.ts` exports `convertBRLToSats` and `getBTCPriceData`, and
    its price field is `price`.
  - The model connects them as evidently intended: `Conversion.BrlToSats` and
    `PriceData.price`.
- `src/services/database.service.ts` imports its row types from `../types/database`.
  - That file is not part of this model.
  - Its rows are given the shapes of `src/types/supabase.ts`.

The Sqala cache stores the raw `expiresIn` of the token reply and compares it with `Date.now()`
(src/services/sqala.service.ts:37, 45). The model does this as written. Whether a cached token is
ever reused therefore depends on the unit of `expiresIn`, which `SqalaClient.GetAccessToken`
states exactly.

## Model

| member | source | states |
|---|---|---|
| Conversion.BrlToSats | src/services/conversion.service.ts:40-46 | the result is never above `brl / price * 1e8` and is less than one sat below it |
| Conversion.BrlToSatsIsTheFloor | src/services/conversion.service.ts:44-45 | any integer within those floor bounds is the result, so they define it |
| Conversion.BrlToSatsExample | src/services/conversion.service.ts:44-45 | 100 BRL at 500000 BRL/BTC is 20000 sats |
| Conversion.BrlToSatsOfZero | src/services/conversion.service.ts:44-45 | 0 BRL is 0 sats at any non-zero price |
| Conversion.BrlToSatsMonotoneInAmount | src/services/conversion.service.ts:44-45 | for a fixed positive price, more reais never give fewer sats |
| Conversion.BrlToSatsAntitoneInPrice | src/services/conversion.service.ts:44-45 | for a fixed non-negative amount, a higher price never gives more sats |
| Conversion.FetchBtcPriceInBrl | src/services/conversion.service.ts:7-24 | succeeds iff the reply carries a truthy (non-zero) price, and then holds that price and `lastUpdated = now`; a failed request and a missing or zero price are the two errors |
| Conversion.PriceCache.Get | src/services/conversion.service.ts:28-29 | the cached value is returned iff an entry exists and its lifetime has not run out |
| Conversion.PriceCache.GetBtcPriceData | src/services/conversion.service.ts:27-37 | a hit returns the cached value and the reply is ignored (no fetch); a miss returns the fetch's result and stores a success until `now + 300000` ms; an error leaves the cache as it was; the cache never holds a zero price |
| PixKeys.PhoneCountry | src/services/pix.service.ts:26-28 | a key is parsed with country BRA iff it contains no "+" |
| PixKeys.FirstAccepting | src/services/pix.service.ts:14-46 | the index of the first accepting kind, with every earlier kind rejecting; `None` iff every kind rejects |
| PixKeys.FirstAcceptingInDispatchOrder | src/services/pix.service.ts:14-46 | on the five kinds, first-match means the chain CPF, CNPJ, phone, email, UUID |
| PixService.ValidatePixKey | src/services/pix.service.ts:8-50 | the first accepting validator in the dispatch order decides the formatted key: stripped for CPF and CNPJ, the library's number for a phone, unchanged for email and UUID; with no match it throws `CustomError("Invalid 'pix_key'", { pix_key })`, so `is_valid` is never false |
| PixService.Round | src/services/pix.service.ts:81-82 | `Math.round` is the integer nearest to x, halves rounding up |
| PixService.BoundsCheck | src/services/pix.service.ts:66-78 | the amount passes iff limits are overridden or it lies in [0.01, 50], both ends included; a rejection is the below-minimum error when the amount is under 0.01, else the above-maximum error |
| PixService.FeeAdjustedDecimal | src/services/pix.service.ts:80-82 | the adjusted amount is a whole number of cents within half a cent of `cents / 0.99` |
| PixService.ValidatePixAmount | src/services/pix.service.ts:55-98 | a bounds rejection happens iff the bounds check fails; a price failure is reported iff the bounds pass and the price read fails; a success has `is_valid`, echoes the amount, has cents = 100 x decimal for both amounts, and prices the fee-adjusted amount floored to whole reais after the 5% spread |
| PixService.AcceptedAmounts | src/services/pix.service.ts:66-78 | with a price available, an amount is accepted exactly when limits are overridden or it lies in [0.01, 50] |
| PixService.FeeNeverLowersAmount | src/services/pix.service.ts:80-83 | for a whole number of cents, the fee markup never lowers the amount |
| PixService.SpreadFloorNeverOvercharges | src/services/pix.service.ts:85-89 | the sats asked for never exceed those of the exact spread-adjusted amount |
| PixService.SpreadFloorZeroesSmallAmounts | src/services/pix.service.ts:85-89 | an accepted 0.50 BRL payout at 500000 BRL/BTC is priced at 0 sats, although its adjusted value is worth 107 sats |
| PixService.ValidatePixAmountCorrected | src/services/pix.service.ts:85-89 | with the spread applied before the floor, the sats are within one sat below the exact fee- and spread-adjusted value |
| PixHelpers.ProcessPixKey | src/helpers.ts/pix.ts:6-26 | the first accepting validator, in the same order, gives the formatted key; with no match it throws "Invalid Pix key" |
| PixHelpers.KeyNormalisersAgree | src/helpers.ts/pix.ts:6-26 | both key normalisers accept the same keys and give the same formatted key |
| PixHelpers.ProcessPixAmount | src/helpers.ts/pix.ts:28-36 | accepts exactly the amounts in [1, 150], ends included, giving cents (cents / 100 = amount, within [100, 15000]); otherwise the lower- or upper-bound message |
| JsValues.Get | src/services/error.service.ts:66-76 | a missing key reads as `undefined`, and a found value is smaller than the object it came from |
| JsValues.Prop | src/services/error.service.ts:42 | property access never yields a larger value, and a defined result is strictly smaller |
| JsValues.JsonParse | src/services/error.service.ts:54-61 | parsing succeeds iff the string is JSON |
| JsValues.NewCustomError | src/services/error.service.ts:6-19 | a `CustomError` keeps its message, `user_data` and `debug_data` |
| ErrorService.Assign | src/services/error.service.ts:22-25 | after `acc[key] = value`, `key` reads `value` and every other key reads as before |
| ErrorService.CollectPropsCopies | src/services/error.service.ts:21-26 | after the fold, every collected name maps to the error's value for it, and other names keep their binding |
| ErrorService.DebugObjectReadsEveryProperty | src/services/error.service.ts:21-26 | the debug object maps each own property name of the error to the error's value for it, and nothing else |
| ErrorService.CustomErrorsReportThemselves | src/services/error.service.ts:32-38 | a `CustomError` gives its message and `user_data`, and gives its `debug_data` only when shown |
| ErrorService.AxiosErrorsReportTheirResponse | src/services/error.service.ts:41-43 | an axios error classifies as its `response.data` when that is truthy, else as its message |
| ErrorService.PlainErrorsReportTheirMessage | src/services/error.service.ts:46-51 | another `Error` gives its message, with its own properties as debug data only when shown |
| ErrorService.StringsReportTheirJson | src/services/error.service.ts:54-62 | a JSON string classifies as its parsed value; any other string is the bare message |
| ErrorService.ObjectsUnwrapErrorThenResponse | src/services/error.service.ts:65-88 | an object classifies as its truthy `error`, else as its truthy `response`'s `data`, else with its string `code` (or the unknown-error message) and itself as debug data when shown |
| ErrorService.OtherValuesAreUnknown | src/services/error.service.ts:90-94 | any other value is the unknown-error message, with `{ original }` only when shown |
| ErrorService.NoDebugDataWhenHidden | src/services/error.service.ts:28-95 | with `show_debug_data` off, no result has `debug_data`, however deep the nesting |
| ErrorService.DebugSettingOnlyAffectsDebugData | src/services/error.service.ts:28-95 | the setting never changes the message or `user_data` |
| ErrorService.UserDataComesFromCustomErrors | src/services/error.service.ts:28-95 | when no `CustomError` occurs in the value, the result has no `user_data`; JSON parsed on the way never brings one in |
| ErrorService.AsyncHandler | src/services/error.service.ts:97-109 | a 500 with `{ error: parse_error(e) }` is sent iff the handler threw and nothing was sent yet; otherwise the response is untouched |
| ErrorHelpers.ClassifyJson | src/helpers.ts/error.ts:16-28 | on a thrown string, the classifier recurses only into a value smaller than the parsed one |
| ErrorHelpers.ClassifyShrinks | src/helpers.ts/error.ts:3-41 | every recursive call of `parseError` is on a strictly smaller value, so classification terminates |
| ErrorHelpers.AxiosErrorsReportTheirResponse | src/helpers.ts/error.ts:6-11 | an axios error with a response classifies as its `response.data`; one without gives its message |
| ErrorHelpers.ErrorsReportTheirMessage | src/helpers.ts/error.ts:12-15 | any other `Error`, `CustomError` included, gives its message without metadata |
| ErrorHelpers.StringsReportTheirJson | src/helpers.ts/error.ts:16-28 | a JSON string classifies as its truthy `error`, else gives the see-metadata message with the parsed value; a non-JSON or `null` string is its own message |
| ErrorHelpers.ObjectsUnwrapError | src/helpers.ts/error.ts:30-39 | an object classifies as its truthy `error`, else gives the see-metadata message with itself as metadata |
| ErrorHelpers.OtherValuesAreUnknown | src/helpers.ts/error.ts:40 | any other value gives the unknown-error message without metadata |
| ErrorHelpers.StepMetadataOnlyWithSeeMetadata | src/helpers.ts/error.ts:22-25 | a step that answers with metadata answers with the see-metadata message |
| ErrorHelpers.MetadataOnlyWithSeeMetadata | src/helpers.ts/error.ts:3-41 | metadata is attached only together with the see-metadata message |
| ErrorHelpers.StepMetadataIsNeverAnError | src/helpers.ts/error.ts:35-38 | a step never attaches an Error instance as metadata |
| ErrorHelpers.MetadataIsNeverAnError | src/helpers.ts/error.ts:3-41 | the metadata is never an Error instance, because `JSON.parse` never yields one |
| ErrorClassifiers.ClassifiersAgreeOnPlainErrors | src/helpers.ts/error.ts:12-15 | both classifiers answer a plain `Error` with its message |
| ErrorClassifiers.ClassifiersAgreeOnNonJsonStrings | src/helpers.ts/error.ts:26-28 | both classifiers answer a non-JSON string with the string itself |
| ErrorClassifiers.ClassifiersAgreeOnResponselessAxiosErrors | src/helpers.ts/error.ts:6-11 | both classifiers answer an axios error without a response, whose message is not JSON, with its message |
| ErrorClassifiers.OnlyParseErrorKeepsUserData | src/services/error.service.ts:32-38 | `parse_error` keeps a `CustomError`'s `user_data`, and `parseError` drops it |
| Ledger.UsersWhere | src/services/supabase.service.ts:24-28 | the rows selected by `.eq` are exactly the matching rows, with their multiplicities |
| Ledger.DepositsWhere | src/services/supabase.service.ts:90-94 | the deposits selected by `.eq` are exactly the matching rows, with their multiplicities |
| Ledger.PaymentsOf | src/services/supabase.service.ts:102-105 | the payments selected by `user_id` are exactly that user's rows, with their multiplicities |
| Ledger.Single | src/services/supabase.service.ts:28-29 | `.single()` succeeds iff exactly one row matched; otherwise it reports the count |
| Ledger.UserByIdIsSingle | src/services/supabase.service.ts:23-30 | on unique ids, the select by id has one row iff the user exists, and none otherwise |
| Ledger.DepositByIdIsSingle | src/services/supabase.service.ts:65-70 | on unique ids, the select of a deposit by id has one row iff the deposit exists |
| Ledger.DepositRowById | src/services/supabase.service.ts:65-70 | on unique ids, the select of an existing deposit's id is exactly that row |
| Ledger.UpdateUsers | src/services/supabase.service.ts:39-44 | an update changes every matching row as asked and leaves every other row alone |
| Ledger.SetPaid | src/services/supabase.service.ts:65-70 | only `paid` of the rows with that id changes |
| Ledger.UpdateUsersKeepsKeys | src/services/supabase.service.ts:39-44 | an update keeps ids unique and keeps the set of users |
| Ledger.Credit | src/services/supabase.service.ts:37-44 | a credit adds `delta` to the rows of that user and leaves every other row alone |
| Ledger.CreditMovesOneBalance | src/services/supabase.service.ts:37-44 | a credit raises that user's balance by `delta` (if the user exists) and no other user's balance |
| Ledger.CreditsAdd | src/services/strike.service.ts:73-75 | two credits to one user are one credit of their sum |
| Ledger.SetBalanceIsCredit | src/services/supabase.service.ts:37-44 | on unique ids, writing `current + delta` to the row with that id is a credit of `delta` |
| Ledger.Database.InsertUser | src/services/supabase.service.ts:13-21 | a fresh id appends exactly one user with balance 0; a taken id is a duplicate-key error and changes nothing |
| Ledger.Database.InsertDeposit | src/services/supabase.service.ts:49-59 | succeeds iff the id is fresh and the user exists, appending the row with the given fields; otherwise the error names the cause and the table is unchanged |
| Ledger.Database.InsertPayment | src/services/supabase.service.ts:75-85 | succeeds iff the id is fresh and the user exists, appending the row with the given fields; otherwise the error names the cause and the table is unchanged |
| Ledger.Database.UpdateUserWhere | src/services/supabase.service.ts:39-46 | succeeds iff exactly one row matches, and then returns it changed and updates the matching rows; otherwise nothing changes |
| Ledger.Database.UpdateDepositPaid | src/services/supabase.service.ts:65-72 | succeeds iff the deposit exists, returning it with the new `paid` and changing only that field of that row |
| SupabaseService.InsertUser | src/services/supabase.service.ts:13-21 | succeeds iff the new id is free, adding exactly one user with balance 0 |
| SupabaseService.GetUser | src/services/supabase.service.ts:23-31 | on unique ids, succeeds iff the user exists, returning that user's row |
| SupabaseService.UpdateUserBalanceSats | src/services/supabase.service.ts:33-47 | succeeds iff the user exists; the user's balance becomes old + change, with no lower bound, and every other row is unchanged; on error nothing changes |
| SupabaseService.WriteBalance | src/services/supabase.service.ts:38-46 | the write of `current + change` to the row read succeeds, is a credit of the change, and returns the row read with the new balance |
| SupabaseService.SingleUserRow | src/services/supabase.service.ts:23-30 | on unique ids, the select of an existing user's id is exactly that row |
| SupabaseService.CreditedRowBalance | src/services/supabase.service.ts:38-44 | after a credit, the user's balance is the balance read plus the change |
| SupabaseService.InsertUserLightningDeposit | src/services/supabase.service.ts:49-59 | appends the deposit with its given fields and returns it, iff the id is fresh and the user exists |
| SupabaseService.UpdateUserLightningDepositPaid | src/services/supabase.service.ts:61-73 | succeeds iff the deposit exists; only its `paid` changes, and the row is returned with the new `paid` |
| SupabaseService.InsertUserPixPayment | src/services/supabase.service.ts:75-85 | appends the payment with its given fields and returns it, iff the id is fresh and the user exists |
| SupabaseService.GetUserLightningDeposit | src/services/supabase.service.ts:87-97 | succeeds iff exactly one deposit has that lnurl, and then returns it |
| SupabaseService.ListUserPixPayments | src/services/supabase.service.ts:99-108 | the result holds exactly the payments with that `user_id` |
| SupabaseService.ListUserLightningDeposits | src/services/supabase.service.ts:110-119 | the result holds exactly the deposits with that `user_id` |
| DatabaseService.SelectSingleUser | src/services/database.service.ts:22-28 | succeeds iff exactly one user matches, returning the only matching row; otherwise it reports the count |
| DatabaseService.SelectByIdFindsTheUser | src/services/database.service.ts:21-29 | the select by id succeeds iff the user exists |
| DatabaseService.GetUser | src/services/database.service.ts:13-48 | selects by `user_id` when it is given (even if `public_key` is too), else by `public_key`; with neither it inserts a user with balance 0 |
| DatabaseService.LinkPublicKeyToUser | src/services/database.service.ts:50-65 | succeeds iff the user exists; only that user's `public_key` changes, and the changed row is returned |
| DatabaseService.UpdateUserBalance | src/services/database.service.ts:67-102 | by `user_id` when given: a credit of the change iff the user exists; else by `public_key`: writes the matched row's balance plus the change iff exactly one row matches; with neither it creates a user and then fails |
| DatabaseService.RecordUserLightningDeposit | src/services/database.service.ts:104-114 | appends the deposit with its given fields and returns it, iff the id is fresh and the user exists |
| DatabaseService.RecordUserPixPayment | src/services/database.service.ts:116-126 | appends the payment with its given fields and returns it, iff the id is fresh and the user exists |
| StrikeService.PendingOf | src/services/strike.service.ts:58-61 | the deposits handled are exactly the user's unpaid ones |
| StrikeService.UnpaidOfListIsPending | src/services/strike.service.ts:58-61 | listing the user's deposits and keeping the unpaid ones gives the user's pending deposits in table order |
| StrikeService.UnpaidOfConcat | src/services/strike.service.ts:59-61 | the unpaid filter distributes over concatenation |
| StrikeService.PendingIdsUnique | src/services/strike.service.ts:58-61 | the pending list, like the table, has unique ids |
| StrikeService.Reconciled | src/services/strike.service.ts:62-79 | reconciliation keeps the number of rows |
| StrikeService.ReconciledAt | src/services/strike.service.ts:62-79 | row i after reconciliation is row i reconciled: a pending deposit of the user reported PAID becomes paid, and every other row stays as it was |
| StrikeService.PaidIds | src/services/strike.service.ts:68-72 | every id marked paid belongs to a pending deposit that Strike reports PAID |
| StrikeService.MarkPaid | src/services/strike.service.ts:68-72 | exactly the rows with the given ids become paid |
| StrikeService.MarkPaidIsReconciled | src/services/strike.service.ts:62-79 | marking the pending deposits reported PAID gives the reconciled table |
| StrikeService.Settled | src/services/strike.service.ts:62-80 | one entry per pending deposit, in order, each with `paid = (state == PAID)` |
| StrikeService.CreditOfConcat | src/services/strike.service.ts:73-75 | the credit of two lists is the sum of their credits |
| StrikeService.ReconciledPaidSum | src/services/strike.service.ts:68-75 | the user's paid total grows by exactly the credit granted, and every other user's paid total is unchanged |
| StrikeService.ReconciliationKeepsBalanceMinusPaid | src/services/strike.service.ts:68-75 | for every user, balance minus the paid deposit amounts is the same before and after |
| StrikeService.ReconcileIdempotent | src/services/strike.service.ts:59-75 | a second run with the same states changes no row and credits nothing |
| StrikeService.NothingLeftToCredit | src/services/strike.service.ts:59-75 | when no pending deposit is reported PAID, the credit is 0 |
| StrikeService.NoPaidNoCredit | src/services/strike.service.ts:73-75 | with no deposit reported PAID, nothing is credited |
| StrikeService.AllFoundMeans | src/services/strike.service.ts:62-79 | the lookups all succeed iff every pending deposit's invoice is known to Strike |
| StrikeService.ReconcileDeposit | src/services/strike.service.ts:64-77 | a failed lookup changes nothing; otherwise the deposit's `paid` becomes `state == PAID`, the user is credited its amount iff it became paid, and the updated row is returned |
| StrikeService.ReconcileAll | src/services/strike.service.ts:62-80 | after every callback, the rows reported PAID are marked paid, the user is credited their total, and the call succeeds iff every lookup did, returning the settled list |
| StrikeService.CheckLightningDepositStatuses | src/services/strike.service.ts:55-81 | the deposits table becomes the reconciled table; the user is credited the amounts of exactly the deposits that became paid; the call succeeds iff every pending invoice is found, returning one updated entry per pending deposit in order |
| StrikeService.ReconciledByLnurl | src/services/strike.service.ts:94-97 | reconciliation changes no lnurl, so the select by lnurl commutes with it |
| StrikeService.FoundAgainByLnurl | src/services/strike.service.ts:94-97 | the deposit found by lnurl before the owner is reconciled is found again by lnurl afterwards, as the single row, now reconciled |
| StrikeService.InterleavedCreditsKeepOnlyTheLast | src/services/strike.service.ts:62-79 | when every crediting callback reads the balance before any of them writes, the final balance is the read balance plus the last amount alone |
| StrikeService.LostCreditExample | src/services/strike.service.ts:62-79 | credits of 100 and 200 on a balance of 0 end at 200 on that schedule, and at 300 when applied one after another |
| StrikeService.RefreshDeposit | src/services/strike.service.ts:94-98 | the call succeeds iff the state is not PAID or every pending invoice of the owner is known; the re-read deposit is the one found, paid when Strike says PAID; the owner is reconciled only then, and otherwise nothing changes |
| StrikeService.CheckLightningDepositStatus | src/services/strike.service.ts:83-99 | a failed lookup by lnurl or of the invoice is reported; a found deposit with a known invoice fails iff its state is PAID and reconciling the owner meets an unknown invoice; on success it returns the re-read deposit and the state; the tables are reconciled for the owner only when the state is PAID, and otherwise unchanged |
| StrikeService.InvoiceAmountFor | src/services/strike.service.ts:35-39 | the invoice asks for `amount_sats / 1e8` BTC |
| StrikeService.GenerateLightningDeposit | src/services/strike.service.ts:23-53 | a missing user fails before any invoice request; otherwise it requests `amount_sats / 1e8` BTC and, when both Strike replies arrive and the id is fresh, appends an unpaid deposit with the invoice's id and lnurl |
| SqalaService.TopupRequestBody | src/services/sqala.service.ts:57-59 | the body exists iff the amount lies in [1, 150], carrying it in cents; otherwise the validation error |
| SqalaService.WithdrawalRequestBody | src/services/sqala.service.ts:75-84 | an invalid key is reported first; with a valid key the body exists iff the amount lies in [1, 150]; the body is method PIX, the amount in cents and the key formatted by the first accepting validator |
| SqalaService.SqalaClient.constructor | src/services/sqala.service.ts:33-34 | the client starts with no token and no expiry |
| SqalaService.SqalaClient.GetAccessToken | src/services/sqala.service.ts:36-50 | a cached token that is non-empty, with a non-zero expiry still ahead of the clock, is returned with no request; otherwise one token request is sent; a grant stores the token and the raw `expiresIn`, and later calls hit iff the token is non-empty and the clock is below `expiresIn`; a failure is rethrown and keeps the cache |
| SqalaService.SqalaClient.Intercept | src/services/sqala.service.ts:18-31 | the token URL gets `Basic` plus the encoded `appId:appSecret`; any other URL gets `Bearer` and the token, or keeps its headers when the token request fails |
| SqalaService.SqalaClient.Post | src/services/sqala.service.ts:18-31 | a request to any other URL goes out after the token request the interceptor needed (if any), with the Bearer header, or without one when the token request failed |
| SqalaService.SqalaClient.TopupAccount | src/services/sqala.service.ts:52-61 | an invalid amount throws before anything is sent or cached; otherwise the amount in cents is posted and the QR payload returned |
| SqalaService.SqalaClient.PayStaticPix | src/services/sqala.service.ts:68-86 | an invalid key or amount throws before anything is sent or cached; otherwise the withdrawal (PIX, cents, formatted key) is posted and its data returned |

## Left out

- Concurrency:
  - `Promise.all` in the reconciliation runs the callbacks one after another, in list order. A
    failed Strike lookup is reported after every callback has run, as the sibling promises still
    complete.
  - The read-then-write balance updates are sequential here. This schedule is one the code
    permits but does not enforce, even inside one call. `Promise.all` in
    `check_lightning_deposit_statuses` lets two callbacks each read the balance before either
    writes, and one credit is then lost. `StrikeService.CreditsAfterOneRead` models that
    schedule; other interleavings and concurrent requests are not modelled.
- Arithmetic: amounts and prices are exact reals, not IEEE doubles. `Math.round(x)` is
  `floor(x + 0.5)`, and `Math.floor` is the floor.
- Database details:
  - `created_at` columns are not modelled.
  - Generated ids are the `freshId` parameter.
  - Network failures of the database are not modelled. The only query errors are the ones the
    rows themselves cause: a `.single()` count that is not one, a duplicate key, or an unknown
    foreign key.
- Updates: an update through `.single()` that matches several rows is modelled as rolled back.
  This is the PostgREST singular-response behaviour.
- The price cache: node-cache's deletion of expired entries is not modelled. A read after the
  time-to-live simply misses.
- Reply fields and logging:
  - The HTTP replies are reduced to the fields the code reads.
  - `console.log` and `console.error` calls are not modelled.
  - The Strike client's own headers are not modelled.
  - The Strike requests are not logged. Their answers are parameters.
- The `lookupPixQr` function of `src/services/sqala.service.ts` is not part of this model. It is
  a single GET whose data is returned unchanged, with no logic of its own.
- The other pass-through calls are not part of this model:
  - the routes and server setup (`src/routes`, `src/app.ts`);
  - the Strike invoice and quote fetch wrappers;
  - `src/config/index.ts`.
- Dead code: the "User not found" `CustomError` in `generate_lightning_deposit` is unreachable,
  because the read by id throws first. The model reports the read's error.
- JavaScript values:
  - `JSON.parse` is a finite table of the strings it accepts (`JsValues.ParsesJson`). Each string
    denotes a JSON value: null, a boolean, a number, a string, or an object or array of these. That
    value is no larger than the string.
  - Truthiness ignores NaN, -0 and BigInt.
  - Property access ignores prototype properties.
- Orchestration: no shown code debits a balance on payout, checks for insufficient funds, or
  records a payment after a withdrawal. The model adds none of that.
- Weaker contracts:
  - StrikeService.CheckLightningDepositStatus: says exactly when a reconciliation failure makes
    it fail, but not which unknown invoice the error names.
  - StrikeService.RefreshDeposit: says exactly when it fails, but not which unknown invoice the
    error names.
  - SqalaService.SqalaClient.TopupAccount: states only that the earlier requests are kept and
    that the last request sent is the top-up. The token request in between is stated by
    `SqalaClient.Post`.
  - SqalaService.SqalaClient.PayStaticPix: states only that the earlier requests are kept and
    that the last request sent is the withdrawal. The token request in between is stated by
    `SqalaClient.Post`.
  - SupabaseService.GetUser: its success condition is stated only when user ids are unique,
    which `Database.Valid` guarantees.

## Findings

| source | as written | input that shows it | evidently intended | confidence | as-written member | corrected member |
|---|---|---|---|---|---|---|
| src/services/strike.service.ts:62-79 | the callbacks run concurrently under `Promise.all`, and each credit is a read of the balance followed by a write of `read + amount` (src/services/supabase.service.ts:37-44) | two unpaid deposits of 100 and 200 sats, both PAID, on a balance of 0: both callbacks read 0, so the balance ends at 200 (or 100), not 300 | every deposit that became paid is credited, as when the callbacks run one after another | high that the schedule is possible, not executed | StrikeService.InterleavedCreditsKeepOnlyTheLast | StrikeService.ReconcileAll |
| src/services/pix.service.ts:85-89 | the fee-adjusted amount is divided by 0.95 and floored to whole reais before conversion | 0.50 BRL at 500000 BRL/BTC: adjusted 0.51 BRL, floor(0.51 / 0.95) = 0, so 0 sats, whereas 0.51 / 0.95 BRL is worth 107 sats | apply the spread, convert, and floor only the sats | medium, not executed | PixService.SpreadFloorZeroesSmallAmounts | PixService.ValidatePixAmountCorrected |
