# Pay::Stripe::Merchant in Dafny

A functional model of `Pay::Stripe::Merchant`, the adapter between a host
merchant record (`Pay::Merchant`) and a Stripe Connect account. The adapter
creates the connected account, refreshes its cached state, issues onboarding
and dashboard links, transfers funds to the account and queries its balance.
Each of these calls synchronises with the record's `processor_id` and its
cached `account_info.data` hash.

The Stripe client is foreign. Each remote call the adapter makes is recorded
as a `Stripe.Request`, and Stripe's answer is an input `Stripe.Remote`: either
`Ok(object)` or `Err(StripeError)`. The clock is the input `now` (epoch
seconds). Each operation is therefore a pure function
`(record, arguments, remote, now) -> Step(record', call, outcome)`. The
outcome is `Returned(value)` or `Raised(StripeFailure(cause))`, which models
`Pay::Stripe::Error` wrapping the rescued error.

Files:

- `ruby.dfy` (module `Ruby`): nil-able values, JSON-like hash values,
  `Hash#merge` and ActiveSupport's `blank?`/`present?`.
- `stripe.dfy` (module `Stripe`): Stripe objects seen through `to_hash`,
  `id`, errors, remote answers and the six kinds of request.
- `merchant.dfy` (module `Merchant`): the record, the request builders,
  `update_account_info!` and the six operations.
- `lifecycle.dfy` (module `Lifecycle`): one dispatcher over the six
  operations, plus properties of a single call and of any sequence of calls.

Facts about `lib/pay/stripe/merchant.rb` that shape the model:

- `create_account` and `account` store the fetched hash under the single key
  `account_info` of the cached data (:24, :32). They do not flat-merge it into
  the data.
- `account_link` and `login_link` accept extra options and drop them (:38-44,
  :50-51).
- Only `balance` guards against a missing `processor_id` (:71). The other calls
  pass it on as nil, and the request shows that (`StringOrNil`).
- A keyword argument with a default (`type:` of `account_link`, `currency:` of
  `transfer`) is either omitted, when the default is sent, or passed, when its
  value is sent as is, nil included (`Ruby.Keyword`).

## Model

| member | source | states |
|---|---|---|
| Ruby.IsBlank | lib/pay/stripe/merchant.rb:71 | a string is blank exactly when every character is Unicode whitespace (the empty string included) |
| Ruby.Present | lib/pay/stripe/merchant.rb:71 | `processor_id.present?` holds exactly when it is non-nil and holds a non-whitespace character |
| Ruby.Merge | lib/pay/stripe/merchant.rb:84-88 | `Hash#merge` (also used at :22, :24, :32, :63 and :74) is shallow: the result has the keys of both hashes, a key of the second hash takes its value there, and every other key keeps its value from the first |
| Ruby.MergeIdempotent | lib/pay/stripe/merchant.rb:84-88 | merging the same update a second time changes nothing |
| Merchant.Stamp | lib/pay/stripe/merchant.rb:24 | stamping a fetched hash adds `updated_at = now` and keeps every other key and value |
| Merchant.UpdateAccountInfo | lib/pay/stripe/merchant.rb:84-88 | missing data counts as empty, so a record without data ends up with exactly the update; keys of the update win; keys absent from the update keep their values; no key is dropped; `processor_id` is not touched |
| Merchant.UpdateAccountInfoIdempotent | lib/pay/stripe/merchant.rb:84-88 | applying `update_account_info!` twice with the same update gives the record that applying it once gives |
| Merchant.CreateAccountParams | lib/pay/stripe/merchant.rb:14-22 | the create request holds the default keys plus the caller's; a caller key replaces the default at top level; untouched defaults stay |
| Merchant.CreateAccountParamsExamples | lib/pay/stripe/merchant.rb:14-22 | no options gives exactly the defaults; `type: "standard"` keeps the default capabilities; a supplied `capabilities` replaces the default map whole |
| Merchant.CreateAccount | lib/pay/stripe/merchant.rb:13-28 | on success, `processor_id` becomes the created account's id, `account_info` becomes its hash plus `updated_at = now`, every other cached key is unchanged, and the account is returned; on a Stripe error the record is unchanged and the wrapped error is raised |
| Merchant.Account | lib/pay/stripe/merchant.rb:30-36 | the retrieve is addressed to `processor_id`; on success only `account_info` changes, to the fetched hash plus `updated_at = now`; the fetched hash is returned without the stamp; `processor_id` is never changed; on a Stripe error the record is unchanged and the wrapped error is raised |
| Merchant.AccountLink | lib/pay/stripe/merchant.rb:38-47 | the link request has exactly the keys `account`, `refresh_url`, `return_url` and `type`, with `type` sent as `account_onboarding` when omitted and as passed otherwise, nil included; the record is never changed; a Stripe error is raised wrapped |
| Merchant.AccountLinkIgnoresOptions | lib/pay/stripe/merchant.rb:38-44 | the extra options of `account_link` change neither the request nor the result |
| Merchant.LoginLink | lib/pay/stripe/merchant.rb:50-54 | the login link is requested for `processor_id`; the record is never changed; a Stripe error is raised wrapped |
| Merchant.LoginLinkIgnoresOptions | lib/pay/stripe/merchant.rb:50-51 | the options of `login_link` change neither the request nor the result |
| Merchant.TransferParams | lib/pay/stripe/merchant.rb:58-63 | the transfer request carries `amount`, `currency` (`usd` when omitted, as passed otherwise, nil included) and `destination = processor_id` unless the options override it; every option key is passed through with its value |
| Merchant.Transfer | lib/pay/stripe/merchant.rb:58-66 | a transfer never changes the record, returns Stripe's transfer object unchanged, and raises a Stripe error wrapped |
| Merchant.Balance | lib/pay/stripe/merchant.rb:70-80 | with a blank or nil `processor_id` it returns nil, makes no call and keeps the record; otherwise on success only `balance` changes, to the payload plus `updated_at = now`, every other key survives, and the payload is returned without the stamp; on a Stripe error the record is unchanged |
| Lifecycle.ApplyWrapsErrors | lib/pay/stripe/merchant.rb:13-80 | every operation reaches Stripe except a guarded `balance`; a call raises exactly when it reached Stripe and Stripe failed, and then raises the one wrapped error carrying the original |
| Lifecycle.ApplyFailureLeavesRecord | lib/pay/stripe/merchant.rb:13-80 | a failed Stripe call leaves the record unchanged in every operation, because each write follows the remote call |
| Lifecycle.ApplyProcessorId | lib/pay/stripe/merchant.rb:13-80 | only a successful `create_account` changes `processor_id`, and it sets it to the created account's id |
| Lifecycle.ApplyCacheAdditive | lib/pay/stripe/merchant.rb:13-88 | no call removes a cached key; only `account_info` and `balance` can be added or changed |
| Lifecycle.ApplyStamps | lib/pay/stripe/merchant.rb:22-77 | every call keeps the cached `account_info` and `balance` entries stamped with an integer `updated_at`; an entry the call writes is stamped with the call's time |
| Lifecycle.RunFailuresLeaveRecord | lib/pay/stripe/merchant.rb:13-80 | a sequence of calls that Stripe all failed leaves the record as it was |
| Lifecycle.RunCacheKeysGrow | lib/pay/stripe/merchant.rb:84-88 | no sequence of calls removes a cached key |
| Lifecycle.RunKeepsOtherKeys | lib/pay/stripe/merchant.rb:84-88 | cached keys other than `account_info` and `balance` keep their values through any sequence of calls |
| Lifecycle.RunStamped | lib/pay/stripe/merchant.rb:22-77 | the cached entries stay stamped through any sequence of calls |
| Lifecycle.RunKeepsProcessorId | lib/pay/stripe/merchant.rb:13-80 | without a successful `create_account`, `processor_id` never changes |
| Lifecycle.RunLastCreateWins | lib/pay/stripe/merchant.rb:22-23 | after a sequence of calls, `processor_id` is the id of the account made by the last successful `create_account` |
| Lifecycle.AccountThenBalance | lib/pay/stripe/merchant.rb:30-77 | a balance refresh after an account refresh keeps the cached account, and each entry carries its own call's time |

## Left out

- The Stripe SDK calls (`Stripe::Account.create`/`retrieve`/`create_login_link`, `Stripe::AccountLink.create`, `Stripe::Transfer.create`, `Stripe::Balance.retrieve`). They are foreign network calls. The model records the request made and takes Stripe's answer as an input. What Stripe does with a nil account id is therefore not modelled.
- ActiveRecord persistence: what `pay_merchant.update` does, its transactions and durability, and any non-Stripe exception it raises. Such exceptions are not rescued by the adapter. An update is modelled as a write that always succeeds.
- The window between the two updates in `create_account` (a failure after `processor_id` is written but before `account_info` is). Persistence failures are outside the model.
- `Time.current`: the time is the parameter `now`.
- Concurrent read-modify-write races on `account_info`. The model is sequential.
- The difference between Ruby symbol and string keys after `account_info.data` is round-tripped through JSON. All keys are strings.
- Floating-point JSON numbers. Stripe's amounts are integers, and `Json` has only integer numbers.
- Stripe.Id: an account without a string `id` is read as nil; Stripe always returns a string id for a created account.
- Merchant.Transfer: `amount` is taken as an integer. Ruby would pass any value through to Stripe.
- Merchant.AccountLink: `refresh_url` and `return_url` are taken as strings. Ruby would pass any value through.
- Rails `delegate` and `present?` beyond "nil or blank". Blankness follows the Unicode White_Space characters that `[[:space:]]` matches. Other objects' `blank?` is not modelled, because `processor_id` is a string or nil.
