/**
 `Pay::Stripe::Merchant`: the adapter between a host merchant record and a
 Stripe Connect account.

 Every operation is a pure function from the record, the answer of the remote
 call (an input, since the call itself is foreign) and the current time `now`
 (epoch seconds) to a `Step`: the record afterwards, the remote call that was
 issued, and the value returned or the error raised.
 */
module Merchant {
  import opened Ruby
  import opened Stripe

  /** The host's `Pay::Merchant` record: its `processor_id` and the `data`
      hash of its `account_info`. `accountInfo` is `None` when the record has
      no `account_info` or its `data` is nil. */
  datatype MerchantRecord = MerchantRecord(processorId: Option<string>, accountInfo: Option<Data>)

  /** `Pay::Stripe::Error`, raised with the rescued Stripe error as its cause. */
  datatype PayError = StripeFailure(cause: StripeError)

  /** How a call ends: a returned value or a raised error. */
  datatype Outcome<+T> = Returned(value: T) | Raised(error: PayError)

  /** The record afterwards, the remote call issued (if any), and the outcome. */
  datatype Step<+T> = Step(record: MerchantRecord, call: Option<Request>, outcome: Outcome<T>)

  const AccountInfoKey: string := "account_info"
  const BalanceKey: string := "balance"
  const UpdatedAtKey: string := "updated_at"
  const DefaultCurrency: string := "usd"
  const DefaultLinkType: string := "account_onboarding"

  /** The defaults `create_account` merges the caller's options over. */
  const CreateAccountDefaults: Data := map[
    "type" := JStr("express"),
    "capabilities" := JObject(map[
      "card_payments" := JObject(map["requested" := JBool(true)]),
      "transfers" := JObject(map["requested" := JBool(true)])
    ])
  ]

  /** `pay_merchant.account_info&.data || {}`: the cached data, or the
      empty hash when the record has none. */
  function Info(rec: MerchantRecord): Data {
    OrElse(rec.accountInfo, map[])
  }

  /** A string that may be nil, as it lands in a request: nil stays nil. */
  function StringOrNil(x: Option<string>): Json {
    match x
    case Some(v) => JStr(v)
    case None => JNull
  }

  /** A string keyword argument as it lands in a request: its default when
      omitted, otherwise what was passed, nil included. */
  function KeywordOrDefault(kw: Keyword<Option<string>>, default: string): Json {
    match kw
    case Omitted => JStr(default)
    case Passed(v) => StringOrNil(v)
  }

  /** `h.merge(updated_at: now)`: the hash with its freshness stamp. */
  function Stamp(h: Data, now: int): (r: Data)
    ensures r.Keys == h.Keys + {UpdatedAtKey}
    ensures r[UpdatedAtKey] == JInt(now)
    ensures forall k :: k in h && k != UpdatedAtKey ==> r[k] == h[k]
  {
    Merge(h, map[UpdatedAtKey := JInt(now)])
  }

  /** The private `update_account_info!`: shallow-merges `upd` over the cached
      data (missing data counts as empty) and writes it back. */
  function UpdateAccountInfo(rec: MerchantRecord, upd: Data): (r: MerchantRecord)
    ensures r.processorId == rec.processorId
    ensures r.accountInfo.Some?
    ensures Info(r).Keys == Info(rec).Keys + upd.Keys
    ensures forall k :: k in upd ==> Info(r)[k] == upd[k]
    ensures forall k :: k in Info(rec) && k !in upd ==> Info(r)[k] == Info(rec)[k]
    ensures rec.accountInfo.None? ==> r.accountInfo == Some(upd)
  {
    assert rec.accountInfo.None? ==> Merge(Info(rec), upd) == upd;
    rec.(accountInfo := Some(Merge(Info(rec), upd)))
  }

  /** Applying the same update twice leaves the record as applying it once. */
  lemma UpdateAccountInfoIdempotent(rec: MerchantRecord, upd: Data)
    ensures UpdateAccountInfo(UpdateAccountInfo(rec, upd), upd) == UpdateAccountInfo(rec, upd)
  {
    MergeIdempotent(Info(rec), upd);
  }

  /** The parameters of `Stripe::Account.create`: `defaults.merge(options)`. */
  function CreateAccountParams(options: Data): (r: Data)
    ensures r.Keys == CreateAccountDefaults.Keys + options.Keys
    ensures forall k :: k in options ==> r[k] == options[k]
    ensures forall k :: k in CreateAccountDefaults && k !in options ==> r[k] == CreateAccountDefaults[k]
  {
    Merge(CreateAccountDefaults, options)
  }

  /** With no options the request is exactly the defaults; overriding `type`
      keeps the default capabilities; a supplied `capabilities` replaces the
      default one whole. */
  lemma CreateAccountParamsExamples(caps: Json)
    ensures CreateAccountParams(map[]) == CreateAccountDefaults
    ensures CreateAccountParams(map["type" := JStr("standard")])
         == map["type" := JStr("standard"), "capabilities" := CreateAccountDefaults["capabilities"]]
    ensures CreateAccountParams(map["capabilities" := caps])
         == map["type" := JStr("express"), "capabilities" := caps]
  {
    assert CreateAccountParams(map[]).Keys == CreateAccountDefaults.Keys;
  }

  /** `create_account(**options)`. */
  function CreateAccount(rec: MerchantRecord, options: Data, remote: Remote, now: int): (s: Step<StripeObject>)
    ensures s.call == Some(AccountCreate(CreateAccountParams(options)))
    ensures remote.Err? ==> s.record == rec && s.outcome == Raised(StripeFailure(remote.error))
    ensures remote.Ok? ==>
      && s.outcome == Returned(remote.payload)
      && s.record.processorId == Id(remote.payload)
      && Info(s.record).Keys == Info(rec).Keys + {AccountInfoKey}
      && Info(s.record)[AccountInfoKey] == JObject(Stamp(ToHash(remote.payload), now))
      && (forall k :: k in Info(rec) && k != AccountInfoKey ==> Info(s.record)[k] == Info(rec)[k])
  {
    var call := AccountCreate(CreateAccountParams(options));
    match remote
    case Err(e) => Step(rec, Some(call), Raised(StripeFailure(e)))
    case Ok(account) =>
      var withId := rec.(processorId := Id(account));
      var updated := UpdateAccountInfo(withId, map[AccountInfoKey := JObject(Stamp(ToHash(account), now))]);
      Step(updated, Some(call), Returned(account))
  }

  /** `account`: retrieves the account and caches it under `account_info`. */
  function Account(rec: MerchantRecord, remote: Remote, now: int): (s: Step<Data>)
    ensures s.call == Some(AccountRetrieve(StringOrNil(rec.processorId)))
    ensures s.record.processorId == rec.processorId
    ensures remote.Err? ==> s.record == rec && s.outcome == Raised(StripeFailure(remote.error))
    ensures remote.Ok? ==>
      && s.outcome == Returned(ToHash(remote.payload))
      && Info(s.record).Keys == Info(rec).Keys + {AccountInfoKey}
      && Info(s.record)[AccountInfoKey] == JObject(Stamp(ToHash(remote.payload), now))
      && (forall k :: k in Info(rec) && k != AccountInfoKey ==> Info(s.record)[k] == Info(rec)[k])
  {
    var call := AccountRetrieve(StringOrNil(rec.processorId));
    match remote
    case Err(e) => Step(rec, Some(call), Raised(StripeFailure(e)))
    case Ok(account) =>
      var info := ToHash(account);
      var updated := UpdateAccountInfo(rec, map[AccountInfoKey := JObject(Stamp(info, now))]);
      Step(updated, Some(call), Returned(info))
  }

  /** `account_link(refresh_url:, return_url:, type:, **options)`. The extra
      options are accepted and dropped. */
  function AccountLink(rec: MerchantRecord, refreshUrl: string, returnUrl: string, linkType: Keyword<Option<string>>,
                       options: Data, remote: Remote): (s: Step<StripeObject>)
    ensures s.record == rec
    ensures s.call.Some? && s.call.value.AccountLinkCreate?
    ensures s.call.value.params.Keys == {"account", "refresh_url", "return_url", "type"}
    ensures s.call.value.params["account"] == StringOrNil(rec.processorId)
    ensures s.call.value.params["refresh_url"] == JStr(refreshUrl)
    ensures s.call.value.params["return_url"] == JStr(returnUrl)
    ensures linkType.Omitted? ==> s.call.value.params["type"] == JStr("account_onboarding")
    ensures linkType.Passed? && linkType.arg.None? ==> s.call.value.params["type"] == JNull
    ensures linkType.Passed? && linkType.arg.Some? ==> s.call.value.params["type"] == JStr(linkType.arg.value)
    ensures remote.Err? ==> s.outcome == Raised(StripeFailure(remote.error))
    ensures remote.Ok? ==> s.outcome == Returned(remote.payload)
  {
    var params := map[
      "account" := StringOrNil(rec.processorId),
      "refresh_url" := JStr(refreshUrl),
      "return_url" := JStr(returnUrl),
      "type" := KeywordOrDefault(linkType, DefaultLinkType)
    ];
    match remote
    case Err(e) => Step(rec, Some(AccountLinkCreate(params)), Raised(StripeFailure(e)))
    case Ok(link) => Step(rec, Some(AccountLinkCreate(params)), Returned(link))
  }

  /** The options of `account_link` make no difference to anything. */
  lemma AccountLinkIgnoresOptions(rec: MerchantRecord, refreshUrl: string, returnUrl: string,
                                  linkType: Keyword<Option<string>>, o1: Data, o2: Data, remote: Remote)
    ensures AccountLink(rec, refreshUrl, returnUrl, linkType, o1, remote)
         == AccountLink(rec, refreshUrl, returnUrl, linkType, o2, remote)
  {
  }

  /** `login_link(**options)`: a single-use Express dashboard link. The
      options are accepted and dropped. */
  function LoginLink(rec: MerchantRecord, options: Data, remote: Remote): (s: Step<StripeObject>)
    ensures s.record == rec
    ensures s.call == Some(LoginLinkCreate(StringOrNil(rec.processorId)))
    ensures remote.Err? ==> s.outcome == Raised(StripeFailure(remote.error))
    ensures remote.Ok? ==> s.outcome == Returned(remote.payload)
  {
    var call := LoginLinkCreate(StringOrNil(rec.processorId));
    match remote
    case Err(e) => Step(rec, Some(call), Raised(StripeFailure(e)))
    case Ok(link) => Step(rec, Some(call), Returned(link))
  }

  /** The options of `login_link` make no difference to anything. */
  lemma LoginLinkIgnoresOptions(rec: MerchantRecord, o1: Data, o2: Data, remote: Remote)
    ensures LoginLink(rec, o1, remote) == LoginLink(rec, o2, remote)
  {
  }

  /** The keyword arguments `transfer` collects into `**options`: Ruby binds
      `amount:` and `currency:` to their own parameters, so `options` never
      holds those two keys. */
  predicate TransferOptions(options: Data) {
    "amount" !in options && "currency" !in options
  }

  /** The parameters of `Stripe::Transfer.create`: the base request
      `{amount, currency, destination: processor_id}` merged with `options`,
      the options winning on a collision. */
  function TransferParams(pid: Option<string>, amount: int, currency: Keyword<Option<string>>, options: Data): (r: Data)
    requires TransferOptions(options)
    ensures r.Keys == {"amount", "currency", "destination"} + options.Keys
    ensures r["amount"] == JInt(amount)
    ensures currency.Omitted? ==> r["currency"] == JStr("usd")
    ensures currency.Passed? && currency.arg.None? ==> r["currency"] == JNull
    ensures currency.Passed? && currency.arg.Some? ==> r["currency"] == JStr(currency.arg.value)
    ensures "destination" !in options ==> r["destination"] == StringOrNil(pid)
    ensures forall k :: k in options ==> r[k] == options[k]
  {
    var base := map[
      "amount" := JInt(amount),
      "currency" := KeywordOrDefault(currency, DefaultCurrency),
      "destination" := StringOrNil(pid)
    ];
    Merge(base, options)
  }

  /** `transfer(amount:, currency: "usd", **options)`: moves funds from the
      platform to this connected account; the record is not touched. */
  function Transfer(rec: MerchantRecord, amount: int, currency: Keyword<Option<string>>, options: Data,
                    remote: Remote): (s: Step<StripeObject>)
    requires TransferOptions(options)
    ensures s.record == rec
    ensures s.call.Some? && s.call.value.TransferCreate?
    ensures s.call.value.params == TransferParams(rec.processorId, amount, currency, options)
    ensures remote.Err? ==> s.outcome == Raised(StripeFailure(remote.error))
    ensures remote.Ok? ==> s.outcome == Returned(remote.payload)
  {
    var call := TransferCreate(TransferParams(rec.processorId, amount, currency, options));
    match remote
    case Err(e) => Step(rec, Some(call), Raised(StripeFailure(e)))
    case Ok(transfer) => Step(rec, Some(call), Returned(transfer))
  }

  /** `balance`: nil without a present `processor_id`; otherwise retrieves
      the connected account's balance and caches it under `balance`. */
  function Balance(rec: MerchantRecord, remote: Remote, now: int): (s: Step<Option<Data>>)
    ensures s.record.processorId == rec.processorId
    ensures !Present(rec.processorId) ==> s == Step(rec, None, Returned(None))
    ensures Present(rec.processorId) ==>
      s.call == Some(BalanceRetrieve(map["stripe_account" := StringOrNil(rec.processorId)]))
    ensures Present(rec.processorId) && remote.Err? ==>
      s.record == rec && s.outcome == Raised(StripeFailure(remote.error))
    ensures Present(rec.processorId) && remote.Ok? ==>
      && s.outcome == Returned(Some(ToHash(remote.payload)))
      && Info(s.record).Keys == Info(rec).Keys + {BalanceKey}
      && Info(s.record)[BalanceKey] == JObject(Stamp(ToHash(remote.payload), now))
      && (forall k :: k in Info(rec) && k != BalanceKey ==> Info(s.record)[k] == Info(rec)[k])
  {
    if !Present(rec.processorId) then
      Step(rec, None, Returned(None))
    else
      var call := BalanceRetrieve(map["stripe_account" := StringOrNil(rec.processorId)]);
      match remote
      case Err(e) => Step(rec, Some(call), Raised(StripeFailure(e)))
      case Ok(balance) =>
        var data := ToHash(balance);
        var updated := UpdateAccountInfo(rec, map[BalanceKey := JObject(Stamp(data, now))]);
        Step(updated, Some(call), Returned(Some(data)))
  }
}
