/**
 A merchant record driven through a sequence of adapter calls: the six
 operations of `Pay::Stripe::Merchant` behind one dispatcher, and what holds
 of every call and of every sequence of calls.
 */
module Lifecycle {
  import opened Ruby
  import opened Stripe
  import Merchant

  /** One call on the adapter, with its arguments. */
  datatype Op =
    | CreateAccount(options: Data)
    | FetchAccount
    | AccountLink(refreshUrl: string, returnUrl: string, linkType: Keyword<Option<string>>, options: Data)
    | LoginLink(options: Data)
    | Transfer(amount: int, currency: Keyword<Option<string>>, options: Data)
    | Balance

  /** A call, what Stripe answered it, and the time it ran at. */
  datatype Event = Event(op: Op, remote: Remote, now: int)

  /** Whatever a call returns. */
  datatype Value = ObjectValue(obj: StripeObject) | HashValue(hash: Data) | NilValue

  /** Arguments Ruby can bind: `transfer` never sees `amount` or `currency`
      among its extra options. */
  predicate WellFormed(e: Event) {
    e.op.Transfer? ==> Merchant.TransferOptions(e.op.options)
  }

  predicate AllWellFormed(evs: seq<Event>) {
    forall i :: 0 <= i < |evs| ==> WellFormed(evs[i])
  }

  /** The outcome of a call, with its value wrapped as a `Value`. */
  function Lift<T>(s: Merchant.Step<T>, wrap: T -> Value): Merchant.Step<Value> {
    var outcome := match s.outcome
      case Returned(v) => Merchant.Returned(wrap(v))
      case Raised(err) => Merchant.Raised(err);
    Merchant.Step(s.record, s.call, outcome)
  }

  function OptionToValue(h: Option<Data>): Value {
    match h
    case Some(d) => HashValue(d)
    case None => NilValue
  }

  /** Runs one call against the record. */
  function Apply(rec: Merchant.MerchantRecord, e: Event): Merchant.Step<Value>
    requires WellFormed(e)
  {
    match e.op
    case CreateAccount(options) =>
      Lift(Merchant.CreateAccount(rec, options, e.remote, e.now), o => ObjectValue(o))
    case FetchAccount =>
      Lift(Merchant.Account(rec, e.remote, e.now), h => HashValue(h))
    case AccountLink(refreshUrl, returnUrl, linkType, options) =>
      Lift(Merchant.AccountLink(rec, refreshUrl, returnUrl, linkType, options, e.remote), o => ObjectValue(o))
    case LoginLink(options) =>
      Lift(Merchant.LoginLink(rec, options, e.remote), o => ObjectValue(o))
    case Transfer(amount, currency, options) =>
      Lift(Merchant.Transfer(rec, amount, currency, options, e.remote), o => ObjectValue(o))
    case Balance =>
      Lift(Merchant.Balance(rec, e.remote, e.now), OptionToValue)
  }

  /** The record after a sequence of calls, each seeing the record the
      previous one left. */
  function Run(rec: Merchant.MerchantRecord, evs: seq<Event>): Merchant.MerchantRecord
    requires AllWellFormed(evs)
    decreases |evs|
  {
    if |evs| == 0 then rec else Run(Apply(rec, evs[0]).record, evs[1..])
  }

  /** Whether a call reaches Stripe: all do except `balance` without a present
      `processor_id`. */
  predicate CallsRemote(rec: Merchant.MerchantRecord, op: Op) {
    !(op.Balance? && !Present(rec.processorId))
  }

  /** A call that succeeded in creating an account. */
  predicate CreatesAccount(e: Event) {
    e.op.CreateAccount? && e.remote.Ok?
  }

  /** The cache entries the adapter writes carry an integer `updated_at`. */
  predicate StampedEntry(info: Data, key: string) {
    key in info ==>
      && info[key].JObject?
      && Merchant.UpdatedAtKey in info[key].fields
      && info[key].fields[Merchant.UpdatedAtKey].JInt?
  }

  predicate Stamped(rec: Merchant.MerchantRecord) {
    var info := Merchant.Info(rec);
    StampedEntry(info, Merchant.AccountInfoKey) && StampedEntry(info, Merchant.BalanceKey)
  }

  /** Every Stripe failure surfaces as the one wrapped `Pay::Stripe::Error`
      carrying the original error, and only a call that reached Stripe can
      raise. */
  lemma ApplyWrapsErrors(rec: Merchant.MerchantRecord, e: Event)
    requires WellFormed(e)
    ensures Apply(rec, e).call.Some? <==> CallsRemote(rec, e.op)
    ensures Apply(rec, e).outcome.Raised? <==> CallsRemote(rec, e.op) && e.remote.Err?
    ensures Apply(rec, e).outcome.Raised? ==>
      Apply(rec, e).outcome.error == Merchant.StripeFailure(e.remote.error)
  {
  }

  /** A failed remote call leaves the record exactly as it was: every write
      comes after the call. */
  lemma ApplyFailureLeavesRecord(rec: Merchant.MerchantRecord, e: Event)
    requires WellFormed(e)
    requires e.remote.Err?
    ensures Apply(rec, e).record == rec
  {
  }

  /** Only a successful `create_account` changes `processor_id`, and it sets
      it to the created account's id. */
  lemma ApplyProcessorId(rec: Merchant.MerchantRecord, e: Event)
    requires WellFormed(e)
    ensures CreatesAccount(e) ==> Apply(rec, e).record.processorId == Id(e.remote.payload)
    ensures !CreatesAccount(e) ==> Apply(rec, e).record.processorId == rec.processorId
  {
  }

  /** The cache only grows, and only `account_info` and `balance` may change. */
  lemma ApplyCacheAdditive(rec: Merchant.MerchantRecord, e: Event)
    requires WellFormed(e)
    ensures Merchant.Info(rec).Keys <= Merchant.Info(Apply(rec, e).record).Keys
    ensures Merchant.Info(Apply(rec, e).record).Keys
         <= Merchant.Info(rec).Keys + {Merchant.AccountInfoKey, Merchant.BalanceKey}
    ensures forall k :: k in Merchant.Info(rec) && k != Merchant.AccountInfoKey && k != Merchant.BalanceKey ==>
      Merchant.Info(Apply(rec, e).record)[k] == Merchant.Info(rec)[k]
  {
  }

  /** Every call keeps the cache entries stamped, and an entry it writes is
      stamped with the time of the call. */
  lemma ApplyStamps(rec: Merchant.MerchantRecord, e: Event)
    requires WellFormed(e)
    requires Stamped(rec)
    ensures Stamped(Apply(rec, e).record)
    ensures forall k :: k in {Merchant.AccountInfoKey, Merchant.BalanceKey} ==>
      var info := Merchant.Info(Apply(rec, e).record);
      k in info && (k !in Merchant.Info(rec) || info[k] != Merchant.Info(rec)[k]) ==>
        info[k].fields[Merchant.UpdatedAtKey] == JInt(e.now)
  {
  }

  /** A sequence of calls that all failed at Stripe leaves the record as it
      was. */
  lemma {:induction false} RunFailuresLeaveRecord(rec: Merchant.MerchantRecord, evs: seq<Event>)
    requires AllWellFormed(evs)
    requires forall i :: 0 <= i < |evs| ==> evs[i].remote.Err?
    ensures Run(rec, evs) == rec
    decreases |evs|
  {
    if |evs| > 0 {
      ApplyFailureLeavesRecord(rec, evs[0]);
      RunFailuresLeaveRecord(rec, evs[1..]);
    }
  }

  /** Cached keys are never removed by any sequence of calls. */
  lemma {:induction false} RunCacheKeysGrow(rec: Merchant.MerchantRecord, evs: seq<Event>)
    requires AllWellFormed(evs)
    ensures Merchant.Info(rec).Keys <= Merchant.Info(Run(rec, evs)).Keys
    decreases |evs|
  {
    if |evs| > 0 {
      var next := Apply(rec, evs[0]).record;
      ApplyCacheAdditive(rec, evs[0]);
      RunCacheKeysGrow(next, evs[1..]);
    }
  }

  /** Keys other than `account_info` and `balance` keep their values through
      any sequence of calls. */
  lemma {:induction false} RunKeepsOtherKeys(rec: Merchant.MerchantRecord, evs: seq<Event>, k: string)
    requires AllWellFormed(evs)
    requires k in Merchant.Info(rec) && k != Merchant.AccountInfoKey && k != Merchant.BalanceKey
    ensures k in Merchant.Info(Run(rec, evs))
    ensures Merchant.Info(Run(rec, evs))[k] == Merchant.Info(rec)[k]
    decreases |evs|
  {
    if |evs| > 0 {
      var next := Apply(rec, evs[0]).record;
      ApplyCacheAdditive(rec, evs[0]);
      RunKeepsOtherKeys(next, evs[1..], k);
    }
  }

  /** The cache entries stay stamped through any sequence of calls. */
  lemma {:induction false} RunStamped(rec: Merchant.MerchantRecord, evs: seq<Event>)
    requires AllWellFormed(evs)
    requires Stamped(rec)
    ensures Stamped(Run(rec, evs))
    decreases |evs|
  {
    if |evs| > 0 {
      ApplyStamps(rec, evs[0]);
      RunStamped(Apply(rec, evs[0]).record, evs[1..]);
    }
  }

  /** Without a successful `create_account`, `processor_id` never changes. */
  lemma {:induction false} RunKeepsProcessorId(rec: Merchant.MerchantRecord, evs: seq<Event>)
    requires AllWellFormed(evs)
    requires forall i :: 0 <= i < |evs| ==> !CreatesAccount(evs[i])
    ensures Run(rec, evs).processorId == rec.processorId
    decreases |evs|
  {
    if |evs| > 0 {
      ApplyProcessorId(rec, evs[0]);
      RunKeepsProcessorId(Apply(rec, evs[0]).record, evs[1..]);
    }
  }

  /** After a sequence of calls, `processor_id` is the id of the account the
      last successful `create_account` created. */
  lemma {:induction false} RunLastCreateWins(rec: Merchant.MerchantRecord, evs: seq<Event>, j: nat)
    requires AllWellFormed(evs)
    requires j < |evs| && CreatesAccount(evs[j])
    requires forall i :: j < i < |evs| ==> !CreatesAccount(evs[i])
    ensures Run(rec, evs).processorId == Id(evs[j].remote.payload)
    decreases |evs|
  {
    var next := Apply(rec, evs[0]).record;
    ApplyProcessorId(rec, evs[0]);
    if j == 0 {
      assert forall i :: 0 <= i < |evs[1..]| ==> !CreatesAccount(evs[1..][i]) by {
        forall i | 0 <= i < |evs[1..]|
          ensures !CreatesAccount(evs[1..][i])
        {
          assert evs[1..][i] == evs[i + 1];
        }
      }
      RunKeepsProcessorId(next, evs[1..]);
    } else {
      assert evs[1..][j - 1] == evs[j];
      RunLastCreateWins(next, evs[1..], j - 1);
    }
  }

  /** A balance refresh after an account refresh keeps the cached account,
      and each entry carries its own call's time. */
  lemma AccountThenBalance(rec: Merchant.MerchantRecord, account: StripeObject, balance: StripeObject,
                           t1: int, t2: int)
    requires Present(rec.processorId)
    ensures var r := Run(rec, [Event(FetchAccount, Ok(account), t1), Event(Balance, Ok(balance), t2)]);
      && Merchant.AccountInfoKey in Merchant.Info(r)
      && Merchant.BalanceKey in Merchant.Info(r)
      && Merchant.Info(r)[Merchant.AccountInfoKey] == JObject(Merchant.Stamp(ToHash(account), t1))
      && Merchant.Info(r)[Merchant.BalanceKey] == JObject(Merchant.Stamp(ToHash(balance), t2))
  {
    var evs := [Event(FetchAccount, Ok(account), t1), Event(Balance, Ok(balance), t2)];
    var r1 := Merchant.Account(rec, Ok(account), t1).record;
    var r2 := Merchant.Balance(r1, Ok(balance), t2).record;
    assert Apply(rec, evs[0]).record == r1;
    assert Apply(r1, evs[1]).record == r2;
    assert evs[1..][1..] == [];
    assert Run(r1, evs[1..]) == r2;
    assert Run(rec, evs) == r2;
  }
}
