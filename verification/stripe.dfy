/**
 The Stripe client as the adapter sees it. The remote calls themselves are not
 modelled: each call the adapter makes is described by a `Request`, and what
 Stripe answered is an input `Remote`, either an object or a `StripeError`.
 */
module Stripe {
  import opened Ruby

  /** A `Stripe::StripeObject` (an account, an account link, a login link, a
      transfer or a balance), seen through the hash `to_hash` gives. */
  datatype StripeObject = StripeObject(values: Data)

  /** `obj.to_hash`. */
  function ToHash(obj: StripeObject): Data {
    obj.values
  }

  /** `obj.id`: the string under the object's `id` key. */
  function Id(obj: StripeObject): Option<string> {
    if "id" in obj.values && obj.values["id"].JStr? then Some(obj.values["id"].s) else None
  }

  /** A `Stripe::StripeError` (card, invalid-request, authentication,
      rate-limit, connection, ... errors alike). */
  datatype StripeError = StripeError(kind: string, message: string)

  /** What one remote call answered. */
  datatype Remote = Ok(payload: StripeObject) | Err(error: StripeError)

  /** The remote call the adapter issues, with the arguments it passes. */
  datatype Request =
    | AccountCreate(params: Data)          // Stripe::Account.create(params)
    | AccountRetrieve(id: Json)            // Stripe::Account.retrieve(id)
    | AccountLinkCreate(params: Data)      // Stripe::AccountLink.create(params)
    | LoginLinkCreate(account: Json)       // Stripe::Account.create_login_link(account)
    | TransferCreate(params: Data)         // Stripe::Transfer.create(params)
    | BalanceRetrieve(opts: Data)          // Stripe::Balance.retrieve(opts)
}
