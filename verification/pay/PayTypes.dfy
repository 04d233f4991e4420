// The records the TSA Pay hooks share: a sell intent, a payout order, an optional field.
module PayTypes {
  import opened Common

  type IntentId = nat
  type OrderId = nat
  type Wallet = nat

  datatype SellIntent = SellIntent(id: IntentId)

  // What the deposit of a payout order moves. Chains and tokens are compared case-insensitively by the
  // source; names here stand for the folded form.
  datatype DepositTerms = DepositTerms(chain: string, token: string, address: Option<string>, amount: Option<Figure>)

  // An amount as the server wrote it, and what it is in the token's base units when it can be read.
  datatype Figure = Figure(text: string, units: Option<nat>)

  datatype PaycrestOrder = PaycrestOrder(
    id: OrderId, awaitingDeposit: bool, claimed: bool, wallet: Wallet, terms: DepositTerms)
}
