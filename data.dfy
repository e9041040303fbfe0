/**
 * The static reference data of the widget (lib/data.tsx): tokens with their
 * fixed fiat rates, wallets, banks, payment methods and tabs. Icons are
 * presentation only and are not modelled.
 */
module Data {
  /**
   * A selectable entry. `Plain` is a wallet, bank or payment method; `Coin`
   * is a token, which is an entry with a symbol and a rate in naira per unit.
   * Both share `id` and `name`, as every token is also an item of a selector.
   */
  datatype Item =
    | Plain(id: string, name: string)
    | Coin(id: string, name: string, symbol: string, rate: nat)

  /** A token is an item that carries a rate. */
  type Token = i: Item | i.Coin? witness Coin("eth", "ETH", "ETH", 4500000)

  /** The three tabs of the tab bar. */
  datatype Tab = CryptoCash | CashCrypto | Loan

  const Eth: Token := Coin("eth", "ETH", "ETH", 4500000)

  const Tokens: seq<Token> := [
    Eth,
    Coin("usdt-celo", "USDT - CELO", "USDT", 1650),
    Coin("usdt-ton", "USDT - TON", "USDT", 1645),
    Coin("usdt-bnb", "USDT - BNB", "USDT", 1655)
  ]

  const Wallets: seq<Item> := [
    Plain("metamask", "Metamask"),
    Plain("rainbow", "Rainbow"),
    Plain("walletconnect", "WalletConnect"),
    Plain("other", "Other Crypto Wallets (Binance, Coinbase, Bybit etc)")
  ]

  const Banks: seq<Item> := [
    Plain("bank-1", "First Bank"),
    Plain("bank-2", "GTBank"),
    Plain("bank-3", "Access Bank"),
    Plain("bank-4", "UBA"),
    Plain("bank-5", "Zenith Bank")
  ]

  const PaymentMethods: seq<Item> := [Plain("bank-transfer", "Bank")]

  /** The first token, the wizard's initial choice, is ETH at 4,500,000 naira. */
  lemma FirstTokenIsEth()
    ensures Tokens[0] == Eth && Eth.rate == 4500000
  {
  }

  /** No two entries of a list share an id (the lists key their rendered buttons by id). */
  predicate DistinctIds(items: seq<Item>)
  {
    forall i, j :: 0 <= i < j < |items| ==> items[i].id != items[j].id
  }

  /** Every list of the reference data has distinct ids, and every token has a positive rate. */
  lemma ListsHaveDistinctIds()
    ensures DistinctIds(Tokens) && DistinctIds(Wallets) && DistinctIds(Banks) && DistinctIds(PaymentMethods)
    ensures forall i :: 0 <= i < |Tokens| ==> Tokens[i].rate > 0
  {
  }
}
