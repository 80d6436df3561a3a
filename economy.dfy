/**
 * The coin prices of `economy.ts`: the DSC price of GPC (a manual
 * override, else the S&P 500 daily open from a price feed, else 4000) and
 * the GPC price of a coin, scaled by its hidden multiplier, which is
 * damped towards a value computed from the coin's circulation and stored
 * back on the market row.
 *
 * Decimal arithmetic is exact and written on `real`. `Decimal.log10` is a
 * parameter; the feed's answer is a parameter too (`None` when there is
 * no answer or it cannot be parsed).
 */
module Economy {
  import opened Common

  datatype Market = Market(overrideEnabled: bool, overridePrice: real, hmEnabled: bool, hmValue: real)

  datatype Coin = Coin(basePrice: real, market: Option<Market>)

  datatype Wallet = Wallet(coin: string, balance: real)

  /** A price, or the error the function throws. */
  datatype Price = Price(value: real) | NotConfigured | CoinNotFound

  /** What the price of an S&P 500 point falls back to. */
  const FallbackPrice: real := 4000.0

  /** `fetchDailyOpenSP500`: no key (or an empty one) or no usable answer gives the fallback. */
  function DailyOpen(apiKey: Option<string>, feed: Option<real>): (r: real)
    ensures (apiKey.None? || apiKey == Some("")) ==> r == FallbackPrice
    ensures feed.None? ==> r == FallbackPrice
    ensures apiKey.Some? && apiKey.value != "" && feed.Some? ==> r == feed.value
  {
    if apiKey.None? || apiKey.value == "" then FallbackPrice
    else match feed
      case None => FallbackPrice
      case Some(open) => open
  }

  /** `currentGPCPriceDSC` over the coin table. */
  function CurrentGpcPrice(coins: map<string, Coin>, apiKey: Option<string>, feed: Option<real>): Price
  {
    if "GPC" !in coins || coins["GPC"].market.None? then NotConfigured
    else
      var m := coins["GPC"].market.value;
      if m.overrideEnabled then Price(m.overridePrice)
      else Price(DailyOpen(apiKey, feed))
  }

  /** The override wins over the feed, whatever the feed says. */
  lemma OverrideWins(coins: map<string, Coin>, apiKey: Option<string>, feed: Option<real>, feed2: Option<real>)
    requires "GPC" in coins && coins["GPC"].market.Some? && coins["GPC"].market.value.overrideEnabled
    ensures CurrentGpcPrice(coins, apiKey, feed) == Price(coins["GPC"].market.value.overridePrice)
    ensures CurrentGpcPrice(coins, apiKey, feed) == CurrentGpcPrice(coins, None, feed2)
  {
  }

  /** Without the override the price is the feed's open, or 4000 without a key or an answer. */
  lemma FeedPrice(coins: map<string, Coin>, apiKey: Option<string>, feed: Option<real>)
    requires "GPC" in coins && coins["GPC"].market.Some? && !coins["GPC"].market.value.overrideEnabled
    ensures apiKey.None? || apiKey == Some("") || feed.None? ==> CurrentGpcPrice(coins, apiKey, feed) == Price(4000.0)
    ensures apiKey.Some? && apiKey.value != "" && feed.Some? ==> CurrentGpcPrice(coins, apiKey, feed) == Price(feed.value)
  {
  }

  /** A missing GPC coin or market is an error, never a price. */
  lemma GpcNotConfigured(coins: map<string, Coin>, apiKey: Option<string>, feed: Option<real>)
    ensures CurrentGpcPrice(coins, apiKey, feed) == NotConfigured
        <==> "GPC" !in coins || coins["GPC"].market.None?
  {
  }

  // ---------------------------------------------------------------------
  // The hidden multiplier

  /** `_sum.balance` over the wallets of `coin`, 0 when there are none. */
  function Circulation(ws: seq<Wallet>, coin: string): real
  {
    if ws == [] then 0.0
    else Circulation(ws[..|ws| - 1], coin) + (if ws[|ws| - 1].coin == coin then ws[|ws| - 1].balance else 0.0)
  }

  /** Wallets that hold no negative balance add up to a non-negative circulation. */
  lemma {:induction false} CirculationNonNegative(ws: seq<Wallet>, coin: string)
    requires forall i :: 0 <= i < |ws| ==> ws[i].balance >= 0.0
    ensures Circulation(ws, coin) >= 0.0
  {
    if ws != [] {
      CirculationNonNegative(ws[..|ws| - 1], coin);
    }
  }

  /** The multiplier implied by the circulation: 1 + 0.1 log10(1 + circulation/100). */
  function Computed(circulation: real, log10: real -> real): real
  {
    1.0 + 0.1 * log10(1.0 + circulation / 100.0)
  }

  /** Damping: 0.7 of the stored multiplier plus 0.3 of the computed one. */
  function Damped(hm: real, computed: real): (r: real)
  {
    hm * 0.7 + computed * 0.3
  }

  /**
   * `coinPriceInGPC(symbol)`: the price and the new coin table. With the
   * multiplier enabled the damped value is written to the market row.
   */
  function CoinPrice(coins: map<string, Coin>, ws: seq<Wallet>, symbol: string, log10: real -> real)
    : (Price, map<string, Coin>)
  {
    if symbol !in coins || coins[symbol].market.None? then (CoinNotFound, coins)
    else
      var c := coins[symbol];
      var m := c.market.value;
      if !m.hmEnabled then (Price(c.basePrice * m.hmValue), coins)
      else
        var hm := Damped(m.hmValue, Computed(Circulation(ws, symbol), log10));
        (Price(c.basePrice * hm), coins[symbol := c.(market := Some(m.(hmValue := hm)))])
  }

  /** The damped value lies between the stored and the computed multiplier. */
  lemma DampedBetween(hm: real, computed: real)
    ensures hm <= computed ==> hm <= Damped(hm, computed) <= computed
    ensures computed <= hm ==> computed <= Damped(hm, computed) <= hm
    ensures Damped(hm, computed) - hm == 0.3 * (computed - hm)
  {
  }

  /** A logarithm that is non-negative from 1 on makes the computed multiplier at least 1 for a non-negative circulation. */
  lemma ComputedAtLeastOne(circulation: real, log10: real -> real)
    requires circulation >= 0.0
    requires forall x :: x >= 1.0 ==> log10(x) >= 0.0
    ensures Computed(circulation, log10) >= 1.0
  {
    assert 1.0 + circulation / 100.0 >= 1.0;
  }

  lemma CoinNotFoundUnchanged(coins: map<string, Coin>, ws: seq<Wallet>, symbol: string, log10: real -> real)
    ensures CoinPrice(coins, ws, symbol, log10).0 == CoinNotFound
        <==> symbol !in coins || coins[symbol].market.None?
    ensures CoinPrice(coins, ws, symbol, log10).0 == CoinNotFound ==> CoinPrice(coins, ws, symbol, log10).1 == coins
  {
  }

  /** With the multiplier disabled the price is base times the stored multiplier and nothing is written. */
  lemma MultiplierDisabled(coins: map<string, Coin>, ws: seq<Wallet>, symbol: string, log10: real -> real)
    requires symbol in coins && coins[symbol].market.Some? && !coins[symbol].market.value.hmEnabled
    ensures CoinPrice(coins, ws, symbol, log10)
         == (Price(coins[symbol].basePrice * coins[symbol].market.value.hmValue), coins)
  {
  }

  /**
   * With the multiplier enabled, the stored multiplier moves 30% of the way
   * to the computed one, the price uses the new value, and no other coin
   * and no other market field changes.
   */
  lemma MultiplierEnabled(coins: map<string, Coin>, ws: seq<Wallet>, symbol: string, log10: real -> real)
    requires symbol in coins && coins[symbol].market.Some? && coins[symbol].market.value.hmEnabled
    ensures var (p, coins') := CoinPrice(coins, ws, symbol, log10);
            var m0 := coins[symbol].market.value;
            var computed := Computed(Circulation(ws, symbol), log10);
            && coins'.Keys == coins.Keys
            && (forall s :: s in coins && s != symbol ==> coins'[s] == coins[s])
            && coins'[symbol].basePrice == coins[symbol].basePrice
            && coins'[symbol].market.Some?
            && coins'[symbol].market.value == m0.(hmValue := coins'[symbol].market.value.hmValue)
            && coins'[symbol].market.value.hmValue - m0.hmValue == 0.3 * (computed - m0.hmValue)
            && p == Price(coins[symbol].basePrice * coins'[symbol].market.value.hmValue)
  {
  }

  /** The current multiplier of every coin and market, held as it is in the coin table. */
  class Exchange {
    var coins: map<string, Coin>
    var wallets: seq<Wallet>

    constructor (coins: map<string, Coin>, wallets: seq<Wallet>)
      ensures this.coins == coins && this.wallets == wallets
    {
      this.coins := coins;
      this.wallets := wallets;
    }

    /** `coinPriceInGPC`: reads the coin, damps its multiplier and writes it back. */
    method CoinPriceInGpc(symbol: string, log10: real -> real) returns (r: Price)
      modifies this
      ensures r == CoinPrice(old(coins), old(wallets), symbol, log10).0
      ensures coins == CoinPrice(old(coins), old(wallets), symbol, log10).1
      ensures wallets == old(wallets)
    {
      if symbol !in coins || coins[symbol].market.None? {
        return CoinNotFound;
      }
      var c := coins[symbol];
      var m := c.market.value;
      var hm := m.hmValue;
      if m.hmEnabled {
        var circulation := Circulation(wallets, symbol);
        var computed := 1.0 + 0.1 * log10(1.0 + circulation / 100.0);
        hm := hm * 0.7 + computed * 0.3;
        assert hm == Damped(m.hmValue, Computed(Circulation(wallets, symbol), log10));
        coins := coins[symbol := c.(market := Some(m.(hmValue := hm)))];
      }
      r := Price(c.basePrice * hm);
    }
  }
}
