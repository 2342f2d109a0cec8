/**
 The gas price a vote is sent with.  Prices are wei, as integers; the factors 1.5, 1.013 and 1.03
 are exact fractions.
 */
module GasPrice {

  const ETH_MAIN_NET := 1
  const GWEI := 1_000_000_000
  const TRUSTED_ABOVE := 25 * GWEI

  // Math.round(n / d), halves up, and Math.ceil(n / d).
  function Round(n: int, d: int): int
    requires d > 0
  {
    (2 * n + d) / (2 * d)
  }

  function Ceil(n: int, d: int): int
    requires d > 0
  {
    (n + d - 1) / d
  }

  // What the gas oracle replies: its proposed and its fast price.
  datatype Oracle = Oracle(propose: int, fast: int)

  // The node's own price with half added.
  function UsePrice(nodePrice: int): int {
    if nodePrice <= 1 then 1 else Round(3 * nodePrice, 2)
  }

  // The fast price with a margin of 1.3 percent.
  function FastPlus(oracle: Oracle): int {
    Ceil(1013 * oracle.fast, 1000)
  }

  function EthGasPrice(chainId: int, nodePrice: int, oracle: Oracle): int {
    var use := UsePrice(nodePrice);
    if chainId == ETH_MAIN_NET then
      if oracle.fast >= nodePrice && use >= oracle.fast then FastPlus(oracle)
      else if use <= TRUSTED_ABOVE then FastPlus(oracle)
      else if oracle.propose >= nodePrice && oracle.propose >= use && oracle.propose < use * 5 then
        if oracle.fast < use * 5 then FastPlus(oracle) else oracle.propose + 5 * GWEI
      else use
    else use
  }

  function RskGasPrice(minimum: int): int {
    if minimum <= 1 then 1 else Round(103 * minimum, 100)
  }

  // Fractions rounded either way stay within one of the exact value.
  lemma Rounding(n: int, d: int)
    requires d > 0
    ensures 2 * n - d < 2 * d * Round(n, d) <= 2 * n + d
    ensures n <= d * Ceil(n, d) < n + d
  {
  }

  lemma FastPlusIsMonotone(a: Oracle, b: Oracle)
    requires a.fast <= b.fast
    ensures FastPlus(a) <= FastPlus(b)
    ensures a.fast >= 0 ==> FastPlus(a) >= a.fast
  {
  }

  lemma UsePriceCoversNode(nodePrice: int)
    ensures UsePrice(nodePrice) >= nodePrice && UsePrice(nodePrice) >= 1
  {
  }

  // `use` is the node's price and a half, to the nearest wei, halves up, and at least 1.
  predicate HalfMore(nodePrice: int, use: int) {
    if nodePrice <= 1 then use == 1 else 3 * nodePrice <= 2 * use <= 3 * nodePrice + 1
  }

  // `price` is the fast price and 1.3 percent of it, rounded up.
  predicate WithMargin(fast: int, price: int) {
    1013 * fast <= 1000 * price < 1013 * fast + 1000
  }

  // Main result: what is paid on the main net, case by case on what the node and the oracle say.  The
  // fast price is taken when it lies between the node's price and that and a half, or when the node's
  // is too low to be trusted; otherwise the oracle is believed only when its proposed price is at least
  // the node's and a half and less than five times that.
  lemma PriceIs(nodePrice: int, use: int, oracle: Oracle)
    requires HalfMore(nodePrice, use)
    ensures var price := EthGasPrice(1, nodePrice, oracle);
            if nodePrice <= oracle.fast <= use || use <= 25_000_000_000 then WithMargin(oracle.fast, price)
            else if use <= oracle.propose < 5 * use then
              if oracle.fast < 5 * use then WithMargin(oracle.fast, price)
              else price == oracle.propose + 5_000_000_000
            else price == use
  {
  }

  // Off the main net it is the node's price and a half.
  lemma PriceOffMainNetIs(chainId: int, nodePrice: int, use: int, oracle: Oracle)
    requires HalfMore(nodePrice, use) && chainId != 1
    ensures EthGasPrice(chainId, nodePrice, oracle) == use
  {
  }

  // The most that can be asked for: five times the price in use, with the margin or 5 gwei on top.
  function Cap(nodePrice: int): int {
    var use := UsePrice(nodePrice);
    var withMargin, withTip := Ceil(1013 * 5 * use, 1000), 5 * use + 5 * GWEI;
    if withMargin >= withTip then withMargin else withTip
  }

  lemma CappedWhenTrusted(nodePrice: int, oracle: Oracle)
    requires UsePrice(nodePrice) > TRUSTED_ABOVE
    ensures EthGasPrice(ETH_MAIN_NET, nodePrice, oracle) <= Cap(nodePrice)
  {
  }

  // Main result: no reply of the oracle can push the price above the cap exactly when the node's own
  // price is high enough to be trusted.
  lemma PriceIsCappedExactlyWhen(nodePrice: int)
    ensures UsePrice(nodePrice) > TRUSTED_ABOVE
            <==> forall oracle: Oracle :: EthGasPrice(ETH_MAIN_NET, nodePrice, oracle) <= Cap(nodePrice)
  {
    if UsePrice(nodePrice) > TRUSTED_ABOVE {
      forall oracle: Oracle
        ensures EthGasPrice(ETH_MAIN_NET, nodePrice, oracle) <= Cap(nodePrice)
      {
        CappedWhenTrusted(nodePrice, oracle);
      }
    } else {
      UsePriceCoversNode(nodePrice);
      var high := Oracle(0, Cap(nodePrice) + 1);
      Rounding(1013 * 5 * UsePrice(nodePrice), 1000);
      FastPlusIsMonotone(high, high);
      assert EthGasPrice(ETH_MAIN_NET, nodePrice, high) > Cap(nodePrice);
    }
  }

  // On the main net the price falls below the node's own only when the oracle's fast price is lower
  // still and is the one taken: because the node's price is too low to be trusted, or because the
  // proposed price is in its window.
  lemma PriceFallsShortExactlyWhen(nodePrice: int, oracle: Oracle)
    requires oracle.fast >= 0
    ensures EthGasPrice(ETH_MAIN_NET, nodePrice, oracle) < nodePrice
            <==> FastPlus(oracle) < nodePrice
                 && (UsePrice(nodePrice) <= TRUSTED_ABOVE
                     || UsePrice(nodePrice) <= oracle.propose < 5 * UsePrice(nodePrice))
  {
  }

  // So an oracle whose fast price is not below its proposed one never makes a trusted node's price
  // fall short.
  lemma NeverBelowTrustedNode(nodePrice: int, oracle: Oracle)
    requires UsePrice(nodePrice) > TRUSTED_ABOVE && oracle.fast >= oracle.propose && oracle.fast >= 0
    ensures EthGasPrice(ETH_MAIN_NET, nodePrice, oracle) >= nodePrice
  {
  }

  // Off the main net the oracle has no say: the price is the node's and half as much again, to the
  // nearest wei, and rises with it.
  lemma OffMainNet(chainId: int, low: int, high: int, oracle: Oracle, other: Oracle)
    requires chainId != ETH_MAIN_NET && low <= high
    ensures EthGasPrice(chainId, low, oracle) <= EthGasPrice(chainId, high, other)
    ensures 1 <= low ==> 3 * low - 1 <= 2 * EthGasPrice(chainId, low, oracle) <= 3 * low + 1
  {
  }

  // On RSK the price is never below the block's minimum, and is 3 percent above it, rounded.
  lemma RskPriceCoversMinimum(minimum: int)
    ensures RskGasPrice(minimum) >= minimum && RskGasPrice(minimum) >= 1
    ensures minimum <= 1 ==> RskGasPrice(minimum) == 1
    ensures minimum > 1 ==> 103 * minimum - 50 < 100 * RskGasPrice(minimum) <= 103 * minimum + 50
  {
  }
}
