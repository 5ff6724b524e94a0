/**
 * Stablecoin rates and the traditional-versus-crypto comparison
 * (crypto_rates_scraper.py, `CryptoRatesScraper`). The CoinGecko response
 * and the Binance ticker are parameters: the response is the decoded JSON
 * object in its key order (None when the request failed), the ticker the
 * price Binance returns for a symbol (None when the request failed).
 */
module CryptoRates {
  import opened Wrappers
  import Ascii
  import Ranking

  /** `currency_map`: the tracked currencies and their CoinGecko codes. */
  const CurrencyMap: map<string, string> := map[
    "MXN" := "mxn", "COP" := "cop", "VES" := "ves", "BRL" := "brl",
    "CLP" := "clp", "ARS" := "ars", "PEN" := "pen", "BOB" := "bob"]

  /** `list(currency_map.keys())`, in the dictionary's order. */
  const TrackedCurrencies: seq<string> := ["MXN", "COP", "VES", "BRL", "CLP", "ARS", "PEN", "BOB"]

  /** The coins every merged table and summary lists, in order. */
  const Coins: seq<string> := ["USDT", "USDC"]

  /** `currency_map.get(c, c.lower())`. */
  function Code(currency: string): (code: string)
    ensures currency in CurrencyMap ==> code == CurrencyMap[currency]
    ensures currency !in CurrencyMap ==> code == Ascii.Lower(currency)
  {
    if currency in CurrencyMap then CurrencyMap[currency] else Ascii.Lower(currency)
  }

  // ---------------------------------------------------------------- CoinGecko

  /** One key of the response: a coin id and its price fields. */
  datatype CoinPrices = CoinPrices(id: string, values: map<string, real>)

  /** One entry of the transformed CoinGecko rates. */
  datatype CgQuote = CgQuote(rate: real, change24h: real)

  /** `"USDT" if coin == "tether" else "USDC"`. */
  function CoinName(id: string): (name: string)
    ensures name == "USDT" <==> id == "tether"
    ensures name == "USDT" || name == "USDC"
  {
    if id == "tether" then "USDT" else "USDC"
  }

  /** `values.get(f"{code}_24h_change", 0)`. */
  function Change(values: map<string, real>, code: string): real {
    if code + "_24h_change" in values then values[code + "_24h_change"] else 0.0
  }

  /** The entries of one coin after the inner loop has visited `currencies`. */
  function CoinEntries(values: map<string, real>, currencies: seq<string>): map<string, CgQuote> {
    if |currencies| == 0 then map[]
    else
      var c := currencies[|currencies| - 1];
      var entries := CoinEntries(values, currencies[..|currencies| - 1]);
      if Code(c) in values then entries[c := CgQuote(values[Code(c)], Change(values, Code(c)))] else entries
  }

  /**
   * A coin has an entry for a currency exactly when the currency was asked
   * for and the response holds its code; the entry is that price, with the
   * 24-hour change defaulting to 0.
   */
  lemma {:induction false} CoinEntriesExact(values: map<string, real>, currencies: seq<string>)
    ensures forall c :: c in CoinEntries(values, currencies) <==> c in currencies && Code(c) in values
    ensures forall c :: c in CoinEntries(values, currencies) ==>
      CoinEntries(values, currencies)[c] == CgQuote(values[Code(c)], Change(values, Code(c)))
  {
    if |currencies| > 0 {
      var init := currencies[..|currencies| - 1];
      CoinEntriesExact(values, init);
      assert currencies == init + [currencies[|currencies| - 1]];
    }
  }

  /** The transformed rates after the outer loop has visited `data`. */
  function Transform(data: seq<CoinPrices>, currencies: seq<string>): map<string, map<string, CgQuote>> {
    if |data| == 0 then map[]
    else
      var last := data[|data| - 1];
      Transform(data[..|data| - 1], currencies)[CoinName(last.id) := CoinEntries(last.values, currencies)]
  }

  /** `get_coingecko_rates`: a failed request yields no rates. */
  function CoinGeckoRates(response: Option<seq<CoinPrices>>, currencies: seq<string>): map<string, map<string, CgQuote>> {
    if response.None? then map[] else Transform(response.value, currencies)
  }

  /**
   * The rates of a failed request are empty; otherwise only the two stablecoin
   * names appear, "USDT" exactly when the response has a "tether" key.
   */
  lemma CoinGeckoRatesNames(response: Option<seq<CoinPrices>>, currencies: seq<string>)
    ensures response.None? ==> CoinGeckoRates(response, currencies) == map[]
    ensures forall k :: k in CoinGeckoRates(response, currencies) ==> k == "USDT" || k == "USDC"
    ensures response.Some? ==>
      ("USDT" in CoinGeckoRates(response, currencies) <==> exists i :: 0 <= i < |response.value| && response.value[i].id == "tether")
  {
    if response.Some? {
      TransformNames(response.value, currencies);
      TransformHasTether(response.value, currencies);
    }
  }

  /** Only the two stablecoin names appear. */
  lemma {:induction false} TransformNames(data: seq<CoinPrices>, currencies: seq<string>)
    ensures forall k :: k in Transform(data, currencies) ==> k == "USDT" || k == "USDC"
  {
    if |data| > 0 {
      TransformNames(data[..|data| - 1], currencies);
    }
  }

  /** "USDT" appears exactly when some key of the response is "tether". */
  lemma TransformHasTether(data: seq<CoinPrices>, currencies: seq<string>)
    ensures "USDT" in Transform(data, currencies) <==> exists i :: 0 <= i < |data| && data[i].id == "tether"
  {
    if "USDT" in Transform(data, currencies) {
      TetherWitness(data, currencies);
    } else if exists i :: 0 <= i < |data| && data[i].id == "tether" {
      var i :| 0 <= i < |data| && data[i].id == "tether";
      TetherKept(data, currencies, i);
    }
  }

  /** "USDT" in the rates has a "tether" key behind it. */
  lemma {:induction false} TetherWitness(data: seq<CoinPrices>, currencies: seq<string>)
    requires "USDT" in Transform(data, currencies)
    ensures exists i :: 0 <= i < |data| && data[i].id == "tether"
  {
    var last := data[|data| - 1];
    if last.id == "tether" {
      assert data[|data| - 1].id == "tether";
    } else {
      var init := data[..|data| - 1];
      assert "USDT" in Transform(init, currencies) by {
        assert CoinName(last.id) == "USDC";
      }
      TetherWitness(init, currencies);
      var i :| 0 <= i < |init| && init[i].id == "tether";
      assert data[i].id == "tether";
    }
  }

  /** A "tether" key puts "USDT" in the rates, whatever comes after it. */
  lemma {:induction false} TetherKept(data: seq<CoinPrices>, currencies: seq<string>, i: nat)
    requires i < |data| && data[i].id == "tether"
    ensures "USDT" in Transform(data, currencies)
  {
    var last := data[|data| - 1];
    if i == |data| - 1 {
      assert CoinName(last.id) == "USDT";
    } else {
      var init := data[..|data| - 1];
      assert init[i] == data[i];
      TetherKept(init, currencies, i);
    }
  }

  /**
   * Every key resets its coin's entries: a coin's entries are those of the
   * LAST key of the response that maps to it (any id other than "tether"
   * overwrites "USDC").
   */
  lemma {:induction false} LastKeyWins(data: seq<CoinPrices>, currencies: seq<string>, n: nat)
    requires n < |data|
    requires forall m :: n < m < |data| ==> CoinName(data[m].id) != CoinName(data[n].id)
    ensures CoinName(data[n].id) in Transform(data, currencies)
    ensures Transform(data, currencies)[CoinName(data[n].id)] == CoinEntries(data[n].values, currencies)
  {
    if n < |data| - 1 {
      var init := data[..|data| - 1];
      assert init[n] == data[n];
      LastKeyWins(init, currencies, n);
    }
  }

  /** `get_coingecko_rates` over the decoded response. */
  method GetCoinGeckoRates(response: Option<seq<CoinPrices>>, currencies: seq<string>)
    returns (rates: map<string, map<string, CgQuote>>)
    ensures rates == CoinGeckoRates(response, currencies)
  {
    rates := map[];
    if response.None? {
      return;
    }
    var data := response.value;
    for i := 0 to |data|
      invariant rates == Transform(data[..i], currencies)
    {
      assert data[..i + 1][..i] == data[..i];
      var coinName := CoinName(data[i].id);
      var values := data[i].values;
      var entries: map<string, CgQuote> := map[];
      for j := 0 to |currencies|
        invariant entries == CoinEntries(values, currencies[..j])
      {
        assert currencies[..j + 1][..j] == currencies[..j];
        var code := Code(currencies[j]);
        if code in values {
          entries := entries[currencies[j] := CgQuote(values[code], Change(values, code))];
        }
      }
      assert currencies[..|currencies|] == currencies;
      rates := rates[coinName := entries];
    }
    assert data[..|data|] == data;
  }

  // ---------------------------------------------------------------- Binance

  /** `get_binance_rate`: the price of a symbol, None when the request failed. */
  type Ticker = string -> Option<real>

  /** `if rate:` — a missing price and a price of 0 are both dropped. */
  predicate Truthy(rate: Option<real>) {
    rate.Some? && rate.value != 0.0
  }

  /** One coin's Binance rates after the loop has visited `currencies`. */
  function BinanceEntries(ticker: Ticker, coin: string, currencies: seq<string>): map<string, real> {
    if |currencies| == 0 then map[]
    else
      var c := currencies[|currencies| - 1];
      var entries := BinanceEntries(ticker, coin, currencies[..|currencies| - 1]);
      if Truthy(ticker(coin + c)) then entries[c := ticker(coin + c).value] else entries
  }

  /** A coin has a Binance rate for a currency exactly when the ticker's price for the pair is truthy. */
  lemma {:induction false} BinanceEntriesExact(ticker: Ticker, coin: string, currencies: seq<string>)
    ensures forall c :: c in BinanceEntries(ticker, coin, currencies) <==> c in currencies && Truthy(ticker(coin + c))
    ensures forall c :: c in BinanceEntries(ticker, coin, currencies) ==>
      Truthy(ticker(coin + c)) && BinanceEntries(ticker, coin, currencies)[c] == ticker(coin + c).value
  {
    if |currencies| > 0 {
      var init := currencies[..|currencies| - 1];
      BinanceEntriesExact(ticker, coin, init);
      assert currencies == init + [currencies[|currencies| - 1]];
    }
  }

  /** `get_binance_rates`: both coins are always present. */
  function BinanceRates(ticker: Ticker, currencies: seq<string>): map<string, map<string, real>> {
    map["USDT" := BinanceEntries(ticker, "USDT", currencies), "USDC" := BinanceEntries(ticker, "USDC", currencies)]
  }

  /** `get_binance_rates`, with its loop over currencies and, inside it, over the two coins. */
  method GetBinanceRates(ticker: Ticker, currencies: seq<string>) returns (rates: map<string, map<string, real>>)
    ensures rates == BinanceRates(ticker, currencies)
  {
    rates := map["USDT" := map[], "USDC" := map[]];
    for i := 0 to |currencies|
      invariant rates == BinanceRates(ticker, currencies[..i])
    {
      var currency := currencies[i];
      assert currencies[..i + 1][..i] == currencies[..i];
      for j := 0 to |Coins|
        invariant rates == map[
          "USDT" := BinanceEntries(ticker, "USDT", if 0 < j then currencies[..i + 1] else currencies[..i]),
          "USDC" := BinanceEntries(ticker, "USDC", if 1 < j then currencies[..i + 1] else currencies[..i])]
      {
        var coin := Coins[j];
        var rate := ticker(coin + currency);
        if Truthy(rate) {
          rates := rates[coin := rates[coin][currency := rate.value]];
        }
      }
    }
    assert currencies[..|currencies|] == currencies;
  }

  // ---------------------------------------------------------------- merge

  /** One entry of the combined rates: from CoinGecko, from Binance, or `{"rate": None, "source": "unavailable"}`. */
  datatype Merged =
    | FromCoinGecko(quote: CgQuote)
    | FromBinance(binanceRate: real)
    | Unavailable
  {
    /** The entry's `rate`. */
    function Rate(): Option<real> {
      match this
      case FromCoinGecko(q) => Some(q.rate)
      case FromBinance(r) => Some(r)
      case Unavailable => None
    }
  }

  /** CoinGecko first, then Binance, then unavailable. */
  function Merge(cg: map<string, map<string, CgQuote>>, bn: map<string, map<string, real>>, coin: string, currency: string): (m: Merged)
    ensures m.FromCoinGecko? <==> coin in cg && currency in cg[coin]
    ensures m.FromBinance? <==> !(coin in cg && currency in cg[coin]) && coin in bn && currency in bn[coin]
  {
    if coin in cg && currency in cg[coin] then FromCoinGecko(cg[coin][currency])
    else if coin in bn && currency in bn[coin] then FromBinance(bn[coin][currency])
    else Unavailable
  }

  /** The dictionary `get_all_rates` returns. */
  datatype CombinedRates = CombinedRates(timestamp: string, source: string, rates: map<string, map<string, Merged>>)

  /** The currencies `get_all_rates` uses: the given ones, or the eight tracked ones. */
  function CurrenciesOrDefault(currencies: Option<seq<string>>): seq<string> {
    currencies.GetOr(TrackedCurrencies)
  }

  /** The merged entry for one coin and currency, from the two raw sources. */
  function MergedEntry(response: Option<seq<CoinPrices>>, ticker: Ticker, currencies: seq<string>, coin: string, currency: string): Merged {
    Merge(CoinGeckoRates(response, currencies), BinanceRates(ticker, currencies), coin, currency)
  }

  /**
   * An entry is unavailable exactly when CoinGecko has no price for it and
   * Binance's price for the pair is missing or 0; a Binance entry carries
   * Binance's non-zero price.
   */
  lemma MergedEntrySources(response: Option<seq<CoinPrices>>, ticker: Ticker, currencies: seq<string>, coin: string, currency: string)
    requires coin in Coins && currency in currencies
    ensures var m := MergedEntry(response, ticker, currencies, coin, currency);
      var cg := CoinGeckoRates(response, currencies);
      && (m.Unavailable? <==> !(coin in cg && currency in cg[coin]) && !Truthy(ticker(coin + currency)))
      && (m.FromBinance? ==> m.binanceRate == ticker(coin + currency).value != 0.0)
      && (m.Rate().None? <==> m.Unavailable?)
  {
    BinanceEntriesExact(ticker, coin, currencies);
  }

  /** One coin's merged entries after the inner loop has visited `currencies`. */
  function MergedRow(cg: map<string, map<string, CgQuote>>, bn: map<string, map<string, real>>, coin: string, currencies: seq<string>)
    : map<string, Merged>
  {
    if |currencies| == 0 then map[]
    else
      var c := currencies[|currencies| - 1];
      MergedRow(cg, bn, coin, currencies[..|currencies| - 1])[c := Merge(cg, bn, coin, c)]
  }

  /** A coin's row has exactly the requested currencies, each merged from the two sources. */
  lemma {:induction false} MergedRowExact(cg: map<string, map<string, CgQuote>>, bn: map<string, map<string, real>>, coin: string, currencies: seq<string>)
    ensures forall c :: c in MergedRow(cg, bn, coin, currencies) <==> c in currencies
    ensures forall c :: c in MergedRow(cg, bn, coin, currencies) ==> MergedRow(cg, bn, coin, currencies)[c] == Merge(cg, bn, coin, c)
  {
    if |currencies| > 0 {
      var init := currencies[..|currencies| - 1];
      MergedRowExact(cg, bn, coin, init);
      assert currencies == init + [currencies[|currencies| - 1]];
    }
  }

  /** The `rates` entry of `get_all_rates`: one row per stablecoin. */
  function AllRates(response: Option<seq<CoinPrices>>, ticker: Ticker, currencies: seq<string>): map<string, map<string, Merged>> {
    var cg := CoinGeckoRates(response, currencies);
    var bn := BinanceRates(ticker, currencies);
    map["USDT" := MergedRow(cg, bn, "USDT", currencies), "USDC" := MergedRow(cg, bn, "USDC", currencies)]
  }

  /**
   * `get_all_rates` yields exactly one entry per stablecoin and requested
   * currency, each the merge of the two sources.
   */
  lemma AllRatesExact(response: Option<seq<CoinPrices>>, ticker: Ticker, currencies: seq<string>)
    ensures forall coin :: coin in AllRates(response, ticker, currencies) <==> coin in Coins
    ensures forall coin, c :: coin in AllRates(response, ticker, currencies) ==>
      (c in AllRates(response, ticker, currencies)[coin] <==> c in currencies)
    ensures forall coin, c :: coin in AllRates(response, ticker, currencies) && c in AllRates(response, ticker, currencies)[coin] ==>
      AllRates(response, ticker, currencies)[coin][c] == MergedEntry(response, ticker, currencies, coin, c)
  {
    var cg := CoinGeckoRates(response, currencies);
    var bn := BinanceRates(ticker, currencies);
    MergedRowExact(cg, bn, "USDT", currencies);
    MergedRowExact(cg, bn, "USDC", currencies);
  }

  /** The inner loop of `get_all_rates`: one coin's row. */
  method MergeRow(cg: map<string, map<string, CgQuote>>, bn: map<string, map<string, real>>, coin: string, cs: seq<string>)
    returns (row: map<string, Merged>)
    ensures row == MergedRow(cg, bn, coin, cs)
  {
    row := map[];
    for i := 0 to |cs|
      invariant row == MergedRow(cg, bn, coin, cs[..i])
    {
      assert cs[..i + 1][..i] == cs[..i];
      row := row[cs[i] := Merge(cg, bn, coin, cs[i])];
    }
    assert cs[..|cs|] == cs;
  }

  /** `get_all_rates`: the sources fetched for the currencies asked for (all eight by default), then merged. */
  method GetAllRates(currencies: Option<seq<string>>, response: Option<seq<CoinPrices>>, ticker: Ticker, now: string)
    returns (combined: CombinedRates)
    ensures combined == CombinedRates(now, "multi", AllRates(response, ticker, CurrenciesOrDefault(currencies)))
  {
    var cs := CurrenciesOrDefault(currencies);
    var cg := GetCoinGeckoRates(response, cs);
    var bn := GetBinanceRates(ticker, cs);
    var rates: map<string, map<string, Merged>> := map[];
    for j := 0 to |Coins|
      invariant rates == if j == 0 then map[] else if j == 1 then map["USDT" := MergedRow(cg, bn, "USDT", cs)]
                         else AllRates(response, ticker, cs)
    {
      var coin := Coins[j];
      var row := MergeRow(cg, bn, coin, cs);
      rates := rates[coin := row];
    }
    combined := CombinedRates(now, "multi", rates);
  }

  // ---------------------------------------------------------------- summary

  /** How many of `currencies` have a rate in one coin's merged entries. */
  function AvailableCount(row: map<string, Merged>, currencies: seq<string>): (n: nat)
    requires forall c :: c in currencies ==> c in row
    ensures n <= |currencies|
  {
    if |currencies| == 0 then 0
    else
      var c := currencies[|currencies| - 1];
      AvailableCount(row, currencies[..|currencies| - 1]) + (if row[c].Rate().Some? then 1 else 0)
  }

  /** No currency available means no coverage. */
  lemma {:induction false} AvailableCountNone(row: map<string, Merged>, currencies: seq<string>)
    requires forall c :: c in currencies ==> c in row
    ensures AvailableCount(row, currencies) == 0 <==> forall c :: c in currencies ==> row[c].Unavailable?
  {
    if |currencies| > 0 {
      var init := currencies[..|currencies| - 1];
      AvailableCountNone(row, init);
      assert forall c :: c in currencies <==> c in init || c == currencies[|currencies| - 1];
    }
  }

  /** Every currency available means full coverage. */
  lemma {:induction false} AvailableCountAll(row: map<string, Merged>, currencies: seq<string>)
    requires forall c :: c in currencies ==> c in row
    ensures AvailableCount(row, currencies) == |currencies| <==> forall c :: c in currencies ==> !row[c].Unavailable?
  {
    if |currencies| > 0 {
      var init := currencies[..|currencies| - 1];
      AvailableCountAll(row, init);
      assert forall c :: c in currencies <==> c in init || c == currencies[|currencies| - 1];
    }
  }

  /** One coin's entry of `rates_by_coin`. */
  datatype Coverage = Coverage(availableCurrencies: nat, totalCurrencies: nat, coveragePct: real)

  /** The dictionary `get_crypto_summary` returns. */
  datatype Summary = Summary(timestamp: string, stablecoins: seq<string>, currenciesTracked: nat, ratesByCoin: map<string, Coverage>)

  /** The counting loop of `get_crypto_summary` over one coin's entries. */
  method CountAvailable(row: map<string, Merged>, currencies: seq<string>) returns (available: nat)
    requires forall c :: c in currencies ==> c in row
    ensures available == AvailableCount(row, currencies)
  {
    available := 0;
    for i := 0 to |currencies|
      invariant available == AvailableCount(row, currencies[..i])
    {
      assert currencies[..i + 1][..i] == currencies[..i];
      if row[currencies[i]].Rate().Some? {
        available := available + 1;
      }
    }
    assert currencies[..|currencies|] == currencies;
  }

  /** What `get_crypto_summary` reports for one coin of the default rate table. */
  function CoverageOf(response: Option<seq<CoinPrices>>, ticker: Ticker, coin: string): (cov: Coverage)
    requires coin in Coins
    ensures cov.totalCurrencies == 8 && cov.availableCurrencies <= 8
    ensures cov.coveragePct == cov.availableCurrencies as real / 8.0 * 100.0
  {
    AllRatesExact(response, ticker, TrackedCurrencies);
    var n := AvailableCount(AllRates(response, ticker, TrackedCurrencies)[coin], TrackedCurrencies);
    Coverage(n, 8, n as real / 8.0 * 100.0)
  }

  /**
   * The coverage is a percentage between 0 and 100; it is 0 exactly when no
   * tracked currency has a rate from either source, and 100 exactly when
   * every one has.
   */
  lemma CoverageBounds(response: Option<seq<CoinPrices>>, ticker: Ticker, coin: string)
    requires coin in Coins
    ensures 0.0 <= CoverageOf(response, ticker, coin).coveragePct <= 100.0
    ensures CoverageOf(response, ticker, coin).availableCurrencies == 0 <==>
      forall c :: c in TrackedCurrencies ==> MergedEntry(response, ticker, TrackedCurrencies, coin, c).Unavailable?
    ensures CoverageOf(response, ticker, coin).availableCurrencies == 8 <==>
      forall c :: c in TrackedCurrencies ==> !MergedEntry(response, ticker, TrackedCurrencies, coin, c).Unavailable?
  {
    AllRatesExact(response, ticker, TrackedCurrencies);
    AvailableCountNone(AllRates(response, ticker, TrackedCurrencies)[coin], TrackedCurrencies);
    AvailableCountAll(AllRates(response, ticker, TrackedCurrencies)[coin], TrackedCurrencies);
  }

  /** One pass of the loop of `get_crypto_summary`: count one coin's row of the default table. */
  method CoverageFor(response: Option<seq<CoinPrices>>, ticker: Ticker, coin: string, row: map<string, Merged>) returns (cov: Coverage)
    requires coin in Coins
    requires row == AllRates(response, ticker, TrackedCurrencies)[coin]
    ensures cov == CoverageOf(response, ticker, coin)
  {
    AllRatesExact(response, ticker, TrackedCurrencies);
    var available := CountAvailable(row, TrackedCurrencies);
    cov := Coverage(available, 8, available as real / 8.0 * 100.0);
  }

  /** `get_crypto_summary`: for each stablecoin, how many tracked currencies have a rate. */
  method GetCryptoSummary(response: Option<seq<CoinPrices>>, ticker: Ticker, now: string) returns (s: Summary)
    ensures s == Summary(now, Coins, 8, map["USDT" := CoverageOf(response, ticker, "USDT"), "USDC" := CoverageOf(response, ticker, "USDC")])
  {
    var combined := GetAllRates(None, response, ticker, now);
    var byCoin: map<string, Coverage> := map[];
    for j := 0 to |Coins|
      invariant byCoin == if j == 0 then map[] else if j == 1 then map["USDT" := CoverageOf(response, ticker, "USDT")]
                          else map["USDT" := CoverageOf(response, ticker, "USDT"), "USDC" := CoverageOf(response, ticker, "USDC")]
    {
      var coin := Coins[j];
      var cov := CoverageFor(response, ticker, coin, combined.rates[coin]);
      byCoin := byCoin[coin := cov];
    }
    s := Summary(combined.timestamp, Coins, 8, byCoin);
  }

  // ---------------------------------------------------------------- comparison

  /** One traditional provider's entry: each key may be missing. */
  datatype TradQuote = TradQuote(totalCost: Option<real>, rate: Option<real>, fee: Option<real>)

  /** `x[1].get("total_cost", float("inf"))`. */
  function CostKey(q: TradQuote): Ranking.Key {
    if q.totalCost.Some? then Ranking.Finite(q.totalCost.value) else Ranking.Infinity
  }

  function CostKeys(traditional: seq<(string, TradQuote)>): (keys: seq<Ranking.Key>)
    ensures |keys| == |traditional|
    ensures forall i :: 0 <= i < |traditional| ==> keys[i] == CostKey(traditional[i].1)
  {
    seq(|traditional|, i requires 0 <= i < |traditional| => CostKey(traditional[i].1))
  }

  datatype Winner = Crypto | Traditional

  datatype TradSide = TradSide(bestProvider: string, exchangeRate: real, feeUsd: real, recipientReceives: real)
  datatype CryptoSide = CryptoSide(rate: real, feeUsd: real, recipientReceives: real)
  datatype Difference = Difference(amount: real, percentage: real)

  /** The keys of the comparison besides `amount_usd`, `timestamp` and `country`. */
  datatype Verdict =
    | Failed(error: string)
    | Compared(traditional: TradSide, crypto: CryptoSide, winner: Winner, difference: Difference)

  datatype Comparison = Comparison(amountUsd: real, timestamp: string, country: string, verdict: Verdict)

  /** `crypto_rates.get("rates", {}).get("USDT", {}).get(country.upper(), {}).get("rate")`. */
  function UsdtRate(cryptoRates: map<string, map<string, Merged>>, country: string): Option<real> {
    var key := Ascii.Upper(country);
    if "USDT" in cryptoRates && key in cryptoRates["USDT"] then cryptoRates["USDT"][key].Rate() else None
  }

  /** What the recipient gets through the traditional provider: `(amount - fee) * rate`, or 0 without a positive rate. */
  function TradReceived(amount: real, q: TradQuote): real {
    var rate := q.rate.GetOr(0.0);
    if rate > 0.0 then (amount - q.fee.GetOr(0.0)) * rate else 0.0
  }

  /** `compare_with_traditional`, before rounding. */
  function CompareWithTraditional(country: string, traditional: seq<(string, TradQuote)>,
                                  cryptoRates: map<string, map<string, Merged>>, amount: real, now: string): (c: Comparison)
    ensures c.amountUsd == amount && c.country == country && c.timestamp == now
    ensures |traditional| == 0 ==> c.verdict == Failed("No traditional rates available")
    ensures |traditional| > 0 && !Truthy(UsdtRate(cryptoRates, country)) ==>
      c.verdict == Failed("No crypto rate available for " + country)
    ensures c.verdict.Compared? <==> |traditional| > 0 && Truthy(UsdtRate(cryptoRates, country))
  {
    if |traditional| == 0 then Comparison(amount, now, country, Failed("No traditional rates available"))
    else
      var k := Ranking.FirstMinIndex(CostKeys(traditional));
      var (provider, q) := traditional[k];
      var cryptoRate := UsdtRate(cryptoRates, country);
      if Truthy(cryptoRate) then
        var cryptoReceived := amount * cryptoRate.value;
        var tradReceived := TradReceived(amount, q);
        var difference := cryptoReceived - tradReceived;
        var pct := if tradReceived > 0.0 then difference / tradReceived * 100.0 else 0.0;
        Comparison(amount, now, country, Compared(
          TradSide(provider, q.rate.GetOr(0.0), q.fee.GetOr(0.0), tradReceived),
          CryptoSide(cryptoRate.value, 0.0, cryptoReceived),
          if difference > 0.0 then Crypto else Traditional,
          Difference(difference, pct)))
      else Comparison(amount, now, country, Failed("No crypto rate available for " + country))
  }

  /**
   * The traditional side is the first provider of least total cost (a
   * missing total cost counts as infinite), with its rate and fee read as 0
   * when missing.
   */
  lemma BestTraditionalIsFirstCheapest(country: string, traditional: seq<(string, TradQuote)>,
                                       cryptoRates: map<string, map<string, Merged>>, amount: real, now: string)
    requires CompareWithTraditional(country, traditional, cryptoRates, amount, now).verdict.Compared?
    ensures var t := CompareWithTraditional(country, traditional, cryptoRates, amount, now).verdict.traditional;
      exists k :: 0 <= k < |traditional| && traditional[k].0 == t.bestProvider
        && t.exchangeRate == traditional[k].1.rate.GetOr(0.0)
        && t.feeUsd == traditional[k].1.fee.GetOr(0.0)
        && t.recipientReceives == TradReceived(amount, traditional[k].1)
        && (forall i :: 0 <= i < |traditional| ==> Ranking.AtMost(CostKey(traditional[k].1), CostKey(traditional[i].1)))
        && (forall i :: 0 <= i < k ==> Ranking.Below(CostKey(traditional[k].1), CostKey(traditional[i].1)))
  {
    var keys := CostKeys(traditional);
    var k := Ranking.FirstMinIndex(keys);
    assert forall i :: 0 <= i < |traditional| ==> keys[i] == CostKey(traditional[i].1);
  }

  /**
   * The crypto side converts the whole amount at the USDT rate with no fee;
   * the difference is what crypto delivers beyond the traditional provider,
   * and crypto wins exactly when that is positive (a tie goes to the
   * traditional provider).
   */
  lemma WinnerIffCryptoDeliversMore(country: string, traditional: seq<(string, TradQuote)>,
                                    cryptoRates: map<string, map<string, Merged>>, amount: real, now: string)
    requires CompareWithTraditional(country, traditional, cryptoRates, amount, now).verdict.Compared?
    ensures var v := CompareWithTraditional(country, traditional, cryptoRates, amount, now).verdict;
      && v.crypto.rate == UsdtRate(cryptoRates, country).value
      && v.crypto.recipientReceives == amount * v.crypto.rate
      && v.crypto.feeUsd == 0.0
      && v.difference.amount == v.crypto.recipientReceives - v.traditional.recipientReceives
      && (v.winner == Crypto <==> v.crypto.recipientReceives > v.traditional.recipientReceives)
  {
  }

  /**
   * The percentage has the sign of the difference when the traditional
   * provider delivers something, and is 0 otherwise.
   */
  lemma PercentageFollowsWinner(country: string, traditional: seq<(string, TradQuote)>,
                                cryptoRates: map<string, map<string, Merged>>, amount: real, now: string)
    requires CompareWithTraditional(country, traditional, cryptoRates, amount, now).verdict.Compared?
    ensures var v := CompareWithTraditional(country, traditional, cryptoRates, amount, now).verdict;
      && (v.traditional.recipientReceives <= 0.0 ==> v.difference.percentage == 0.0)
      && (v.traditional.recipientReceives > 0.0 ==>
            (v.difference.percentage > 0.0 <==> v.winner == Crypto)
            && v.difference.percentage * v.traditional.recipientReceives == v.difference.amount * 100.0)
  {
    var v := CompareWithTraditional(country, traditional, cryptoRates, amount, now).verdict;
    var t := v.traditional.recipientReceives;
    var d := v.difference.amount;
    if t > 0.0 {
      assert v.difference.percentage == d / t * 100.0;
      assert d / t * t == d;
      if d > 0.0 {
        assert d / t > 0.0;
      } else {
        assert d / t <= 0.0;
      }
    }
  }
}
