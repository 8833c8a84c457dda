/** The pair-to-strategy configuration of config/pairs.py. */
module Config {

  const PairStrategyMap: map<string, string> :=
    map["EUR_USD" := "ema_vwap", "GBP_USD" := "bb_breakout", "USD_JPY" := "vwap_rsi"]

  /** `set(PAIR_STRATEGY_MAP.keys())`. */
  function ConfiguredPairs(): (r: set<string>)
    ensures r == {"EUR_USD", "GBP_USD", "USD_JPY"}
  {
    PairStrategyMap.Keys
  }
}
