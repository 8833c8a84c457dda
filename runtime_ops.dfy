/** Heartbeat staleness: whether the worker's last heartbeat is too old. Times are whole seconds
    since the epoch; reading an ISO timestamp is the parameter `parse`. */
module RuntimeOps {
  import opened Wrappers

  /** `stale_threshold_seconds`: the configured threshold, 30 seconds when none is configured. */
  function StaleThresholdSeconds(configured: Option<int>): (t: int)
    ensures configured.None? ==> t == 30
    ensures configured.Some? ==> t == configured.value
  {
    configured.GetOr(30)
  }

  /** `is_heartbeat_stale`: a missing, empty or unreadable heartbeat is stale; otherwise it is
      stale when it is strictly older than the threshold (an explicit one, else the configured). */
  function IsHeartbeatStale(lastHeartbeatAt: Option<string>, now: int, thresholdSeconds: Option<int>,
                            configured: Option<int>, parse: string -> Option<int>): bool
  {
    if lastHeartbeatAt.None? || lastHeartbeatAt.value == "" then true
    else
      var threshold := if thresholdSeconds.Some? then thresholdSeconds.value else StaleThresholdSeconds(configured);
      match parse(lastHeartbeatAt.value)
      case None => true
      case Some(last) => now - last > threshold
  }

  /** Staleness in terms of the heartbeat's age: stale exactly when there is no readable heartbeat
      or its age exceeds the threshold, so a heartbeat exactly `threshold` seconds old is fresh. */
  lemma StaleIff(lastHeartbeatAt: Option<string>, now: int, thresholdSeconds: Option<int>,
                 configured: Option<int>, parse: string -> Option<int>)
    ensures var readable := lastHeartbeatAt.Some? && lastHeartbeatAt.value != "" && parse(lastHeartbeatAt.value).Some?;
      var threshold := thresholdSeconds.GetOr(StaleThresholdSeconds(configured));
      IsHeartbeatStale(lastHeartbeatAt, now, thresholdSeconds, configured, parse) <==>
        !readable || now - parse(lastHeartbeatAt.value).value > threshold
    ensures var readable := lastHeartbeatAt.Some? && lastHeartbeatAt.value != "" && parse(lastHeartbeatAt.value).Some?;
      readable && now - parse(lastHeartbeatAt.value).value == thresholdSeconds.GetOr(StaleThresholdSeconds(configured)) ==>
        !IsHeartbeatStale(lastHeartbeatAt, now, thresholdSeconds, configured, parse)
  {
  }

  /** Without an explicit or configured threshold the default is 30 seconds: a heartbeat 31
      seconds old is stale, one 30 seconds old is not, and a missing one always is. */
  lemma DefaultThreshold(hb: string, last: int, now: int, parse: string -> Option<int>)
    requires hb != "" && parse(hb) == Some(last)
    ensures IsHeartbeatStale(Some(hb), last + 31, None, None, parse)
    ensures !IsHeartbeatStale(Some(hb), last + 30, None, None, parse)
    ensures IsHeartbeatStale(None, now, Some(30), None, parse)
  {
  }
}
