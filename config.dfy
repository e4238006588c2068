/** The manager's policy object (satoken/config.go). */
module Configs {

  /** One minute as a Go `time.Duration`, which counts nanoseconds. */
  const Minute: int := 60_000_000_000

  /** The policy branch that `genTokenValue` takes for a login. */
  datatype LoginPolicy =
    | ReplacePrevious   // IsConcurrent == false: the device's older tokens are replaced
    | ShareExisting     // IsConcurrent && IsShare: an existing token of the device is reused
    | AlwaysFresh       // IsConcurrent && !IsShare: every login gets its own token

  /** Durations are nanosecond counts, as `time.Duration`. */
  datatype Config = Config(
    tokenName: string,
    timeout: int,
    activeTimeout: int,
    isConcurrent: bool,
    isShare: bool,
    tokenStyle: string,
    maxLoginCount: int,
    maxTryTimes: int,
    dataRefreshPeriod: int,
    autoRenew: bool)
  {
    /** Which branch a login under this configuration runs. */
    function Policy(): (p: LoginPolicy)
      ensures p == ReplacePrevious <==> !isConcurrent
      ensures p == ShareExisting <==> isConcurrent && isShare
      ensures p == AlwaysFresh <==> isConcurrent && !isShare
    {
      if !isConcurrent then ReplacePrevious
      else if isShare then ShareExisting
      else AlwaysFresh
    }
  }

  /** `NewDefaultConfig`: every field not named in the literal is Go's zero value. */
  function NewDefaultConfig(): (c: Config)
    ensures c.tokenName == "satoken" && c.tokenStyle == "uuid"
    ensures c.timeout == 30 * Minute && c.activeTimeout == -1
    ensures !c.isConcurrent && !c.isShare && !c.autoRenew
    ensures c.maxLoginCount == 0 && c.maxTryTimes == 0 && c.dataRefreshPeriod == 0
  {
    Config("satoken", 30 * Minute, -1, false, false, "uuid", 0, 0, 0, false)
  }

  /** A manager built with the defaults replaces the device's older token on every login. */
  lemma DefaultPolicyReplaces()
    ensures NewDefaultConfig().Policy() == ReplacePrevious
    ensures NewDefaultConfig().timeout > 0
  {
  }
}
