/** The configuration the probing loop re-reads on every cycle: the named
    endpoints to probe and the polling period, together with the rule that
    chooses where the configuration file lives. Reading and decoding the file
    are I/O and are not modelled; their outcome is a `LoadResult`. */
module ProberConfig {

  /** Go's `time.Duration`: a signed 64-bit count of nanoseconds. */
  newtype Duration = x: int | -0x8000_0000_0000_0000 <= x < 0x8000_0000_0000_0000

  const Second: Duration := 1_000_000_000

  /** The period slept before the first cycle, before any configuration was read. */
  const DefaultPollingPeriod: Duration := 10 * Second

  /** One peer to probe, addressed by its IP and port (both text, as decoded). */
  datatype Endpoint = Endpoint(ip: string, port: string)

  /** A decoded configuration: peers by name, and the period for the next sleep. */
  datatype Config = Config(endpointsMap: map<string, Endpoint>, pollingPeriod: Duration)

  /** The outcome of reading the configuration file and decoding it. A decode
      failure discards whatever was partly decoded. */
  datatype LoadResult = ReadError | DecodeError | Loaded(config: Config)

  const DefaultConfigPath := "/etc/netprober/config.json"

  /** Where the configuration is read from, given the value of the
      environment variable NET_PROBER_CONFIG_FILE (the empty string when it
      is unset). */
  function PathToConfigFile(envValue: string): (path: string)
    ensures path != ""
    ensures path == envValue <==> envValue != ""
    ensures envValue == "" ==> path == DefaultConfigPath
  {
    if envValue == "" then DefaultConfigPath else envValue
  }
}
