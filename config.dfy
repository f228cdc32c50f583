/**
 * The configuration of the AWS CloudWatch logs receiver: its schema, the
 * errors validation reports, the validator itself and the post-decode
 * fix-up that `Unmarshal` applies to the target config.
 */
module CloudWatchConfig {
  import opened Wrappers

  const MIN_INT64: int := -0x8000_0000_0000_0000
  const MAX_INT64: int := 0x7fff_ffff_ffff_ffff

  /** Go's `int` on a 64-bit platform. */
  type Int64 = x: int | MIN_INT64 <= x <= MAX_INT64

  /** Go's `time.Duration`: a signed count of nanoseconds. */
  type Duration = Int64

  const NANOSECOND: Duration := 1
  const MILLISECOND: Duration := 1_000_000
  const SECOND: Duration := 1_000_000_000

  // ---------------------------------------------------------------------
  // Schema
  // ---------------------------------------------------------------------

  /** Stream filters; each entry is a `*string`, so it may be nil. Never validated. */
  datatype StreamConfig = StreamConfig(prefixes: seq<Option<string>>, names: seq<Option<string>>)

  datatype AutodiscoverConfig = AutodiscoverConfig(
    prefix: string,
    limit: Int64,
    includeLinkedAccounts: bool,
    streams: StreamConfig)

  /** `autodiscover` is a pointer: None stands for nil. */
  datatype GroupConfig = GroupConfig(
    autodiscover: Option<AutodiscoverConfig>,
    named: map<string, StreamConfig>)

  datatype LogsConfig = LogsConfig(
    pollInterval: Duration,
    maxEventsPerRequest: Int64,
    groups: GroupConfig)

  /** The root config; `logs` is a pointer: None stands for nil. */
  datatype Config = Config(
    region: string,
    profile: string,
    imdsEndpoint: string,
    logs: Option<LogsConfig>)

  // ---------------------------------------------------------------------
  // Errors
  // ---------------------------------------------------------------------

  /** The error `url.ParseRequestURI` reports, known only by its message. */
  datatype UriError = UriError(message: string)

  /**
   * `url.ParseRequestURI` is a library parser outside this model; validation
   * takes it as a parameter. Pass means the string parsed as a request URI.
   */
  type RequestUriParser = string -> Outcome<UriError>

  /** One constructor per error value `Validate` can return. */
  datatype ConfigError =
    | NoRegion
    | InvalidImdsEndpoint(cause: UriError)
    | NoLogsConfigured
    | InvalidEventLimit
    | InvalidPollInterval
    | InvalidAutodiscoverLimit
    | AutodiscoverAndNamedConfigured

  const IMDS_ENDPOINT_PREFIX: string := "unable to parse URI for imds_endpoint: "
  const MUST_BE_POSITIVE: string := ", value must be greater than 0"

  /** The text each error prints; the endpoint error wraps its cause. */
  function Message(e: ConfigError): string {
    match e
    case NoRegion => "no region was specified"
    case InvalidImdsEndpoint(cause) => IMDS_ENDPOINT_PREFIX + cause.message
    case NoLogsConfigured => "no logs configured"
    case InvalidEventLimit =>
      "event limit is improperly configured" + MUST_BE_POSITIVE
    case InvalidPollInterval =>
      "poll interval is incorrect, it must be a duration greater than one second"
    case InvalidAutodiscoverLimit =>
      "the limit of autodiscovery of log groups is improperly configured" + MUST_BE_POSITIVE
    case AutodiscoverAndNamedConfigured =>
      "both autodiscover and named configs are configured" + ", Only one or the other is permitted"
  }

  /** Distinct errors print distinct messages, so the text names the failed check. */
  lemma MessageIdentifiesError(e1: ConfigError, e2: ConfigError)
    ensures Message(e1) == Message(e2) ==> e1 == e2
  {
    if Message(e1) == Message(e2) {
      if e1.InvalidImdsEndpoint? || e2.InvalidImdsEndpoint? {
        EndpointMessagePrefix(e1);
        EndpointMessagePrefix(e2);
      } else {
        FixedMessageLengthsDiffer(e1, e2);
      }
    }
  }

  /** The messages without a cause all have different lengths. */
  lemma FixedMessageLengthsDiffer(e1: ConfigError, e2: ConfigError)
    requires !e1.InvalidImdsEndpoint? && !e2.InvalidImdsEndpoint?
    ensures |Message(e1)| == |Message(e2)| ==> e1 == e2
  {
    assert |Message(e1)| == FixedMessageLength(e1);
    assert |Message(e2)| == FixedMessageLength(e2);
  }

  /** The lengths of the messages without a cause, all different. */
  function FixedMessageLength(e: ConfigError): nat
    requires !e.InvalidImdsEndpoint?
  {
    match e
    case NoRegion => 23
    case NoLogsConfigured => 18
    case InvalidEventLimit => 66
    case InvalidPollInterval => 73
    case InvalidAutodiscoverLimit => 95
    case AutodiscoverAndNamedConfigured => 86
  }

  /** Exactly the endpoint error's message starts with the endpoint prefix, followed by its cause. */
  lemma EndpointMessagePrefix(e: ConfigError)
    ensures e.InvalidImdsEndpoint? <==>
      |Message(e)| >= |IMDS_ENDPOINT_PREFIX| && Message(e)[..|IMDS_ENDPOINT_PREFIX|] == IMDS_ENDPOINT_PREFIX
    ensures e.InvalidImdsEndpoint? ==> Message(e)[|IMDS_ENDPOINT_PREFIX|..] == e.cause.message
  {
    var m := Message(e);
    var n := |IMDS_ENDPOINT_PREFIX|;
    if e.InvalidImdsEndpoint? {
      assert m == IMDS_ENDPOINT_PREFIX + e.cause.message;
    } else if |m| >= n {
      // The fixed messages this long differ from the prefix at its colon.
      assert m[..n][37] == m[37] != IMDS_ENDPOINT_PREFIX[37];
    }
  }

  // ---------------------------------------------------------------------
  // Validation
  // ---------------------------------------------------------------------

  /** The autodiscovery block is valid when it may discover at least one group. */
  function ValidateAutodiscover(cfg: AutodiscoverConfig): (r: Outcome<ConfigError>)
    ensures r == Pass || r == Fail(InvalidAutodiscoverLimit)
  {
    if cfg.limit <= 0 then Fail(InvalidAutodiscoverLimit)
    else Pass
  }

  /** The two discovery modes must not both be configured. */
  function ValidateGroups(g: GroupConfig): (r: Outcome<ConfigError>)
    ensures r == Pass || r == Fail(AutodiscoverAndNamedConfigured) || r == Fail(InvalidAutodiscoverLimit)
    ensures g.autodiscover.None? ==> r == Pass
  {
    if g.autodiscover.Some? && |g.named| > 0 then Fail(AutodiscoverAndNamedConfigured)
    else if g.autodiscover.Some? then ValidateAutodiscover(g.autodiscover.value)
    else Pass
  }

  /** Checks the logs block; it never reports a region or endpoint error. */
  function ValidateLogsConfig(c: Config): (r: Outcome<ConfigError>)
    ensures r.Fail? ==> !r.error.NoRegion? && !r.error.InvalidImdsEndpoint?
    ensures c.logs.None? <==> r == Fail(NoLogsConfigured)
  {
    if c.logs.None? then Fail(NoLogsConfigured)
    else if c.logs.value.maxEventsPerRequest <= 0 then Fail(InvalidEventLimit)
    else if c.logs.value.pollInterval < SECOND then Fail(InvalidPollInterval)
    else ValidateGroups(c.logs.value.groups)
  }

  /** Validates the whole config, returning the first violation found. */
  function Validate(c: Config, parseRequestUri: RequestUriParser): (r: Outcome<ConfigError>)
    ensures c.region == "" ==> r == Fail(NoRegion)
    ensures r.Fail? && r.error.InvalidImdsEndpoint? ==>
      c.imdsEndpoint != "" && parseRequestUri(c.imdsEndpoint) == Fail(r.error.cause)
  {
    if c.region == "" then Fail(NoRegion)
    else if c.imdsEndpoint != "" && parseRequestUri(c.imdsEndpoint).Fail? then
      Fail(InvalidImdsEndpoint(parseRequestUri(c.imdsEndpoint).error))
    // `multierr.Append` onto a nil error passes the logs result through.
    else ValidateLogsConfig(c)
  }

  // ---------------------------------------------------------------------
  // Decoding and the post-decode fix-up
  // ---------------------------------------------------------------------

  const NAMED_KEY: string := "logs::groups::named"
  const AUTODISCOVER_KEY: string := "logs::groups::autodiscover"

  /** The error the `confmap` decoder reports (unknown or ill-typed keys). */
  datatype DecodeError = DecodeError(message: string)

  /**
   * The component's `confmap.Conf`: the keys the operator's declaration set
   * explicitly, and the outcome of decoding the declaration into a target
   * config, which starts from the target's current value.
   */
  datatype Conf = Conf(keys: set<string>, decode: Config -> Result<Config, DecodeError>) {

    predicate IsSet(key: string) {
      key in keys
    }

    /**
     * A declaration that sets a key below `logs` decodes into a config whose
     * `logs` pointer is allocated.
     */
    predicate AllocatesLogs(target: Config) {
      IsSet(NAMED_KEY) && decode(target).Success? ==> decode(target).value.logs.Some?
    }
  }

  /** What `Unmarshal` returns besides nil. */
  datatype UnmarshalError =
    | EmptyError                  // `errors.New("")` for a nil parser
    | DecodeFailed(cause: DecodeError)

  /**
   * The fix-up applied after a successful decode: when the declaration set the
   * named groups but not the autodiscover block, any autodiscover block left
   * over from the target's prior value is dropped.
   */
  function Normalize(decoded: Config, namedSet: bool, autodiscoverSet: bool): (r: Config)
    requires namedSet && !autodiscoverSet ==> decoded.logs.Some?
    ensures r.region == decoded.region && r.profile == decoded.profile
    ensures r.imdsEndpoint == decoded.imdsEndpoint
    ensures r.logs.Some? <==> decoded.logs.Some?
    ensures r.logs.Some? ==>
      && r.logs.value.pollInterval == decoded.logs.value.pollInterval
      && r.logs.value.maxEventsPerRequest == decoded.logs.value.maxEventsPerRequest
      && r.logs.value.groups.named == decoded.logs.value.groups.named
    ensures namedSet && !autodiscoverSet ==> r.logs.value.groups.autodiscover.None?
    ensures !(namedSet && !autodiscoverSet) ==> r == decoded
  {
    if namedSet && !autodiscoverSet then
      var logs := decoded.logs.value;
      decoded.(logs := Some(logs.(groups := logs.groups.(autodiscover := None))))
    else decoded
  }

  /** A `*Config`: the target the decoder writes into. */
  class ConfigRef {
    var value: Config

    constructor (initial: Config)
      ensures value == initial
    {
      value := initial;
    }

    /**
     * Decodes the declaration into this config, then applies the fix-up.
     * A nil parser or a decode error returns an error without the fix-up.
     */
    method Unmarshal(componentParser: Option<Conf>) returns (err: Outcome<UnmarshalError>)
      requires componentParser.Some? ==> componentParser.value.AllocatesLogs(value)
      modifies this
      ensures componentParser.None? ==> err == Fail(EmptyError) && value == old(value)
      ensures componentParser.Some? && componentParser.value.decode(old(value)).Failure? ==>
        && err == Fail(DecodeFailed(componentParser.value.decode(old(value)).error))
        && value == old(value)
      ensures componentParser.Some? && componentParser.value.decode(old(value)).Success? ==>
        && err == Pass
        && value == Normalize(componentParser.value.decode(old(value)).value,
                              componentParser.value.IsSet(NAMED_KEY),
                              componentParser.value.IsSet(AUTODISCOVER_KEY))
    {
      if componentParser.None? {
        return Fail(EmptyError);
      }
      var parser := componentParser.value;
      var decoded := parser.decode(value);
      if decoded.Failure? {
        return Fail(DecodeFailed(decoded.error));
      }
      value := decoded.value;

      if parser.IsSet(NAMED_KEY) && !parser.IsSet(AUTODISCOVER_KEY) {
        var logs := value.logs.value;
        value := value.(logs := Some(logs.(groups := logs.groups.(autodiscover := None))));
      }
      return Pass;
    }
  }
}
