# AWS CloudWatch logs receiver: configuration model

A Dafny model of the configuration of the OpenTelemetry Collector's AWS CloudWatch
logs receiver (`receiver/awscloudwatchreceiver/config.go`). It covers three things:

- the config tree: `Config`, `LogsConfig`, `GroupConfig`, `AutodiscoverConfig` and `StreamConfig`;
- the seven error values validation reports, with their messages;
- the validator `Config.Validate` and the post-decode fix-up in `Config.Unmarshal`.

The fix-up drops the autodiscover block when the operator's declaration sets
`logs::groups::named` but not `logs::groups::autodiscover`.

Files:

- `wrappers.dfy`: `Option` stands for a Go pointer that may be nil. `Outcome` stands for a Go `error` return (nil or not). `Result` is a value or an error.
- `config.dfy` (module `CloudWatchConfig`) follows the source's structure. The config tree is made of datatypes, one per Go struct at config.go:34-66. `ConfigError` has one constructor per error value at config.go:68-76. `Validate`, `ValidateLogsConfig`, `ValidateGroups` and `ValidateAutodiscover` are functions with the same early returns as the Go code. The class `ConfigRef` stands for the `*Config` the decoder writes into. Its `Unmarshal` method decodes, then overwrites the autodiscover field in place. `Normalize` is the function that specifies the new value.
- `validation_spec.dfy` (module `ValidationSpec`) is an independent, flat statement of validation. It lists seven separate checks in a fixed order, and `FirstViolation` reports the first one that fails. `Valid` states all the constraints over the fields. The lemmas prove that `Validate` is exactly this statement, and they state each constraint and its boundary.
- `normalization_spec.dfy` (module `NormalizationSpec`) holds the lemmas about the fix-up: it is idempotent, and it can only turn a group-mode rejection into acceptance. That the fix-up leaves everything but the autodiscover field alone is stated by `Normalize`'s own contract in `config.dfy`.

Durations are Go `time.Duration`, a signed 64-bit count of nanoseconds. Go `int`
is taken as 64 bits. Both are `int` restricted to the signed 64-bit range. The
source only compares these values, so nothing can wrap around.

Behaviours of the source that a reader may not expect, all reproduced by the model:

- The poll-interval check rejects only intervals strictly below one second (`<`), so exactly one second passes. The error message says "greater than one second".
- When neither an autodiscover block nor any named group is configured, validation passes (`NoGroupModeAccepted`). Nothing rejects this case.
- Validation returns only the first violation. The `multierr.Append` at config.go:91-93 appends one error onto nil, so errors are never aggregated.
- The comment on `Unmarshal` (config.go:96-97) says it makes autodiscover nil whenever autodiscover is not specified. The code (config.go:107-108) clears the block only when `logs::groups::named` is also set. Otherwise an autodiscover block already in the target survives (`NormalizeKeepsOtherDeclarations`).
- `Unmarshal` decodes into the existing config value. That is why the fix-up exists: an autodiscover block already in the target survives a declaration that does not mention it. `Conf.decode` therefore takes the target's prior value.

## Model

| member | source | states |
|---|---|---|
| `CloudWatchConfig.Message` | receiver/awscloudwatchreceiver/config.go:68-76 | a data table of the error texts, one per error value; its properties are stated by `MessageIdentifiesError` and `EndpointMessagePrefix` |
| `CloudWatchConfig.MessageIdentifiesError` | receiver/awscloudwatchreceiver/config.go:68-76 | the error values are stable and distinct: two errors with the same message are the same error, including the cause of a wrapped endpoint error |
| `CloudWatchConfig.EndpointMessagePrefix` | receiver/awscloudwatchreceiver/config.go:87 | exactly the endpoint error's message starts with "unable to parse URI for imds_endpoint: ", and the rest of it is the parser's message |
| `CloudWatchConfig.ValidateAutodiscover` | receiver/awscloudwatchreceiver/config.go:140-152 | the autodiscover check can only pass or return the invalid-limit error |
| `CloudWatchConfig.ValidateGroups` | receiver/awscloudwatchreceiver/config.go:128-138 | the group check returns only the conflict or the limit error, and always passes without an autodiscover block |
| `CloudWatchConfig.ValidateLogsConfig` | receiver/awscloudwatchreceiver/config.go:113-126 | the logs check never reports a region or endpoint error, and reports "no logs configured" exactly when `Logs` is nil |
| `CloudWatchConfig.Validate` | receiver/awscloudwatchreceiver/config.go:79-94 | an empty region yields `errNoRegion`; an endpoint error carries exactly the error the parser gave for the non-empty endpoint |
| `CloudWatchConfig.Normalize` | receiver/awscloudwatchreceiver/config.go:107-109 | when named is set and autodiscover is not, the autodiscover block becomes nil; region, profile, endpoint, `Logs` presence, poll interval, event limit and named groups never change; otherwise the decoded config is returned unchanged |
| `CloudWatchConfig.ConfigRef.Unmarshal` | receiver/awscloudwatchreceiver/config.go:98-111 | a nil parser returns an error and leaves the config alone; a decode error is returned without the fix-up; a successful decode returns nil and leaves `Normalize` of the decoded value |
| `ValidationSpec.FirstViolation` | receiver/awscloudwatchreceiver/config.go:79-94 | the reference rule: the result is Pass exactly when every check passes, otherwise the error of a failing check whose predecessors all pass |
| `ValidationSpec.ValidateIsFirstViolation` | receiver/awscloudwatchreceiver/config.go:79-143 | `Validate` returns exactly the first failing check of region, endpoint, logs present, event limit, poll interval, group modes, autodiscover limit |
| `ValidationSpec.ValidateAcceptsExactlyValid` | receiver/awscloudwatchreceiver/config.go:79-143 | `Validate` returns nil if and only if the config meets all seven constraints |
| `ValidationSpec.ValidateReportsCheck` | receiver/awscloudwatchreceiver/config.go:79-143 | for each check k that fails: `Validate` returns check k's error if and only if every earlier check passes |
| `ValidationSpec.EmptyRegionRejected` | receiver/awscloudwatchreceiver/config.go:80-82 | `errNoRegion` is returned if and only if the region is empty, whatever the other fields hold |
| `ValidationSpec.EmptyEndpointNotParsed` | receiver/awscloudwatchreceiver/config.go:84 | with an empty endpoint the result does not depend on the URI parser |
| `ValidationSpec.BadEndpointRejected` | receiver/awscloudwatchreceiver/config.go:84-89 | a non-empty endpoint the parser rejects yields the wrapped parse error before any logs check; one it accepts never yields an endpoint error |
| `ValidationSpec.MissingLogsRejected` | receiver/awscloudwatchreceiver/config.go:114-116 | with region and endpoint fine, `errNoLogsConfigured` is returned if and only if `Logs` is nil |
| `ValidationSpec.EventLimitBoundary` | receiver/awscloudwatchreceiver/config.go:118-120 | with the earlier checks passing, `errInvalidEventLimit` is returned if and only if the limit is at most 0 (1 passes) |
| `ValidationSpec.PollIntervalBoundary` | receiver/awscloudwatchreceiver/config.go:121-123 | with the earlier checks passing, `errInvalidPollInterval` is returned if and only if the interval is below one second; 999ms fails and exactly 1s passes |
| `ValidationSpec.ConflictingModesRejected` | receiver/awscloudwatchreceiver/config.go:129-131 | with the earlier checks passing, `errAutodiscoverAndNamedConfigured` is returned if and only if an autodiscover block and a non-empty named map are both present |
| `ValidationSpec.AutodiscoverLimitBoundary` | receiver/awscloudwatchreceiver/config.go:133-143 | in autodiscovery mode, `errInvalidAutodiscoverLimit` is returned if and only if the limit is at most 0, and the config is accepted if and only if it is at least 1 |
| `ValidationSpec.NoGroupModeAccepted` | receiver/awscloudwatchreceiver/config.go:128-138 | with no autodiscover block and no named groups, a config that passes the earlier checks is accepted |
| `NormalizationSpec.NormalizeIdempotent` | receiver/awscloudwatchreceiver/config.go:107-109 | applying the fix-up twice equals applying it once |
| `NormalizationSpec.NormalizeOnlyClearsGroupModeErrors` | receiver/awscloudwatchreceiver/config.go:107-109 | the fix-up changes the validation result only from a conflict or autodiscover-limit error to nil, so it never rejects an accepted config |
| `NormalizationSpec.NamedOnlyDeclarationAccepted` | receiver/awscloudwatchreceiver/config.go:107-109 | a declaration that sets named groups but not autodiscover ends with no autodiscover block, and is accepted once the region, endpoint, event-limit and poll-interval checks pass |
| `NormalizationSpec.NormalizeKeepsOtherDeclarations` | receiver/awscloudwatchreceiver/config.go:107-110 | in every other case the fix-up leaves the validation result unchanged |

## Left out

- `url.ParseRequestURI` (config.go:85) is a standard-library parser that is not part of this model. Validation takes it as a parameter `parseRequestUri`. So nothing here decides whether a particular string, such as `http://169.254.169.254`, parses.
- `confmap.Conf.Unmarshal` with `WithErrorUnused`, and `IsSet` (config.go:102, 107), are library calls. They are modelled as a `Conf` value: the set of keys the declaration sets, and a decode function from the target's prior value to a decoded config or a decode error. Decoding itself (mapstructure, unknown-key detection) is not modelled.
- CloudWatchConfig.ConfigRef.Unmarshal: on a decode error the model leaves the target unchanged. The library may have partly written the target before failing.
- CloudWatchConfig.ConfigRef.Unmarshal: requires that a declaration that sets `logs::groups::named` decodes to a non-nil `Logs`. The decoder allocates the pointer in that case. Without it, the field write at config.go:108 would be a nil dereference, which the model does not represent.
- `Logs` is a pointer in the source, and the fix-up writes through it. The model holds the config tree as a value, so another holder of the same `*LogsConfig` seeing the change is not captured.
- The default values at config.go:27-31 are declared but not applied in this file, so they are not modelled.
- The commented-out `IncludeLinkedAccounts` check (config.go:74, 145-149) is not live code.
- `Profile` and the stream filters (`Prefixes`, `Names`, config.go:63-66) are carried as data but never validated, as in the source.
- The text of the nil-parser error (`errors.New("")`) is modelled as a separate error value; its empty message is not modelled.
- Polling, AWS SDK calls, credential resolution and the receiver lifecycle are not in this file, and they are I/O.
