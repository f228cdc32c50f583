/**
 * Properties of the post-decode fix-up (`Normalize`, which `ConfigRef.Unmarshal`
 * applies after a successful decode) and of how it interacts with validation.
 */
module NormalizationSpec {
  import opened Wrappers
  import opened CloudWatchConfig
  import opened ValidationSpec

  /** True when the fix-up removes the autodiscover block. */
  predicate ExplicitNamedOnly(namedSet: bool, autodiscoverSet: bool) {
    namedSet && !autodiscoverSet
  }

  /** Applying the fix-up a second time changes nothing. */
  lemma NormalizeIdempotent(c: Config, namedSet: bool, autodiscoverSet: bool)
    requires ExplicitNamedOnly(namedSet, autodiscoverSet) ==> c.logs.Some?
    ensures var once := Normalize(c, namedSet, autodiscoverSet);
      Normalize(once, namedSet, autodiscoverSet) == once
  {
  }

  /**
   * The fix-up never turns an accepted configuration into a rejected one, and
   * it changes the outcome only by clearing a group-mode error.
   */
  lemma NormalizeOnlyClearsGroupModeErrors(c: Config, parseRequestUri: RequestUriParser, namedSet: bool, autodiscoverSet: bool)
    requires ExplicitNamedOnly(namedSet, autodiscoverSet) ==> c.logs.Some?
    ensures var after := Validate(Normalize(c, namedSet, autodiscoverSet), parseRequestUri);
      var before := Validate(c, parseRequestUri);
      after != before ==>
        && after == Pass
        && (before == Fail(AutodiscoverAndNamedConfigured) || before == Fail(InvalidAutodiscoverLimit))
  {
  }

  /**
   * A declaration that sets the named groups but not the autodiscover block is
   * validated in explicit mode: once the earlier checks pass, it is accepted,
   * whatever autodiscover block the decoded config carried.
   */
  lemma NamedOnlyDeclarationAccepted(c: Config, parseRequestUri: RequestUriParser)
    requires c.region != "" && EndpointCheck(c, parseRequestUri) == Pass && c.logs.Some?
    requires c.logs.value.maxEventsPerRequest >= 1 && c.logs.value.pollInterval >= SECOND
    ensures Normalize(c, true, false).logs.value.groups.autodiscover.None?
    ensures Validate(Normalize(c, true, false), parseRequestUri) == Pass
  {
  }

  /**
   * Without the named key set, or with the autodiscover key set, the decoded
   * config is kept as it is, so its validation outcome is unchanged.
   */
  lemma NormalizeKeepsOtherDeclarations(c: Config, parseRequestUri: RequestUriParser, namedSet: bool, autodiscoverSet: bool)
    requires !ExplicitNamedOnly(namedSet, autodiscoverSet)
    ensures Validate(Normalize(c, namedSet, autodiscoverSet), parseRequestUri) == Validate(c, parseRequestUri)
  {
  }
}
