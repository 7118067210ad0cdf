/** The credentials a client is built from and the check both copies of
    NewClient apply to them before any request is made. */
module Credentials {
  import opened Basics

  /** BugyoConfig. A nil *BugyoConfig is the None of an Option<Config>. */
  datatype Config = Config(tenantCode: string, obcId: string, password: string)

  /** Position of a field in NewClient's sequence of checks. */
  function Rank(f: Field): nat
  {
    match f
    case ConfigArg => 0
    case TenantCode => 1
    case OBCiD => 2
    case Password => 3
  }

  /** Whether the argument `f` is absent: a nil config lacks every field. */
  predicate Missing(config: Option<Config>, f: Field)
  {
    match config
    case None => true
    case Some(c) =>
      match f
      case ConfigArg => false
      case TenantCode => c.tenantCode == ""
      case OBCiD => c.obcId == ""
      case Password => c.password == ""
  }

  /** NewClient's argument checks: the error for the first missing argument,
      or None when the credentials are complete. */
  function Validate(config: Option<Config>): (r: Option<Error>)
    ensures r.None? <==> forall f :: !Missing(config, f)
    ensures r.None? <==> config.Some? && config.value.tenantCode != "" && config.value.obcId != "" && config.value.password != ""
    ensures r.Some? ==> r.value.InvalidArgument? && Missing(config, r.value.field)
    ensures r.Some? ==> forall g :: Rank(g) < Rank(r.value.field) ==> !Missing(config, g)
  {
    var r := if config.None? then Some(InvalidArgument(ConfigArg))
      else if config.value.tenantCode == "" then Some(InvalidArgument(TenantCode))
      else if config.value.obcId == "" then Some(InvalidArgument(OBCiD))
      else if config.value.password == "" then Some(InvalidArgument(Password))
      else None;
    assert r.Some? ==> Missing(config, r.value.field);
    r
  }

  /** The texts NewClient reports, each naming the first missing argument. */
  lemma ValidateMessages(c: Config)
    ensures Message(Validate(None).value) == "invalid argument: config required"
    ensures c.tenantCode == "" ==> Message(Validate(Some(c)).value) == "invalid argument: TenantCode required"
    ensures c.tenantCode != "" && c.obcId == "" ==> Message(Validate(Some(c)).value) == "invalid argument: OBCiD required"
    ensures c.tenantCode != "" && c.obcId != "" && c.password == "" ==> Message(Validate(Some(c)).value) == "invalid argument: Password required"
  {
  }
}
