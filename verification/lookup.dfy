/** `ApplicationConfiguration.GetDatabaseConfig`: select the connection of a
    brand, given its name or its short code in any letter case. The two
    `log.Fatal` exits become `Failure` values. */
module Lookup {
  import opened Wrappers
  import opened Text
  import opened Configuration

  datatype LookupError =
    | NoConfigurations           // the connection list is empty
    | UnknownBrand(query: string) // no usable entry for the query

  /** The test on each entry, with the query already lower-cased. */
  predicate MatchesLowered(c: DatabaseConnection, lowered: string) {
    Lower(c.brandShortCode) == lowered || Lower(c.brandName) == lowered
  }

  /** Reference notion of a match: short code or brand name equal to the
      query up to letter case. */
  predicate Matches(c: DatabaseConnection, query: string) {
    SameUpToCase(c.brandShortCode, query) || SameUpToCase(c.brandName, query)
  }

  /** Entry `i` is the first entry of `conns` that matches `query`. */
  predicate IsFirstMatch(conns: seq<DatabaseConnection>, query: string, i: int) {
    && 0 <= i < |conns|
    && Matches(conns[i], query)
    && forall j :: 0 <= j < i ==> !Matches(conns[j], query)
  }

  lemma MatchesLoweredIffMatches(c: DatabaseConnection, query: string)
    ensures MatchesLowered(c, Lower(query)) <==> Matches(c, query)
  {
    SameUpToCaseIffLowerEqual(c.brandShortCode, query);
    SameUpToCaseIffLowerEqual(c.brandName, query);
  }

  /** Index of the first entry whose lower-cased short code or brand name
      equals `lowered`. */
  function FirstMatch(conns: seq<DatabaseConnection>, lowered: string): (r: Option<nat>)
    ensures r.None? ==> forall j :: 0 <= j < |conns| ==> !MatchesLowered(conns[j], lowered)
    ensures r.Some? ==> r.value < |conns| && MatchesLowered(conns[r.value], lowered)
    ensures r.Some? ==> forall j :: 0 <= j < r.value ==> !MatchesLowered(conns[j], lowered)
  {
    if conns == [] then None
    else if MatchesLowered(conns[0], lowered) then Some(0)
    else match FirstMatch(conns[1..], lowered)
      case None => None
      case Some(i) => Some(i + 1)
  }

  /** The first match found on lower-cased strings is the first match up to
      letter case. */
  lemma FirstMatchIsFirst(conns: seq<DatabaseConnection>, query: string)
    ensures FirstMatch(conns, Lower(query)).Some? ==> IsFirstMatch(conns, query, FirstMatch(conns, Lower(query)).value)
    ensures FirstMatch(conns, Lower(query)).None? ==> forall j :: 0 <= j < |conns| ==> !Matches(conns[j], query)
  {
    forall j | 0 <= j < |conns| {
      MatchesLoweredIffMatches(conns[j], query);
    }
  }

  /** The lookup. A failed scan leaves the zero-valued entry selected, whose
      connection name is empty, so it fails the same check as a matched entry
      without a connection name. */
  function GetDatabaseConfig(cfg: ApplicationConfiguration, query: string): (r: Result<DatabaseConnection, LookupError>)
    ensures r == Failure(NoConfigurations) <==> |cfg.connections| == 0
    ensures r.Failure? && |cfg.connections| > 0 ==> r.error == UnknownBrand(query)
    ensures r.Success? ==> r.value in cfg.connections && r.value.connectionName != ""
    ensures r.Success? ==> Matches(r.value, query)
    ensures r.Success? ==> exists i :: IsFirstMatch(cfg.connections, query, i) && r.value == cfg.connections[i]
  {
    if |cfg.connections| == 0 then Failure(NoConfigurations)
    else
      var selected :=
        match FirstMatch(cfg.connections, Lower(query))
        case Some(i) => cfg.connections[i]
        case None => EmptyConnection;
      if selected.connectionName == "" then
        Failure(UnknownBrand(query))
      else
        FirstMatchIsFirst(cfg.connections, query);
        Success(selected)
  }

  /** The lookup returns the first matching entry in list order, and only if
      that entry names a connection: a later match never rescues an earlier
      match without a connection name. */
  lemma GetDatabaseConfigIsFirstMatch(cfg: ApplicationConfiguration, query: string, i: int)
    requires IsFirstMatch(cfg.connections, query, i)
    ensures cfg.connections[i].connectionName != "" ==> GetDatabaseConfig(cfg, query) == Success(cfg.connections[i])
    ensures cfg.connections[i].connectionName == "" ==> GetDatabaseConfig(cfg, query) == Failure(UnknownBrand(query))
  {
    var conns := cfg.connections;
    MatchesLoweredIffMatches(conns[i], query);
    var m := FirstMatch(conns, Lower(query));
    assert m.Some?;
    if m.value < i {
      MatchesLoweredIffMatches(conns[m.value], query);
    }
  }

  /** Without any matching entry the lookup fails: on an empty list for lack
      of configurations, otherwise as an unknown brand. */
  lemma GetDatabaseConfigNoMatch(cfg: ApplicationConfiguration, query: string)
    requires forall j :: 0 <= j < |cfg.connections| ==> !Matches(cfg.connections[j], query)
    ensures |cfg.connections| == 0 ==> GetDatabaseConfig(cfg, query) == Failure(NoConfigurations)
    ensures |cfg.connections| > 0 ==> GetDatabaseConfig(cfg, query) == Failure(UnknownBrand(query))
  {
  }

  /** Queries that differ only in letter case have the same outcome. */
  lemma GetDatabaseConfigIgnoresCase(cfg: ApplicationConfiguration, q1: string, q2: string)
    requires SameUpToCase(q1, q2)
    ensures GetDatabaseConfig(cfg, q1).Success? <==> GetDatabaseConfig(cfg, q2).Success?
    ensures GetDatabaseConfig(cfg, q1).Success? ==> GetDatabaseConfig(cfg, q1) == GetDatabaseConfig(cfg, q2)
  {
    SameUpToCaseIffLowerEqual(q1, q2);
  }

  /** The scan as written: a loop over the entries that stops at the first
      match. */
  method FindDatabaseConfig(cfg: ApplicationConfiguration, query: string) returns (r: Result<DatabaseConnection, LookupError>)
    ensures r == GetDatabaseConfig(cfg, query)
  {
    var conns := cfg.connections;
    if |conns| == 0 {
      return Failure(NoConfigurations);
    }
    var selected := EmptyConnection;
    var lowered := Lower(query);
    var k := 0;
    while k < |conns|
      invariant 0 <= k <= |conns|
      invariant forall j :: 0 <= j < k ==> !MatchesLowered(conns[j], lowered)
    {
      if MatchesLowered(conns[k], lowered) {
        selected := conns[k];
        assert FirstMatch(conns, lowered) == Some(k);
        break;
      }
      k := k + 1;
    }
    if selected.connectionName == "" {
      return Failure(UnknownBrand(query));
    }
    return Success(selected);
  }
}
