/** The password pass of `GetConfiguration`: every entry's `DBPassword` is
    replaced by the decryption of its trimmed text, in list order, and the
    first decryption error abandons the whole configuration. Reading and
    JSON-decoding the file are not modelled: the pass starts from a parsed
    `ApplicationConfiguration`. */
module Credentials {
  import opened Wrappers
  import opened Text
  import opened Configuration
  import opened Lookup

  datatype CipherError = CipherError(message: string)

  /** `DecryptAES(key, hexCiphertext)`, for the calls that return. The cipher
      itself (hex decoding and AES) is not modelled: any total function of
      key and ciphertext can be supplied, and the properties below hold for
      all of them. Calls on which AES panics are outside this type. */
  type Cipher = (string, string) -> Result<string, CipherError>

  /** The decrypt call made for one entry. */
  function DecryptEntry(decrypt: Cipher, key: string, c: DatabaseConnection): Result<string, CipherError> {
    decrypt(key, TrimSpace(c.dbPassword))
  }

  /** The entry with its password replaced by the decrypted one. */
  function Decrypted(decrypt: Cipher, key: string, c: DatabaseConnection): DatabaseConnection
    requires DecryptEntry(decrypt, key, c).Success?
  {
    c.(dbPassword := DecryptEntry(decrypt, key, c).value)
  }

  /** `after` is `before` with every password decrypted and nothing else
      changed: same length, same order, same other fields. */
  predicate Rewritten(decrypt: Cipher, key: string, before: seq<DatabaseConnection>, after: seq<DatabaseConnection>) {
    && |after| == |before|
    && forall i :: 0 <= i < |before| ==>
         && DecryptEntry(decrypt, key, before[i]).Success?
         && after[i] == Decrypted(decrypt, key, before[i])
  }

  /** Entry `i` is the first whose password fails to decrypt. */
  predicate IsFirstFailure(decrypt: Cipher, key: string, conns: seq<DatabaseConnection>, i: int) {
    && 0 <= i < |conns|
    && DecryptEntry(decrypt, key, conns[i]).Failure?
    && forall j :: 0 <= j < i ==> DecryptEntry(decrypt, key, conns[j]).Success?
  }

  function DecryptAll(decrypt: Cipher, key: string, conns: seq<DatabaseConnection>): (r: Result<seq<DatabaseConnection>, CipherError>)
    ensures r.Success? <==> forall i :: 0 <= i < |conns| ==> DecryptEntry(decrypt, key, conns[i]).Success?
    ensures r.Success? ==> Rewritten(decrypt, key, conns, r.value)
    ensures forall i :: IsFirstFailure(decrypt, key, conns, i) ==> r == Failure(DecryptEntry(decrypt, key, conns[i]).error)
  {
    if conns == [] then Success([])
    else match DecryptEntry(decrypt, key, conns[0])
      case Failure(e) => Failure(e)
      case Success(p) =>
        match DecryptAll(decrypt, key, conns[1..])
        case Failure(e) =>
          FirstFailureInTail(decrypt, key, conns);
          Failure(e)
        case Success(rest) =>
          RewrittenCons(decrypt, key, conns, rest);
          Success([Decrypted(decrypt, key, conns[0])] + rest)
  }

  lemma RewrittenCons(decrypt: Cipher, key: string, conns: seq<DatabaseConnection>, rest: seq<DatabaseConnection>)
    requires |conns| > 0 && DecryptEntry(decrypt, key, conns[0]).Success?
    requires Rewritten(decrypt, key, conns[1..], rest)
    ensures Rewritten(decrypt, key, conns, [Decrypted(decrypt, key, conns[0])] + rest)
  {
    var after := [Decrypted(decrypt, key, conns[0])] + rest;
    forall i | 0 <= i < |conns|
      ensures DecryptEntry(decrypt, key, conns[i]).Success?
      ensures after[i] == Decrypted(decrypt, key, conns[i])
    {
      if i > 0 {
        assert conns[i] == conns[1..][i - 1];
        assert after[i] == rest[i - 1];
      }
    }
  }

  lemma FirstFailureInTail(decrypt: Cipher, key: string, conns: seq<DatabaseConnection>)
    requires |conns| > 0 && DecryptEntry(decrypt, key, conns[0]).Success?
    ensures forall i :: IsFirstFailure(decrypt, key, conns, i) ==> i > 0 && IsFirstFailure(decrypt, key, conns[1..], i - 1)
  {
    forall i | IsFirstFailure(decrypt, key, conns, i)
      ensures i > 0 && IsFirstFailure(decrypt, key, conns[1..], i - 1)
    {
      assert forall j :: 0 <= j < i - 1 ==> conns[1..][j] == conns[j + 1];
    }
  }

  /** The pass over a parsed configuration; on failure Go returns the zero
      configuration together with the error (see `RewritePasswords`). */
  function DecryptConfiguration(cfg: ApplicationConfiguration, key: string, decrypt: Cipher): (r: Result<ApplicationConfiguration, CipherError>)
    ensures r.Success? <==> forall i :: 0 <= i < |cfg.connections| ==> DecryptEntry(decrypt, key, cfg.connections[i]).Success?
    ensures r.Success? ==> r.value == cfg.(connections := r.value.connections)
    ensures r.Success? ==> Rewritten(decrypt, key, cfg.connections, r.value.connections)
    ensures forall i :: IsFirstFailure(decrypt, key, cfg.connections, i) ==>
              r == Failure(DecryptEntry(decrypt, key, cfg.connections[i]).error)
  {
    var conns :- DecryptAll(decrypt, key, cfg.connections);
    Success(cfg.(connections := conns))
  }

  /** The loop as written: entries are rewritten in place, in order, and the
      first error returns the zero configuration with that error, never a
      partly rewritten one. */
  method RewritePasswords(cfg: ApplicationConfiguration, key: string, decrypt: Cipher)
    returns (out: ApplicationConfiguration, err: Option<CipherError>)
    ensures err.None? ==> DecryptConfiguration(cfg, key, decrypt) == Success(out)
    ensures err.Some? ==> out == EmptyConfiguration
    ensures err.Some? ==> DecryptConfiguration(cfg, key, decrypt) == Failure(err.value)
  {
    var conns := cfg.connections;
    var i := 0;
    while i < |conns|
      invariant 0 <= i <= |conns| == |cfg.connections|
      invariant forall j :: 0 <= j < i ==>
                  && DecryptEntry(decrypt, key, cfg.connections[j]).Success?
                  && conns[j] == cfg.connections[j].(dbPassword := DecryptEntry(decrypt, key, cfg.connections[j]).value)
      invariant conns[i..] == cfg.connections[i..]
    {
      var dbcfg := conns[i];
      assert dbcfg == cfg.connections[i];
      var password := decrypt(key, TrimSpace(dbcfg.dbPassword));
      if password.Failure? {
        assert IsFirstFailure(decrypt, key, cfg.connections, i);
        return EmptyConfiguration, Some(password.error);
      }
      conns := conns[i := dbcfg.(dbPassword := password.value)];
      i := i + 1;
    }
    out := cfg.(connections := conns);
    ghost var r := DecryptConfiguration(cfg, key, decrypt);
    assert r.value.connections == conns;
    return out, None;
  }

  /** Decryption does not disturb lookup: resolving a brand in the decrypted
      configuration finds the same entry as in the stored one, now carrying
      its plaintext password, and fails exactly when that lookup fails. */
  lemma LookupAfterDecryption(cfg: ApplicationConfiguration, key: string, decrypt: Cipher, query: string)
    requires DecryptConfiguration(cfg, key, decrypt).Success?
    ensures GetDatabaseConfig(DecryptConfiguration(cfg, key, decrypt).value, query) ==
            match GetDatabaseConfig(cfg, query)
            case Success(e) => Success(e.(dbPassword := DecryptEntry(decrypt, key, e).value))
            case Failure(err) => Failure(err)
  {
    var out := DecryptConfiguration(cfg, key, decrypt).value;
    var lowered := Lower(query);
    assert forall j :: 0 <= j < |cfg.connections| ==>
      (MatchesLowered(out.connections[j], lowered) <==> MatchesLowered(cfg.connections[j], lowered));
    var m1 := FirstMatch(cfg.connections, lowered);
    var m2 := FirstMatch(out.connections, lowered);
    assert m1 == m2;
  }
}
