/**
 * Configuration and account selection of the ACME-DNS provider for libdns
 * (provider.go): which ACME-DNS account a TXT record update is sent with.
 */
module AcmeDns {
  import opened Wrappers
  import opened Strings

  /** The label that DNS-01 challenge record names start with; stripped once before lookup. */
  const AcmePrefix: string := "_acme-challenge."

  /** One entry of the per-domain account table, in the ACME-DNS client's storage layout. */
  datatype DomainConfig = DomainConfig(
    username: string,
    password: string,
    subdomain: string,
    fullDomain: string,  // informational only: never read by the provider
    serverUrl: string)

  /** The credentials of one ACME-DNS account, as an update needs them. */
  datatype Account = Account(username: string, password: string, subdomain: string, serverUrl: string)

  /**
   * The provider's configuration. `configs` is `None` when the Go map is nil;
   * `Some(map[])` is a present but empty table.
   */
  datatype Provider = Provider(
    configs: Option<map<string, DomainConfig>>,
    username: string,
    password: string,
    subdomain: string,
    serverUrl: string)

  /** The four flat credential fields, named in the order they are validated. */
  datatype Field = Username | Password | Subdomain | ServerUrl

  /** The error kinds the provider reports; message texts are not modelled. */
  datatype Error =
    | EmptyField(field: Field)        // a flat credential field is empty
    | ConfigNotFound(domain: string)  // no table entry for the lookup key
    | UnsupportedRecordType           // a record that is not TXT was requested
    | UpdateFailed                    // the ACME-DNS server did not accept the update
    | GetUnsupported                  // listing records is not offered by ACME-DNS

  /** libdns.AbsoluteName(name, zone): a library function whose definition is not part of this model. */
  type NameResolver = (string, string) -> string

  /** Position of a flat field in the validation order. */
  function Rank(f: Field): nat
  {
    match f
    case Username => 0
    case Password => 1
    case Subdomain => 2
    case ServerUrl => 3
  }

  /** The value of one flat credential field of `p`. */
  function FieldValue(p: Provider, f: Field): string
  {
    match f
    case Username => p.username
    case Password => p.password
    case Subdomain => p.subdomain
    case ServerUrl => p.serverUrl
  }

  /**
   * The table key for a record: the absolute name with every leading and
   * trailing dot cut off, then one `_acme-challenge.` removed from its front.
   */
  function LookupKey(absName: NameResolver, zone: string, name: string): (key: string)
    ensures var t := Trim(absName(name, zone), '.');
      t == AcmePrefix + key || (t == key && !(AcmePrefix <= key))
  {
    TrimPrefix(Trim(absName(name, zone), '.'), AcmePrefix)
  }

  /**
   * Go's `Provider.selectAccount`. With a table, the table alone decides: the
   * entry under the lookup key, or ConfigNotFound. Without one, the first empty
   * flat field in the order Username, Password, Subdomain, ServerURL is
   * reported, and otherwise the four flat fields are the account.
   */
  function SelectAccount(p: Provider, absName: NameResolver, zone: string, name: string): (r: Result<Account, Error>)
    ensures r.Failure? ==> r.error.EmptyField? || r.error.ConfigNotFound?
    ensures p.configs.Some? ==>
      var key := LookupKey(absName, zone, name);
      && (r.Success? <==> key in p.configs.value)
      && (r.Failure? ==> r.error == ConfigNotFound(key))
      && (r.Success? ==>
            var cfg := p.configs.value[key];
            r.value.username == cfg.username && r.value.password == cfg.password &&
            r.value.subdomain == cfg.subdomain && r.value.serverUrl == cfg.serverUrl)
    ensures p.configs.None? ==> (r.Success? <==> forall f :: FieldValue(p, f) != "")
    ensures p.configs.None? && r.Success? ==>
      r.value == Account(p.username, p.password, p.subdomain, p.serverUrl)
    ensures p.configs.None? && r.Failure? ==>
      && r.error.EmptyField?
      && FieldValue(p, r.error.field) == ""
      && forall g :: Rank(g) < Rank(r.error.field) ==> FieldValue(p, g) != ""
  {
    match p.configs
    case Some(table) =>
      var domain := LookupKey(absName, zone, name);
      if domain !in table then Failure(ConfigNotFound(domain))
      else
        var cfg := table[domain];
        Success(Account(cfg.username, cfg.password, cfg.subdomain, cfg.serverUrl))
    case None =>
      if p.username == "" then
        assert FieldValue(p, Username) == "";
        Failure(EmptyField(Username))
      else if p.password == "" then
        assert FieldValue(p, Password) == "";
        Failure(EmptyField(Password))
      else if p.subdomain == "" then
        assert FieldValue(p, Subdomain) == "";
        Failure(EmptyField(Subdomain))
      else if p.serverUrl == "" then
        assert FieldValue(p, ServerUrl) == "";
        Failure(EmptyField(ServerUrl))
      else
        Success(Account(p.username, p.password, p.subdomain, p.serverUrl))
  }

  /**
   * When a table is configured, the flat fields are never consulted: two
   * providers with the same table select the same account, whatever their
   * flat fields hold, even when those are empty.
   */
  lemma {:induction false} ConfigsTakePrecedence(p: Provider, q: Provider, absName: NameResolver, zone: string, name: string)
    requires p.configs.Some? && q.configs == p.configs
    ensures SelectAccount(p, absName, zone, name) == SelectAccount(q, absName, zone, name)
  {
  }

  /** A key missing from the table is an error even when every flat field is set. */
  lemma {:induction false} MissingKeyNeverFallsBack(p: Provider, absName: NameResolver, zone: string, name: string)
    requires p.configs.Some? && LookupKey(absName, zone, name) !in p.configs.value
    requires forall f :: FieldValue(p, f) != ""
    ensures SelectAccount(p, absName, zone, name) == Failure(ConfigNotFound(LookupKey(absName, zone, name)))
  {
  }

  /** Without a table, one account serves every zone and record name. */
  lemma {:induction false} FlatAccountIgnoresNames(p: Provider, a: NameResolver, zone: string, name: string, b: NameResolver, zone': string, name': string)
    requires p.configs.None?
    ensures SelectAccount(p, a, zone, name) == SelectAccount(p, b, zone', name')
  {
  }

  /** The example from the DNS-01 convention: `_acme-challenge` in the zone `example.com.` is looked up as `example.com`. */
  lemma {:induction false} LookupKeyOfChallengeName(absName: NameResolver)
    requires absName("_acme-challenge", "example.com.") == "_acme-challenge.example.com."
    ensures LookupKey(absName, "example.com.", "_acme-challenge") == "example.com"
  {
    var abs := "_acme-challenge.example.com.";
    var seg := abs[0..|abs| - 1];
    assert seg == AcmePrefix + "example.com";
    assert IsTrimmedSegment(abs, '.', 0, |abs| - 1);
    TrimIsTheTrimmedSegment(abs, '.', 0, |abs| - 1);
    assert AcmePrefix <= seg;
    assert seg[|AcmePrefix|..] == "example.com";
  }

  /** Only one `_acme-challenge.` label is removed: a doubled one leaves the second in the key. */
  lemma {:induction false} LookupKeyStripsPrefixOnce(absName: NameResolver, zone: string, name: string, rest: string)
    requires Trim(absName(name, zone), '.') == AcmePrefix + AcmePrefix + rest
    ensures LookupKey(absName, zone, name) == AcmePrefix + rest
  {
    TrimPrefixTwice(Trim(absName(name, zone), '.'), AcmePrefix, rest);
  }
}
