/** The pool configuration (`LdapConfig`), its required-field check and the
    defaulting rule applied before a pool is built. */
module Config {
  import opened Wrappers

  /** Go's time.Duration: signed 64-bit nanoseconds. */
  const MinDuration: int := -0x8000_0000_0000_0000
  const MaxDuration: int := 0x7FFF_FFFF_FFFF_FFFF
  type Duration = d: int | MinDuration <= d <= MaxDuration

  const Second: Duration := 1_000_000_000
  const Minute: Duration := 60 * Second
  const Hour: Duration := 60 * Minute

  /** Defaults substituted for non-positive settings. */
  const DefaultMaxOpen: int := 10
  const DefaultMaxIdle: int := 5
  const DefaultConnTimeout: Duration := 30 * Second
  const DefaultConnMaxLifetime: Duration := Hour
  const DefaultConnMaxIdleTime: Duration := 30 * Minute

  /** A caller-supplied `*tls.Config`, reduced to the two fields the pool's
      helpers set. */
  datatype TlsConfig = TlsConfig(serverName: string, insecureSkipVerify: bool)

  datatype LdapConfig = LdapConfig(
    url: string,
    baseDN: string,
    adminDN: string,
    adminPass: string,
    maxOpen: int,
    maxIdle: int,
    connMaxLifetime: Duration,
    connMaxIdleTime: Duration,
    connTimeout: Duration,
    tlsConfig: Option<TlsConfig>,
    useStartTLS: bool,
    insecureSkipVerify: bool)

  /** Which required field a rejected configuration is missing; each is
      reported wrapped in ErrInvalidConfig. */
  datatype ConfigError = UrlRequired | AdminDNRequired | AdminPassRequired

  /** validateConfig: the three required fields, checked in this order. */
  function ValidateConfig(c: LdapConfig): (r: Outcome<ConfigError>)
    ensures r.Fail? <==> c.url == "" || c.adminDN == "" || c.adminPass == ""
    ensures r == Fail(UrlRequired) <==> c.url == ""
    ensures r == Fail(AdminDNRequired) <==> c.url != "" && c.adminDN == ""
    ensures r == Fail(AdminPassRequired) <==> c.url != "" && c.adminDN != "" && c.adminPass == ""
  {
    if c.url == "" then Fail(UrlRequired)
    else if c.adminDN == "" then Fail(AdminDNRequired)
    else if c.adminPass == "" then Fail(AdminPassRequired)
    else Pass
  }

  /** Only the URL and the bind identity and password decide validity: the
      base DN, the limits, the durations and the TLS options are not checked. */
  lemma ValidateIgnoresOtherFields(c: LdapConfig, d: LdapConfig)
    requires c.url == d.url && c.adminDN == d.adminDN && c.adminPass == d.adminPass
    ensures ValidateConfig(c) == ValidateConfig(d)
  {
  }

  /** The five numeric settings all hold usable (positive) values. */
  predicate Defaulted(c: LdapConfig) {
    c.maxOpen > 0 && c.maxIdle > 0 && c.connTimeout > 0 &&
    c.connMaxLifetime > 0 && c.connMaxIdleTime > 0
  }

  /** The configuration setDefaults leaves behind, as a value. */
  function WithDefaults(c: LdapConfig): (r: LdapConfig)
    ensures Defaulted(r)
  {
    c.(maxOpen := if c.maxOpen <= 0 then DefaultMaxOpen else c.maxOpen,
       maxIdle := if c.maxIdle <= 0 then DefaultMaxIdle else c.maxIdle,
       connTimeout := if c.connTimeout <= 0 then DefaultConnTimeout else c.connTimeout,
       connMaxLifetime := if c.connMaxLifetime <= 0 then DefaultConnMaxLifetime else c.connMaxLifetime,
       connMaxIdleTime := if c.connMaxIdleTime <= 0 then DefaultConnMaxIdleTime else c.connMaxIdleTime)
  }

  /** setDefaults: the field-by-field updates the Go code makes through its
      pointer, on a local copy. */
  method SetDefaults(config: LdapConfig) returns (c: LdapConfig)
    ensures c == WithDefaults(config)
    ensures Defaulted(c)
  {
    c := config;
    if c.maxOpen <= 0 {
      c := c.(maxOpen := DefaultMaxOpen);
    }
    if c.maxIdle <= 0 {
      c := c.(maxIdle := DefaultMaxIdle);
    }
    if c.connTimeout <= 0 {
      c := c.(connTimeout := DefaultConnTimeout);
    }
    if c.connMaxLifetime <= 0 {
      c := c.(connMaxLifetime := DefaultConnMaxLifetime);
    }
    if c.connMaxIdleTime <= 0 {
      c := c.(connMaxIdleTime := DefaultConnMaxIdleTime);
    }
  }

  /** After defaulting every numeric setting is positive; a positive setting
      is kept as given, a non-positive one becomes its default, and the
      strings and TLS options pass through untouched. */
  lemma WithDefaultsSpec(c: LdapConfig)
    ensures Defaulted(WithDefaults(c))
    ensures c.maxOpen > 0 ==> WithDefaults(c).maxOpen == c.maxOpen
    ensures c.maxOpen <= 0 ==> WithDefaults(c).maxOpen == 10
    ensures c.maxIdle > 0 ==> WithDefaults(c).maxIdle == c.maxIdle
    ensures c.maxIdle <= 0 ==> WithDefaults(c).maxIdle == 5
    ensures c.connTimeout > 0 ==> WithDefaults(c).connTimeout == c.connTimeout
    ensures c.connTimeout <= 0 ==> WithDefaults(c).connTimeout == 30_000_000_000
    ensures c.connMaxLifetime > 0 ==> WithDefaults(c).connMaxLifetime == c.connMaxLifetime
    ensures c.connMaxLifetime <= 0 ==> WithDefaults(c).connMaxLifetime == 3_600_000_000_000
    ensures c.connMaxIdleTime > 0 ==> WithDefaults(c).connMaxIdleTime == c.connMaxIdleTime
    ensures c.connMaxIdleTime <= 0 ==> WithDefaults(c).connMaxIdleTime == 1_800_000_000_000
    ensures WithDefaults(c).(maxOpen := c.maxOpen, maxIdle := c.maxIdle, connTimeout := c.connTimeout,
                             connMaxLifetime := c.connMaxLifetime, connMaxIdleTime := c.connMaxIdleTime) == c
  {
  }

  /** Defaulting twice is defaulting once, and a configuration whose settings
      are all positive is a fixed point. */
  lemma WithDefaultsIdempotent(c: LdapConfig)
    ensures WithDefaults(WithDefaults(c)) == WithDefaults(c)
    ensures Defaulted(c) ==> WithDefaults(c) == c
  {
  }
}
