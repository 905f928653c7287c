/** The decisions createConnection makes before and while talking to the
    server: which scheme, which TLS settings, and which step failed. The
    dialing, the TLS handshake and the bind themselves are foreign calls;
    their answers are the fields of a Handshake. */
module Transport {
  import opened Wrappers
  import opened Config

  /** The URL selects LDAPS only if it is longer than the bare prefix. */
  predicate IsLdaps(url: string) {
    |url| > 8 && url[..8] == "ldaps://"
  }

  /** The test is a prefix test with a strict length bound: the bare prefix
      is plain, and anything after it makes the URL LDAPS. */
  lemma IsLdapsSpec(url: string, rest: string)
    ensures IsLdaps(url) <==> "ldaps://" < url
    ensures !IsLdaps("ldaps://")
    ensures IsLdaps("ldaps://" + rest) <==> rest != []
  {
    assert ("ldaps://" + rest)[..8] == "ldaps://";
  }

  /** The TLS settings prepared before the scheme test: the caller's own, or
      a fresh one carrying InsecureSkipVerify when that flag or StartTLS asks
      for TLS, or none. */
  function PreparedTls(c: LdapConfig): (t: Option<TlsConfig>)
    ensures c.tlsConfig.Some? ==> t == c.tlsConfig
    ensures c.tlsConfig.None? ==>
      (t.Some? <==> c.insecureSkipVerify || c.useStartTLS)
    ensures c.tlsConfig.None? && t.Some? ==> t.value == TlsConfig("", c.insecureSkipVerify)
  {
    if c.tlsConfig.None? && (c.insecureSkipVerify || c.useStartTLS)
    then Some(TlsConfig("", c.insecureSkipVerify))
    else c.tlsConfig
  }

  /** How a connection is established: TLS from the start, or plain with an
      optional StartTLS upgrade. */
  datatype Plan =
    | Ldaps(timeout: Duration, tls: TlsConfig)
    | Plain(timeout: Duration, startTls: Option<TlsConfig>)

  /** The dial timeout: the configured one, or 30s if it is not positive. */
  function DialTimeout(c: LdapConfig): (d: Duration)
    ensures d > 0
    ensures c.connTimeout > 0 ==> d == c.connTimeout
    ensures c.connTimeout <= 0 ==> d == 30 * Second
  {
    if c.connTimeout <= 0 then 30 * Second else c.connTimeout
  }

  /** The plan createConnection follows for a configuration. */
  function PlanFor(c: LdapConfig): (p: Plan) {
    var t := PreparedTls(c);
    if IsLdaps(c.url) then
      Ldaps(DialTimeout(c), if t.None? then TlsConfig("", false) else t.value)
    else
      Plain(DialTimeout(c),
            if c.useStartTLS then Some(if t.None? then TlsConfig("", false) else t.value) else None)
  }

  /** StartTLS is used exactly when the URL is not LDAPS and it is asked for;
      a caller's TLS settings are used unchanged whenever TLS is used, and
      InsecureSkipVerify only matters when the caller gave none. */
  lemma PlanSpec(c: LdapConfig)
    ensures PlanFor(c).Ldaps? <==> IsLdaps(c.url)
    ensures PlanFor(c).Plain? ==> (PlanFor(c).startTls.Some? <==> c.useStartTLS)
    ensures PlanFor(c).timeout == DialTimeout(c)
    ensures c.tlsConfig.Some? && PlanFor(c).Ldaps? ==> PlanFor(c).tls == c.tlsConfig.value
    ensures c.tlsConfig.Some? && PlanFor(c).Plain? && PlanFor(c).startTls.Some? ==>
      PlanFor(c).startTls.value == c.tlsConfig.value
    ensures c.tlsConfig.None? && PlanFor(c).Ldaps? ==>
      PlanFor(c).tls == TlsConfig("", c.insecureSkipVerify)
    ensures c.tlsConfig.None? && PlanFor(c).Plain? && PlanFor(c).startTls.Some? ==>
      PlanFor(c).startTls.value == TlsConfig("", c.insecureSkipVerify)
  {
  }

  /** The server-side answers for one connection attempt: whether the dial,
      the StartTLS upgrade and the bind succeed, and the session dialled. */
  datatype Handshake = Handshake(dialOk: bool, startTlsOk: bool, bindOk: bool, session: nat)

  /** Which phase failed; each is returned wrapped, without retrying. */
  datatype CreateError = DialFailed | StartTlsFailed | BindFailed

  /** The outcome of following a plan: dial, then StartTLS if planned, then
      bind, stopping at the first failure. */
  function Establish(p: Plan, h: Handshake): (r: Outcome<CreateError>)
    ensures r == Pass <==> h.dialOk && h.bindOk && (p.Plain? && p.startTls.Some? ==> h.startTlsOk)
    ensures r == Fail(DialFailed) <==> !h.dialOk
    ensures r == Fail(StartTlsFailed) <==> h.dialOk && p.Plain? && p.startTls.Some? && !h.startTlsOk
  {
    if !h.dialOk then Fail(DialFailed)
    else if p.Plain? && p.startTls.Some? && !h.startTlsOk then Fail(StartTlsFailed)
    else if !h.bindOk then Fail(BindFailed)
    else Pass
  }
}
