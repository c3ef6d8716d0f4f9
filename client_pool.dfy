/**
 * The shared HTTP client cache of the process-wide context
 * (`Context::get_http_client`): clients are built once per configuration
 * fingerprint "{timeout}_{proxy}" and reused afterwards.
 */
module ClientPool {
  import opened Bridge

  /**
   * A reqwest client as far as the bridge can tell: one built from the
   * configured builder (request timeout, optional proxy) or the library's
   * default client, which the code falls back to when building fails.
   */
  datatype Client = Configured(timeout: u64, proxy: Option<string>) | DefaultClient

  predicate IsDigit(c: char) { '0' <= c <= '9' }

  function DigitChar(d: nat): (c: char)
    requires d < 10
    ensures IsDigit(c)
  {
    ('0' as int + d) as char
  }

  /** Rust's `{}` formatting of an unsigned integer: decimal, no leading zeros. */
  function Decimal(n: nat): (s: string)
    ensures |s| > 0 && forall i | 0 <= i < |s| :: IsDigit(s[i])
  {
    if n < 10 then [DigitChar(n)] else Decimal(n / 10) + [DigitChar(n % 10)]
  }

  /** The number a string of decimal digits denotes. */
  function DecimalValue(s: string): nat
    requires forall i | 0 <= i < |s| :: IsDigit(s[i])
  {
    if s == [] then 0
    else
      assert IsDigit(s[|s| - 1]);
      DecimalValue(s[..|s| - 1]) * 10 + (s[|s| - 1] as int - '0' as int)
  }

  lemma {:induction false} DecimalRoundTrip(n: nat)
    ensures DecimalValue(Decimal(n)) == n
  {
    if n >= 10 {
      DecimalRoundTrip(n / 10);
      var s := Decimal(n);
      assert s[..|s| - 1] == Decimal(n / 10);
    }
  }

  /** The cache key `format!("{}_{}", timeout, proxy)`. */
  function Fingerprint(timeout: u64, proxy: string): string {
    Decimal(timeout) + "_" + proxy
  }

  /**
   * Distinct configurations never share a key: the decimal part holds no
   * `_`, so the first `_` of a key marks where the timeout ends.
   */
  lemma FingerprintInjective(t1: u64, p1: string, t2: u64, p2: string)
    requires Fingerprint(t1, p1) == Fingerprint(t2, p2)
    ensures t1 == t2 && p1 == p2
  {
    var a, b := Decimal(t1), Decimal(t2);
    var key := Fingerprint(t1, p1);
    assert key[|a|] == '_' && key[|b|] == '_';
    assert forall i | 0 <= i < |a| :: key[i] == a[i];
    assert forall i | 0 <= i < |b| :: key[i] == b[i];
    assert |a| == |b|;
    assert a == key[..|a|] == b;
    assert p1 == key[|a| + 1..] == p2;
    DecimalRoundTrip(t1);
    DecimalRoundTrip(t2);
  }

  /**
   * The client a cache miss builds (lines 34-46): the builder carries the
   * timeout; the proxy is added only when it is non-empty and
   * `reqwest::Proxy::all` accepts it, an unusable proxy falling back to the
   * unproxied builder; a builder that fails to build yields the default
   * client. `proxyParses` and `buildSucceeds` are the answers of reqwest.
   */
  function BuildClient(timeout: u64, proxy: string, proxyParses: bool, buildSucceeds: bool): (c: Client)
    ensures c.Configured? <==> buildSucceeds
    ensures c.Configured? ==> c.timeout == timeout
    ensures c.Configured? ==> (c.proxy.Some? <==> proxy != [] && proxyParses)
    ensures c.Configured? && c.proxy.Some? ==> c.proxy.value == proxy
  {
    if !buildSucceeds then DefaultClient
    else if proxy == [] then Configured(timeout, None)
    else if proxyParses then Configured(timeout, Some(proxy))
    else Configured(timeout, None)
  }

  /** A client that some call of BuildClient for (timeout, proxy) can produce. */
  predicate Fits(c: Client, timeout: u64, proxy: string) {
    match c
    case DefaultClient => true
    case Configured(t, p) => t == timeout && (p == None || p == Some(proxy))
  }

  class ClientCache {
    var clients: map<string, Client>

    /** Every cached client was built for the configuration its key encodes. */
    ghost predicate Valid()
      reads this
    {
      forall t: u64, p: string {:trigger Fingerprint(t, p)} ::
        Fingerprint(t, p) in clients ==> Fits(clients[Fingerprint(t, p)], t, p)
    }

    constructor ()
      ensures Valid() && clients == map[]
    {
      clients := map[];
    }

    /**
     * Lookup-or-insert of lines 28-50: a hit returns the stored client and
     * leaves the map alone; a miss builds a client, binds the key to it and
     * leaves every other key as it was. Entries are never removed.
     */
    method GetHttpClient(timeout: u64, proxy: string, proxyParses: bool, buildSucceeds: bool)
      returns (c: Client)
      requires Valid()
      modifies this
      ensures Valid()
      ensures Fits(c, timeout, proxy)
      ensures var key := Fingerprint(timeout, proxy);
        && (key in old(clients) ==> c == old(clients)[key] && clients == old(clients))
        && (key !in old(clients) ==>
              c == BuildClient(timeout, proxy, proxyParses, buildSucceeds)
              && clients == old(clients)[key := c])
    {
      var name := Fingerprint(timeout, proxy);
      if name in clients {
        return clients[name];
      }
      c := BuildClient(timeout, proxy, proxyParses, buildSucceeds);
      clients := clients[name := c];
      forall t: u64, p: string | Fingerprint(t, p) in clients
        ensures Fits(clients[Fingerprint(t, p)], t, p)
      {
        if Fingerprint(t, p) == name {
          FingerprintInjective(t, p, timeout, proxy);
        }
      }
    }
  }
}
