/**
 * The pieces of the server's HTTP layer that compute something: how a request
 * latency is displayed in the trace log, how the client of a request or
 * response is labelled, and the middleware that carries the client address
 * from a request to its response. The handler behind the middleware is a
 * parameter.
 */
module ServerHttp {
  import W = Wrappers
  import opened StdInt
  import opened StdStr

  // ----------------------------------------------------------- FmtDuration

  /** What `FmtDuration` writes: a whole number and its unit, or the `{:.3}s` rendering of `as_secs_f32`. */
  datatype Shown = Micros(text: string) | Millis(text: string) | Seconds(nanos: nat)

  /** The largest `u128`, the type of `as_micros` and `as_millis`. */
  const U128_MAX: nat := TWO_64 * TWO_64 - 1

  /** `Duration::as_micros`, for a duration of `nanos` nanoseconds. */
  function AsMicros(nanos: nat): nat {
    nanos / 1_000
  }

  /** `Duration::as_millis`. */
  function AsMillis(nanos: nat): nat {
    nanos / 1_000_000
  }

  /**
   * `FmtDuration::fmt`: one second or more in seconds, one millisecond or more
   * in whole milliseconds, anything shorter in whole microseconds.
   */
  function FmtDuration(nanos: nat): (r: Shown)
    ensures r.Seconds? <==> AsMicros(nanos) >= 1_000_000
    ensures r.Millis? <==> 1_000 <= AsMicros(nanos) < 1_000_000
    ensures r.Micros? <==> AsMicros(nanos) < 1_000
    ensures r.Seconds? ==> r.nanos == nanos
  {
    var micros := AsMicros(nanos);
    if micros >= 1_000_000 then Seconds(nanos)
    else if micros >= 1_000 then Millis(DecimalString(AsMillis(nanos)) + "ms")
    else Micros(DecimalString(micros) + "μs")
  }

  /**
   * The text reads back as the duration truncated to its unit: `k` printed
   * with `μs` means the duration lies in `[k μs, k + 1 μs)`, `k` printed with
   * `ms` means it lies in `[k ms, k + 1 ms)` with `k` between 1 and 999.
   */
  lemma FmtDurationReadsBack(nanos: nat)
    ensures var r := FmtDuration(nanos);
      && (r.Micros? ==> exists k: nat ::
            (k < 1_000 && r.text == DecimalString(k) + "μs" && k * 1_000 <= nanos < (k + 1) * 1_000))
      && (r.Millis? ==> exists k: nat ::
            (1 <= k < 1_000 && r.text == DecimalString(k) + "ms" && k * 1_000_000 <= nanos < (k + 1) * 1_000_000))
  {
    var r := FmtDuration(nanos);
    if r.Micros? {
      var k := AsMicros(nanos);
      assert r.text == DecimalString(k) + "μs";
    } else if r.Millis? {
      var k := AsMillis(nanos);
      assert r.text == DecimalString(k) + "ms";
    }
  }

  /** The printed number is exactly the truncated count: it parses back to it. */
  lemma FmtDurationNumber(nanos: nat)
    requires AsMicros(nanos) < 1_000_000
    ensures var r := FmtDuration(nanos);
      var k := if r.Millis? then AsMillis(nanos) else AsMicros(nanos);
      var unit := if r.Millis? then "ms" else "μs";
      && r.text == DecimalString(k) + unit
      && ParseUnsigned(r.text[..|r.text| - 2], U128_MAX) == W.Ok(k)
  {
    var r := FmtDuration(nanos);
    var k := if r.Millis? then AsMillis(nanos) else AsMicros(nanos);
    var unit := if r.Millis? then "ms" else "μs";
    assert (DecimalString(k) + unit)[..|DecimalString(k) + unit| - 2] == DecimalString(k);
    ParseDecimalString(k, U128_MAX);
  }

  /** The thresholds fall on whole units: 999 μs, 1 ms, 999 ms and 1 s. */
  lemma FmtDurationThresholds()
    ensures FmtDuration(999_999).Micros?
    ensures FmtDuration(1_000_000) == Millis(DecimalString(1) + "ms")
    ensures FmtDuration(999_999_999) == Millis(DecimalString(999) + "ms")
    ensures FmtDuration(1_000_000_000) == Seconds(1_000_000_000)
  {
  }

  // ------------------------------------------------------------ get_client

  /**
   * A client's socket address: IPv4 with its four octets, or IPv6 with its
   * address text (its compressed hexadecimal form is not modelled), and the port.
   */
  datatype SocketAddr =
    | V4(a: u8, b: u8, c: u8, d: u8, port: u16)
    | V6(ip: string, port: u16)

  /**
   * The address part of `SocketAddr`'s `Display`: a V4 address's text splits
   * at its dots into its four octets in decimal; a V6 address is its text in
   * brackets.
   */
  function HostText(addr: SocketAddr): (h: string)
    ensures addr.V4? ==> Split(h, '.') == [DecimalString(addr.a), DecimalString(addr.b), DecimalString(addr.c), DecimalString(addr.d)]
    ensures addr.V6? ==> h == "[" + addr.ip + "]"
  {
    match addr
    case V4(a, b, c, d, _) =>
      var octets := [DecimalString(a), DecimalString(b), DecimalString(c), DecimalString(d)];
      DottedSplits(octets);
      Join(octets, '.')
    case V6(ip, _) => "[" + ip + "]"
  }

  /**
   * `SocketAddr`'s `Display`: `a.b.c.d:port`, or `[ip]:port`. The address
   * text comes first, then a colon and the port in decimal.
   */
  function AddrText(addr: SocketAddr): (r: string)
    ensures ':' in r
    ensures |r| == |HostText(addr)| + 1 + |DecimalString(addr.port)|
    ensures StartsWith(r, HostText(addr) + ":") && EndsWith(r, ":" + DecimalString(addr.port))
  {
    var host, port := HostText(addr), DecimalString(addr.port);
    var r := host + ":" + port;
    assert r[..|host| + 1] == host + ":";
    assert r[|host|..] == ":" + port;
    assert r[|host|] == ':';
    r
  }

  lemma NoDotInDigits(s: string)
    requires AllDigits(s)
    ensures '.' !in s
  {
  }

  /** Decimal texts joined by dots split back into the same texts. */
  lemma DottedSplits(octets: seq<string>)
    requires |octets| >= 1
    requires forall i :: 0 <= i < |octets| ==> AllDigits(octets[i])
    ensures Split(Join(octets, '.'), '.') == octets
  {
    forall i | 0 <= i < |octets|
      ensures '.' !in octets[i]
    {
      NoDotInDigits(octets[i]);
    }
    SplitJoin(octets, '.');
  }

  const ANONYMOUS: string := "anonymous"

  /** `get_client!`: the client address as text, or `anonymous` when no connection info is attached. */
  function ClientLabel(connectInfo: W.Option<SocketAddr>): (r: string)
    ensures connectInfo.Some? ==> r == AddrText(connectInfo.value)
    ensures r == ANONYMOUS <==> connectInfo.None?
  {
    match connectInfo
    case None => ANONYMOUS
    case Some(addr) =>
      assert ':' !in ANONYMOUS;
      AddrText(addr)
  }

  // ------------------------------------------------- req_to_res_extensions

  /** A request, with the `ConnectInfo` extension the server attaches when it knows the peer. */
  datatype Request = Request(connectInfo: W.Option<SocketAddr>, uri: string)

  /** A response, with its own `ConnectInfo` extension. */
  datatype Response = Response(status: nat, connectInfo: W.Option<SocketAddr>)

  /**
   * `req_to_res_extensions`: run the handler, then copy the request's client
   * address into the response when the request carried one; otherwise the
   * response is left as the handler made it.
   */
  function ReqToResExtensions(req: Request, next: Request -> Response): (r: Response)
    ensures r.status == next(req).status
    ensures req.connectInfo.Some? ==> r.connectInfo == req.connectInfo
    ensures req.connectInfo.None? ==> r == next(req)
  {
    var response := next(req);
    match req.connectInfo
    case Some(client) => response.(connectInfo := W.Some(client))
    case None => response
  }

  /**
   * The request and the response trace lines name the same client whenever
   * the request carried its address, or when neither the request nor the
   * handler attached one.
   */
  lemma TraceLinesAgree(req: Request, next: Request -> Response)
    requires req.connectInfo.Some? || next(req).connectInfo.None?
    ensures ClientLabel(ReqToResExtensions(req, next).connectInfo) == ClientLabel(req.connectInfo)
  {
  }
}
