/**
 * MojangProxyProvider.java: the proxy list the Java service draws outgoing
 * proxies from. A crawl turns the four lists of `host:port` strings of the
 * proxy endpoint's answer into proxy specifications, SOCKS4 first, then
 * SOCKS5, HTTP and HTTPS; a crawl that throws leaves the stored list as it
 * was. `get` draws one element of the stored list. The HTTP fetch, its JSON
 * decoding and the scheduling are left out: a crawl is given the decoded
 * answer, and `SecureRandom.nextInt` is the parameter `pick`.
 */
module ProxyProvider {
  import opened Wrappers
  import opened Ascii

  /** `Integer.MIN_VALUE` and `Integer.MAX_VALUE` */
  const INT_MIN: int := -0x8000_0000
  const INT_MAX: int := 0x7fff_ffff
  /** `.nonProxyHosts("localhost")` */
  const NON_PROXY_HOSTS: string := "localhost"
  /** `.connectTimeoutMillis(20_000)` */
  const CONNECT_TIMEOUT_MILLIS: int := 20000

  /** The list an entry came from. */
  datatype ProxyType = Socks4 | Socks5 | Http | Https

  /** `ProxyProvider.Proxy`: the kind of proxy a specification configures. */
  datatype ProxyKind = SocksV4 | SocksV5 | HttpProxy

  /** What one `TypeSpec` consumer configures. */
  datatype ProxySpec = ProxySpec(kind: ProxyKind, host: string, port: int, nonProxyHosts: string, connectTimeoutMillis: int)

  /** `ProxyResponse`: the four lists, each possibly absent (`null`) in the decoded answer. */
  datatype ProxyResponse = ProxyResponse(socks4: Option<seq<string>>, socks5: Option<seq<string>>,
                                         http: Option<seq<string>>, https: Option<seq<string>>)

  /**
   * What the proxy endpoint's answer comes to once read and decoded: the
   * request, the read or the decoding threw (a body that decodes to `null`
   * throws at its first `forEach`); the body was empty, so the `map` never
   * runs and `block()` returns `null`; or the decoded answer.
   */
  datatype Fetched = Threw | EmptyBody | Body(resp: ProxyResponse)

  /** Why a crawl throws. */
  datatype CrawlError =
    | FetchFailed              // the request, the read or the decoding threw
    | MissingList              // `forEach` on a `null` list
    | MalformedEntry(entry: string)  // no port field, or a port `parseInt` rejects

  /** Why `get` throws. */
  datatype GetError =
    | NoListYet                // the reference holds `null`: no crawl has stored a list, or the last one stored `null`
    | EmptyList                // `nextInt(0)` rejects its bound

  /** The switch in `createTypeSpec`: HTTPS proxies are configured as HTTP ones. */
  function KindOf(t: ProxyType): (k: ProxyKind)
    ensures k == HttpProxy <==> t == Http || t == Https
    ensures k == SocksV4 <==> t == Socks4
    ensures k == SocksV5 <==> t == Socks5
  {
    match t
    case Socks4 => SocksV4
    case Socks5 => SocksV5
    case Http => HttpProxy
    case Https => HttpProxy
  }

  /** The list without its trailing empty strings. */
  function DropTrailingEmpty(parts: seq<string>): (r: seq<string>)
    ensures r == [] || r[|r| - 1] != ""
    ensures |r| <= |parts| && r == parts[..|r|]
    ensures forall i :: |r| <= i < |parts| ==> parts[i] == ""
  {
    if parts != [] && parts[|parts| - 1] == "" then DropTrailingEmpty(parts[..|parts| - 1]) else parts
  }

  /**
   * Java `s.split(":")`: the text itself when it holds no ':', otherwise the
   * pieces between the colons with the trailing empty pieces removed.
   */
  function JavaSplit(s: string): (parts: seq<string>)
    ensures ':' !in s ==> parts == [s]
    ensures forall i :: 0 <= i < |parts| ==> ':' !in parts[i]
    ensures ':' in s ==> && |parts| <= |Split(s, ':')| && parts == Split(s, ':')[..|parts|]
                         && (forall i :: |parts| <= i < |Split(s, ':')| ==> Split(s, ':')[i] == "")
                         && (parts == [] || parts[|parts| - 1] != "")
  {
    if ':' !in s then [s] else DropTrailingEmpty(Split(s, ':'))
  }

  /** The value of a decimal text with an optional sign, unbounded. */
  function SignedValue(s: string): Option<int> {
    if |s| >= 2 && (s[0] == '-' || s[0] == '+') && AllDigits(s[1..]) then
      Some(if s[0] == '-' then -(DigitsValue(s[1..]) as int) else DigitsValue(s[1..]) as int)
    else if |s| >= 1 && AllDigits(s) then Some(DigitsValue(s))
    else None
  }

  /** `Integer.parseInt(s)`: an optional sign and at least one decimal digit, within 32 bits. */
  function ParseInt(s: string): (r: Option<int>)
    ensures r.Some? ==> INT_MIN <= r.value <= INT_MAX
    ensures r.Some? <==> SignedValue(s).Some? && INT_MIN <= SignedValue(s).value <= INT_MAX
  {
    match SignedValue(s)
    case Some(v) => if INT_MIN <= v <= INT_MAX then Some(v) else None
    case None => None
  }

  /**
   * `createTypeSpec(info, type)`: host and port from the first two fields of
   * `info.split(":")`, parsed at once, so a malformed entry throws.
   */
  function CreateTypeSpec(info: string, t: ProxyType): Result<ProxySpec, CrawlError> {
    var split := JavaSplit(info);
    if |split| < 2 then Failure(MalformedEntry(info))
    else
      match ParseInt(split[1])
      case None => Failure(MalformedEntry(info))
      case Some(port) => Success(ProxySpec(KindOf(t), split[0], port, NON_PROXY_HOSTS, CONNECT_TIMEOUT_MILLIS))
  }

  /**
   * An entry yields a specification exactly when it has a second field that
   * `parseInt` accepts: host and port from the first two fields, the kind from
   * the list, "localhost" bypassed and a 20-second connect timeout.
   */
  lemma CreateTypeSpecFields(info: string, t: ProxyType)
    ensures CreateTypeSpec(info, t).Success? <==> |JavaSplit(info)| >= 2 && ParseInt(JavaSplit(info)[1]).Some?
    ensures CreateTypeSpec(info, t).Success? ==>
              CreateTypeSpec(info, t).value
              == ProxySpec(KindOf(t), JavaSplit(info)[0], ParseInt(JavaSplit(info)[1]).value,
                           NON_PROXY_HOSTS, CONNECT_TIMEOUT_MILLIS)
    ensures CreateTypeSpec(info, t).Failure? ==> CreateTypeSpec(info, t).error == MalformedEntry(info)
  {
  }

  /** The consumer `forEach` is handed: one entry to a specification, or the exception it throws. */
  type Convert = string -> Result<ProxySpec, CrawlError>

  /** `host -> createTypeSpec(host, type)` for the list of type `t`. */
  function Creator(t: ProxyType): Convert {
    info => CreateTypeSpec(info, t)
  }

  /** The specifications `convert` makes of one list, in order, or the first exception it throws. */
  function SpecsOf(hosts: seq<string>, convert: Convert): Result<seq<ProxySpec>, CrawlError> {
    if hosts == [] then Success([])
    else
      var init := hosts[..|hosts| - 1];
      match SpecsOf(init, convert)
      case Failure(e) => Failure(e)
      case Success(specs) =>
        match convert(hosts[|hosts| - 1])
        case Failure(e) => Failure(e)
        case Success(spec) => Success(specs + [spec])
  }

  /** A list yields specifications exactly when every entry converts, one per entry, in order. */
  lemma {:induction false} SpecsOfEntries(hosts: seq<string>, convert: Convert)
    ensures SpecsOf(hosts, convert).Success? <==> forall i :: 0 <= i < |hosts| ==> convert(hosts[i]).Success?
    ensures SpecsOf(hosts, convert).Success? ==>
              && |SpecsOf(hosts, convert).value| == |hosts|
              && forall i :: 0 <= i < |hosts| ==> SpecsOf(hosts, convert).value[i] == convert(hosts[i]).value
  {
    if hosts != [] {
      var init := hosts[..|hosts| - 1];
      SpecsOfEntries(init, convert);
      assert forall i :: 0 <= i < |hosts| - 1 ==> init[i] == hosts[i];
    }
  }

  /** One `forEach` of `crawl` on the list built so far: `null` throws, and so does a malformed entry. */
  function Append(built: Result<seq<ProxySpec>, CrawlError>, hosts: Option<seq<string>>, convert: Convert)
    : Result<seq<ProxySpec>, CrawlError>
  {
    match built
    case Failure(e) => Failure(e)
    case Success(proxyList) =>
      match hosts
      case None => Failure(MissingList)
      case Some(h) =>
        match SpecsOf(h, convert)
        case Failure(e) => Failure(e)
        case Success(specs) => Success(proxyList + specs)
  }

  /** The four lists in the order `crawl` walks them, and their types. */
  function ListsOf(resp: ProxyResponse): seq<Option<seq<string>>> {
    [resp.socks4, resp.socks5, resp.http, resp.https]
  }

  const TYPES: seq<ProxyType> := [Socks4, Socks5, Http, Https]

  /**
   * What the first `k` `forEach` calls of `crawl` have built, when the list of
   * type `t` is converted by `creator(t)`.
   */
  function Built(resp: ProxyResponse, k: nat, creator: ProxyType -> Convert): Result<seq<ProxySpec>, CrawlError>
    requires k <= 4
  {
    if k == 0 then Success([]) else Append(Built(resp, k - 1, creator), ListsOf(resp)[k - 1], creator(TYPES[k - 1]))
  }

  /** What `crawl()` returns (`None` for `null`) or the exception it throws. */
  function CrawlResult(fetched: Fetched): Result<Option<seq<ProxySpec>>, CrawlError> {
    match fetched
    case Threw => Failure(FetchFailed)
    case EmptyBody => Success(None)
    case Body(resp) =>
      match Built(resp, 4, Creator)
      case Success(specs) => Success(Some(specs))
      case Failure(e) => Failure(e)
  }

  /** Once a `forEach` has thrown, the crawl's outcome is that exception. */
  lemma {:induction false} FailureSticks(resp: ProxyResponse, creator: ProxyType -> Convert, k: nat, j: nat)
    requires k <= j <= 4 && Built(resp, k, creator).Failure?
    ensures Built(resp, j, creator) == Built(resp, k, creator)
  {
    if j > k {
      FailureSticks(resp, creator, k, j - 1);
    }
  }

  /** `list.forEach(host -> proxyList.add(createTypeSpec(host, type)))`: append one list's specifications. */
  method AddAll(proxyList: seq<ProxySpec>, hosts: seq<string>, convert: Convert)
    returns (r: Result<seq<ProxySpec>, CrawlError>)
    ensures r == Append(Success(proxyList), Some(hosts), convert)
  {
    var list := proxyList;
    ghost var added: seq<ProxySpec> := [];
    var i := 0;
    assert hosts[..0] == [];
    while i < |hosts|
      invariant 0 <= i <= |hosts|
      invariant list == proxyList + added
      invariant SpecsOf(hosts[..i], convert) == Success(added)
    {
      match convert(hosts[i])
      case Failure(e) =>
        FirstFailure(hosts, convert, i);
        return Failure(e);
      case Success(spec) =>
        SpecsStep(hosts, convert, i);
        list := list + [spec];
        added := added + [spec];
        i := i + 1;
    }
    assert hosts[..i] == hosts;
    return Success(list);
  }

  /** Parsing one more entry extends the specifications of a prefix by one. */
  lemma SpecsStep(hosts: seq<string>, convert: Convert, i: nat)
    requires i < |hosts| && SpecsOf(hosts[..i], convert).Success? && convert(hosts[i]).Success?
    ensures SpecsOf(hosts[..i + 1], convert) == Success(SpecsOf(hosts[..i], convert).value + [convert(hosts[i]).value])
  {
    assert hosts[..i + 1][..i] == hosts[..i];
  }

  /** A list whose first `i` entries parse and whose entry `i` does not fails with entry `i`'s error. */
  lemma {:induction false} FirstFailure(hosts: seq<string>, convert: Convert, i: nat)
    requires i < |hosts| && SpecsOf(hosts[..i], convert).Success? && convert(hosts[i]).Failure?
    ensures SpecsOf(hosts, convert) == Failure(convert(hosts[i]).error)
    decreases |hosts|
  {
    var init := hosts[..|hosts| - 1];
    if i < |hosts| - 1 {
      assert init[..i] == hosts[..i];
      FirstFailure(init, convert, i);
    } else {
      assert init == hosts[..i];
    }
  }

  /** `crawl()`: nothing for an empty body, otherwise the lists of the decoded answer. */
  method Crawl(fetched: Fetched) returns (r: Result<Option<seq<ProxySpec>>, CrawlError>)
    ensures r == CrawlResult(fetched)
  {
    match fetched
    case Threw => return Failure(FetchFailed);
    case EmptyBody => return Success(None);
    case Body(response) =>
      var built := CrawlResponse(response);
      match built
      case Success(specs) => return Success(Some(specs));
      case Failure(e) => return Failure(e);
  }

  /** The `map` of `crawl()`: the four lists in the order SOCKS4, SOCKS5, HTTP, HTTPS. */
  method CrawlResponse(response: ProxyResponse) returns (r: Result<seq<ProxySpec>, CrawlError>)
    ensures r == Built(response, 4, Creator)
  {
    var lists := ListsOf(response);
    r := Success([]);
    var k := 0;
    while k < 4
      invariant 0 <= k <= 4
      invariant r == Built(response, k, Creator)
    {
      if r.Failure? {
        FailureSticks(response, Creator, k, 4);
        return;
      }
      if lists[k].None? {
        FailureSticks(response, Creator, k + 1, 4);
        return Failure(MissingList);
      }
      r := AddAll(r.value, lists[k].value, Creator(TYPES[k]));
      k := k + 1;
    }
  }

  /** The text `host:port` splits into the host and the port's digits. */
  lemma SplitHostPort(host: string, text: string)
    requires ':' !in host && ':' !in text && text != ""
    ensures JavaSplit(host + ":" + text) == [host, text]
  {
    SplitWithout(text, ':');
    SplitJoin(host, ':', text);
    assert host + ":" + text == host + [':'] + text;
    assert ':' in host + ":" + text by {
      assert (host + ":" + text)[|host|] == ':';
    }
  }

  /** `parseInt` reads back a printed port. */
  lemma ParsePrinted(port: nat)
    requires port <= INT_MAX
    ensures ParseInt(DecimalText(port)) == Some(port)
  {
    var text := DecimalText(port);
    DecimalTextRoundTrip(port);
    assert text[0] != '-' && text[0] != '+' by {
      assert IsDigit(text[0]);
    }
  }

  /** An entry `host:port` with a colon-free host and a port in range yields that host and port. */
  lemma HostPortEntry(host: string, port: nat, t: ProxyType)
    requires ':' !in host && port <= INT_MAX
    ensures CreateTypeSpec(host + ":" + DecimalText(port), t)
         == Success(ProxySpec(KindOf(t), host, port, NON_PROXY_HOSTS, CONNECT_TIMEOUT_MILLIS))
  {
    var text := DecimalText(port);
    DecimalTextHasNo(port, ':');
    SplitHostPort(host, text);
    ParsePrinted(port);
  }

  /** Two colon-free fields, the second non-empty, survive at the head of `split` whatever follows them. */
  lemma LeadingFields(host: string, text: string, rest: string)
    requires ':' !in host && ':' !in text && text != ""
    ensures |JavaSplit(host + ":" + text + ":" + rest)| >= 2
    ensures JavaSplit(host + ":" + text + ":" + rest)[0] == host
    ensures JavaSplit(host + ":" + text + ":" + rest)[1] == text
  {
    var info := host + ":" + text + ":" + rest;
    assert info == host + [':'] + (text + [':'] + rest);
    SplitJoin(host, ':', text + [':'] + rest);
    SplitJoin(text, ':', rest);
    assert info[|host|] == ':';
    var fields := Split(info, ':');
    assert fields[0] == host && fields[1] == text;
  }

  /**
   * Only the first two fields are read: `host:port` followed by further
   * fields, empty or not, yields the same host and port.
   */
  lemma HostPortThenMore(host: string, port: nat, rest: string, t: ProxyType)
    requires ':' !in host && port <= INT_MAX
    ensures CreateTypeSpec(host + ":" + DecimalText(port) + ":" + rest, t)
         == Success(ProxySpec(KindOf(t), host, port, NON_PROXY_HOSTS, CONNECT_TIMEOUT_MILLIS))
  {
    DecimalTextHasNo(port, ':');
    DecimalTextRoundTrip(port);
    LeadingFields(host, DecimalText(port), rest);
    ParsePrinted(port);
  }

  /** An entry without ':' has no port field and throws. */
  lemma EntryWithoutColonFails(info: string, t: ProxyType)
    requires ':' !in info
    ensures CreateTypeSpec(info, t) == Failure(MalformedEntry(info))
  {
  }

  /** A successful crawl has all four lists, each parsed, and concatenates their specifications in order. */
  lemma CrawlConcat(resp: ProxyResponse, creator: ProxyType -> Convert)
    requires Built(resp, 4, creator).Success?
    ensures resp.socks4.Some? && resp.socks5.Some? && resp.http.Some? && resp.https.Some?
    ensures SpecsOf(resp.socks4.value, creator(Socks4)).Success? && SpecsOf(resp.socks5.value, creator(Socks5)).Success?
            && SpecsOf(resp.http.value, creator(Http)).Success? && SpecsOf(resp.https.value, creator(Https)).Success?
    ensures Built(resp, 4, creator).value
         == SpecsOf(resp.socks4.value, creator(Socks4)).value + SpecsOf(resp.socks5.value, creator(Socks5)).value
          + SpecsOf(resp.http.value, creator(Http)).value + SpecsOf(resp.https.value, creator(Https)).value
  {
    assert Built(resp, 3, creator).Success?;
    assert Built(resp, 2, creator).Success?;
    assert Built(resp, 1, creator).Success?;
    var sa := SpecsOf(resp.socks4.value, creator(Socks4)).value;
    assert Built(resp, 1, creator).value == [] + sa == sa;
  }

  /** Entries `offset ..` of `list` are what `convert` makes of `hosts`, one per entry, in order. */
  ghost predicate Segment(list: seq<ProxySpec>, offset: nat, hosts: seq<string>, convert: Convert) {
    offset + |hosts| <= |list|
    && forall i :: 0 <= i < |hosts| ==> convert(hosts[i]).Success? && list[offset + i] == convert(hosts[i]).value
  }

  /** A slice holding a list's parsed specifications is a segment for that list. */
  lemma SegmentOfSpecs(list: seq<ProxySpec>, offset: nat, hosts: seq<string>, convert: Convert)
    requires SpecsOf(hosts, convert).Success? && offset + |hosts| <= |list|
    requires list[offset .. offset + |hosts|] == SpecsOf(hosts, convert).value
    ensures Segment(list, offset, hosts, convert)
  {
    SpecsOfEntries(hosts, convert);
    forall i | 0 <= i < |hosts|
      ensures convert(hosts[i]).Success? && list[offset + i] == convert(hosts[i]).value
    {
      assert list[offset .. offset + |hosts|][i] == list[offset + i];
    }
  }

  /** How many entries the first `k` lists hold (an absent list holds none). */
  function Offset(resp: ProxyResponse, k: nat): nat
    requires k <= 4
  {
    if k == 0 then 0
    else Offset(resp, k - 1) + (match ListsOf(resp)[k - 1] case None => 0 case Some(h) => |h|)
  }

  /**
   * After `k` successful `forEach` calls the list holds, for each list `j < k`,
   * one specification per entry, in order, starting after the entries of the lists before it.
   */
  lemma {:induction false} BuiltSegments(resp: ProxyResponse, k: nat, creator: ProxyType -> Convert)
    requires k <= 4 && Built(resp, k, creator).Success?
    ensures |Built(resp, k, creator).value| == Offset(resp, k)
    ensures forall j :: 0 <= j < k ==> ListsOf(resp)[j].Some?
    ensures forall j :: 0 <= j < k ==>
              Segment(Built(resp, k, creator).value, Offset(resp, j), ListsOf(resp)[j].value, creator(TYPES[j]))
  {
    if k > 0 {
      BuiltSegments(resp, k - 1, creator);
      AppendSegments(Built(resp, k - 1, creator), ListsOf(resp)[k - 1], creator(TYPES[k - 1]));
    }
  }

  /**
   * A successful `forEach` keeps what was built as a prefix and adds one
   * specification per entry of its list right after it.
   */
  lemma AppendSegments(built: Result<seq<ProxySpec>, CrawlError>, hosts: Option<seq<string>>, convert: Convert)
    requires Append(built, hosts, convert).Success?
    ensures built.Success? && hosts.Some?
    ensures |Append(built, hosts, convert).value| == |built.value| + |hosts.value|
    ensures Segment(Append(built, hosts, convert).value, |built.value|, hosts.value, convert)
    ensures forall offset, h, c :: Segment(built.value, offset, h, c) ==>
              Segment(Append(built, hosts, convert).value, offset, h, c)
  {
    var specs := SpecsOf(hosts.value, convert).value;
    var list := built.value + specs;
    ListSegment(hosts.value, convert);
    forall offset, h, c | Segment(built.value, offset, h, c)
      ensures Segment(list, offset, h, c)
    {
      PrefixSegment(built.value, specs, offset, h, c);
    }
    assert list[|built.value| .. |built.value| + |specs|] == specs;
    ShiftSegment(list, |built.value|, specs, hosts.value, convert);
  }

  /** A segment of a list is a segment of any extension of it. */
  lemma PrefixSegment(prefix: seq<ProxySpec>, rest: seq<ProxySpec>, offset: nat, hosts: seq<string>, convert: Convert)
    requires Segment(prefix, offset, hosts, convert)
    ensures Segment(prefix + rest, offset, hosts, convert)
  {
    forall i | 0 <= i < |hosts|
      ensures convert(hosts[i]).Success? && (prefix + rest)[offset + i] == convert(hosts[i]).value
    {
      assert (prefix + rest)[offset + i] == prefix[offset + i];
    }
  }

  /**
   * A successful crawl lists every SOCKS4 entry, then every SOCKS5, HTTP and
   * HTTPS entry, one specification per entry, in input order. This holds for
   * any converter; `crawl` is the instance `creator := Creator`.
   */
  lemma CrawlOrder(resp: ProxyResponse, creator: ProxyType -> Convert)
    requires Built(resp, 4, creator).Success?
    ensures resp.socks4.Some? && resp.socks5.Some? && resp.http.Some? && resp.https.Some?
    ensures var list := Built(resp, 4, creator).value;
            var a, b, c, d := resp.socks4.value, resp.socks5.value, resp.http.value, resp.https.value;
            && |list| == |a| + |b| + |c| + |d|
            && Segment(list, 0, a, creator(Socks4))
            && Segment(list, |a|, b, creator(Socks5))
            && Segment(list, |a| + |b|, c, creator(Http))
            && Segment(list, |a| + |b| + |c|, d, creator(Https))
  {
    BuiltSegments(resp, 4, creator);
    assert ListsOf(resp)[0].Some? && ListsOf(resp)[1].Some? && ListsOf(resp)[2].Some? && ListsOf(resp)[3].Some?;
  }

  /** A list's specifications form a segment of their own, as long as the list. */
  lemma ListSegment(hosts: seq<string>, convert: Convert)
    requires SpecsOf(hosts, convert).Success?
    ensures |SpecsOf(hosts, convert).value| == |hosts|
    ensures Segment(SpecsOf(hosts, convert).value, 0, hosts, convert)
  {
    SpecsOfEntries(hosts, convert);
    SegmentOfSpecs(SpecsOf(hosts, convert).value, 0, hosts, convert);
  }

  /** A segment at 0 of a slice of `list` is a segment of `list` at the slice's start. */
  lemma ShiftSegment(list: seq<ProxySpec>, offset: nat, s: seq<ProxySpec>, hosts: seq<string>, convert: Convert)
    requires |s| == |hosts| && offset + |s| <= |list| && list[offset .. offset + |s|] == s
    requires Segment(s, 0, hosts, convert)
    ensures Segment(list, offset, hosts, convert)
  {
    forall i | 0 <= i < |hosts|
      ensures convert(hosts[i]).Success? && list[offset + i] == convert(hosts[i]).value
    {
      assert s[i] == list[offset + i];
    }
  }

  class MojangProxyProvider {
    /** `typeSpecs`: the stored list, `None` while the reference holds `null`. */
    var typeSpecs: Option<seq<ProxySpec>>
    /** Whether `close()` has shut the crawl executor down. */
    var closed: bool

    /** The constructor runs the first crawl and waits for it. */
    constructor (fetched: Fetched)
      ensures !closed
      ensures CrawlResult(fetched).Success? ==> typeSpecs == CrawlResult(fetched).value
      ensures CrawlResult(fetched).Failure? ==> typeSpecs == None
    {
      closed := false;
      typeSpecs := None;
      new;
      RunCrawl(fetched);
    }

    /**
     * The scheduled crawl task: store what the crawl returns, `null` included,
     * or log and keep the old list. No task runs after `close()`.
     */
    method RunCrawl(fetched: Fetched)
      modifies this
      ensures closed == old(closed)
      ensures !closed && CrawlResult(fetched).Success? ==> typeSpecs == CrawlResult(fetched).value
      ensures closed || CrawlResult(fetched).Failure? ==> typeSpecs == old(typeSpecs)
    {
      if closed {
        return;
      }
      var result := Crawl(fetched);
      if result.Success? {
        typeSpecs := result.value;
      }
    }

    /** `get()`: the element at the drawn index `pick` of the stored list. */
    method Get(pick: nat) returns (r: Result<ProxySpec, GetError>)
      requires typeSpecs.Some? && |typeSpecs.value| > 0 ==> pick < |typeSpecs.value|
      ensures typeSpecs.None? ==> r == Failure(NoListYet)
      ensures typeSpecs == Some([]) ==> r == Failure(EmptyList)
      ensures typeSpecs.Some? && |typeSpecs.value| > 0 ==> r.Success?
      ensures r.Success? ==> typeSpecs.Some? && r.value in typeSpecs.value && r.value == typeSpecs.value[pick]
    {
      if typeSpecs.None? {
        return Failure(NoListYet);
      }
      var list := typeSpecs.value;
      if |list| == 0 {
        return Failure(EmptyList);
      }
      return Success(list[pick]);
    }

    /** `close()`: shut the crawl executor down. */
    method Close()
      modifies this
      ensures closed && typeSpecs == old(typeSpecs)
    {
      closed := true;
    }
  }
}
