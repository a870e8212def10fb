/**
 * The class-based client (`kaiascan.ts`): `ApiClient` with its mutable base
 * URL and header record, the `fetch` that composes the URL with
 * `URLSearchParams` and checks the envelope, the ten endpoint methods, and
 * the `KaiascanSDK` facade with its truthy-only configuration.
 */
module Client {
  import opened Wrappers
  import opened Decimal
  import opened PercentEncoding
  import opened FormUrlEncoded
  import opened Responses

  // ---- CONFIG ----

  const BASE_HOST := "mainnet-oapi.kaiascan.io"
  const BASE_URL := "https://" + BASE_HOST + "/"
  const TOKENS := "api/v1/tokens"
  const NFTS := "api/v1/nfts"
  const BLOCKS := "api/v1/blocks"
  const TRANSACTIONS := "api/v1/transactions"
  const CONTRACTS := "api/v1/contracts"
  const DEFAULT_HEADER_ENTRIES: map<string, string> := map["Content-Type" := "application/json"]

  // ---- Errors and transport ----

  /** `ApiError`: a message with optional HTTP status, envelope code and whole envelope. */
  datatype ApiError<T> = ApiError(
    message: string,
    statusCode: Option<int>,
    code: Option<int>,
    response: Option<ApiResponse<T>>)

  /** What `response.json()` gives: the parsed envelope, or a rejection. */
  datatype Body<T> = Json(envelope: ApiResponse<T>) | NotJson(reason: string)

  /** What the global `fetch` gives: a response with `ok` and `status`, or a rejection. */
  datatype FetchResponse<T> =
    | Responded(ok: bool, status: int, body: Body<T>)
    | NetworkFailure(reason: string)

  /** How `fetch<T>` ends: it returns the envelope, throws an `ApiError`, or lets a foreign rejection pass through. */
  datatype Outcome<T> =
    | Success(response: ApiResponse<T>)
    | Thrown(error: ApiError<T>)
    | Propagated(reason: string)

  /**
   * The checks `fetch<T>` makes once the transport has answered. A non-ok
   * response is an HTTP error and its body is never looked at; an ok one
   * whose envelope has `code != 0` is an API error carrying that envelope;
   * otherwise the whole envelope comes back, not just its `data`.
   */
  function CheckResponse<T>(resp: FetchResponse<T>): (r: Outcome<T>)
    ensures r.Success? <==> resp.Responded? && resp.ok && resp.body.Json? && resp.body.envelope.code == 0
    ensures r.Success? ==> r.response == resp.body.envelope
    ensures r.Thrown? <==> resp.Responded? && (!resp.ok || (resp.body.Json? && resp.body.envelope.code != 0))
    ensures r.Thrown? ==> (r.error.statusCode.Some? <==> r.error.code.None?)
    ensures r.Thrown? ==> (r.error.code.Some? <==> r.error.response.Some?)
    ensures resp.Responded? && !resp.ok ==>
      r == Thrown(ApiError("HTTP error! status: " + IntToString(resp.status), Some(resp.status), None, None))
    ensures resp.Responded? && resp.ok && resp.body.Json? && resp.body.envelope.code != 0 ==>
      r == Thrown(ApiError(resp.body.envelope.msg, None, Some(resp.body.envelope.code), Some(resp.body.envelope)))
    ensures r.Propagated? ==> r.reason == (if resp.NetworkFailure? then resp.reason else resp.body.reason)
  {
    match resp
    case NetworkFailure(reason) => Propagated(reason)
    case Responded(ok, status, body) =>
      if !ok then Thrown(ApiError("HTTP error! status: " + IntToString(status), Some(status), None, None))
      else match body
        case NotJson(reason) => Propagated(reason)
        case Json(data) =>
          if data.code != 0 then Thrown(ApiError(data.msg, None, Some(data.code), Some(data)))
          else Success(data)
  }

  // ---- URL composition ----

  predicate IsLowerAlpha(c: char) {
    'a' <= c <= 'z'
  }

  predicate IsHostChar(c: char) {
    IsLowerAlpha(c) || ('0' <= c <= '9') || c == '.' || c == '-'
  }

  /**
   * A domain the URL parser keeps as it is: lower-case letters, digits, `.`
   * and `-`; every label starts with a letter, so the host is never read as
   * an IPv4 address and no label is empty; no `--`, so no label is an
   * `xn--` punycode label.
   */
  predicate IsHost(h: string) {
    && |h| > 0
    && IsLowerAlpha(h[0])
    && (forall i :: 0 <= i < |h| ==> IsHostChar(h[i]))
    && (forall i :: 0 <= i < |h| - 1 ==> h[i] == '.' ==> IsLowerAlpha(h[i + 1]))
    && (forall i :: 0 <= i < |h| - 1 ==> h[i] == '-' ==> h[i + 1] != '-')
    && h[|h| - 1] != '.'
  }

  /** A base path the URL parser keeps as it is and that ends in `/`. */
  predicate IsBasePath(p: string) {
    && |p| > 0 && p[0] == '/' && p[|p| - 1] == '/'
    && (forall i :: 0 <= i < |p| ==> IsPathChar(p[i]) || p[i] == '/')
    && (forall i :: 0 <= i < |p| ==> !IsDotSegmentAt(p, i))
  }

  /**
   * A base URL that `new URL` accepts and serializes back unchanged:
   * `https://`, a host, no port and no user info, and a path ending in `/`,
   * with no query and no fragment.
   */
  predicate IsBaseUrl(base: string) {
    && |base| > 8
    && base[..8] == "https://"
    && match FirstIndexOf(base[8..], '/')
       case None => false
       case Some(j) => IsHost(base[8..][..j]) && IsBasePath(base[8..][j..])
  }

  /** Every host and base path makes a base URL. */
  lemma BaseUrlOf(host: string, path: string)
    requires IsHost(host) && IsBasePath(path)
    ensures IsBaseUrl("https://" + host + path)
  {
    var base := "https://" + host + path;
    var rest := base[8..];
    assert rest == host + path;
    assert forall i :: 0 <= i < |host| ==> rest[i] == host[i];
    assert rest[|host|] == '/';
    assert FirstIndexOf(rest, '/') == Some(|host|);
    assert rest[..|host|] == host;
    assert rest[|host|..] == path;
  }

  /** The default `CONFIG.BASE_URL` is such a base. */
  lemma DefaultBaseIsBase()
    ensures IsBaseUrl(BASE_URL)
  {
    DefaultHostIsHost();
    assert IsBasePath("/");
    BaseUrlOf(BASE_HOST, "/");
  }

  lemma DefaultHostIsHost()
    ensures IsHost(BASE_HOST)
  {
    DefaultHostChars();
    DefaultHostLabels();
    DefaultHostHyphens();
  }

  lemma DefaultHostChars()
    ensures forall i :: 0 <= i < |BASE_HOST| ==> IsHostChar(BASE_HOST[i])
  {
  }

  lemma DefaultHostLabels()
    ensures forall i :: 0 <= i < |BASE_HOST| - 1 ==> BASE_HOST[i] == '.' ==> IsLowerAlpha(BASE_HOST[i + 1])
  {
  }

  lemma DefaultHostHyphens()
    ensures forall i :: 0 <= i < |BASE_HOST| - 1 ==> BASE_HOST[i] == '-' ==> BASE_HOST[i + 1] != '-'
  {
  }

  /** A base URL ends in `/` and holds no `?` or `#`. */
  lemma BaseUrlHasNoQuery(base: string)
    requires IsBaseUrl(base)
    ensures base[|base| - 1] == '/'
    ensures forall i :: 0 <= i < |base| ==> base[i] != '?' && base[i] != '#'
  {
    var rest := base[8..];
    var j := FirstIndexOf(rest, '/').value;
    var host, path := rest[..j], rest[j..];
    assert base == base[..8] + host + path;
    forall i | 0 <= i < |base|
      ensures base[i] != '?' && base[i] != '#'
    {
      Concat3At(base[..8], host, path, i);
    }
  }

  /** Characters the URL parser keeps verbatim in a path (no `%`, `:`, `?`, `#`, `\`, space or non-ASCII). */
  predicate IsPathChar(c: char) {
    IsAsciiAlphanumeric(c) || c in "-._~!$&'()*+,;=@"
  }

  /** The segment starting at `i` is `.` or `..`. */
  predicate IsDotSegmentAt(p: string, i: nat)
    requires i < |p|
  {
    && p[i] == '.'
    && (i == 0 || p[i - 1] == '/')
    && ((i + 1 == |p| || p[i + 1] == '/')
        || (i + 1 < |p| && p[i + 1] == '.' && (i + 2 == |p| || p[i + 2] == '/')))
  }

  /**
   * A relative path that `new URL(endpoint, base)` appends to a `/`-ended
   * base unchanged: not starting with `/`, only path characters and `/`, and
   * no `.` or `..` segment.
   */
  predicate IsPlainRelativePath(p: string) {
    && (|p| > 0 ==> p[0] != '/')
    && (forall i :: 0 <= i < |p| ==> IsPathChar(p[i]) || p[i] == '/')
    && (forall i :: 0 <= i < |p| ==> !IsDotSegmentAt(p, i))
  }

  /** A value a template may place as one whole path segment. */
  predicate IsPlainSegment(s: string) {
    && (forall i :: 0 <= i < |s| ==> IsPathChar(s[i]))
    && s != "." && s != ".."
  }

  /** What an endpoint method hands to `fetch`: a relative endpoint and, maybe, a params record in insertion order. */
  datatype Request = Request(endpoint: string, params: Option<seq<Pair>>)

  /** The search part `URLSearchParams` gives the URL: none when no pair was appended. */
  function Search(params: Option<seq<Pair>>): (s: string)
    ensures s == "" <==> params.None? || params.value == []
    ensures s != "" ==> s[0] == '?'
  {
    if params.Some? && params.value != [] then "?" + Serialize(params.value) else ""
  }

  /** The string `url.toString()` yields for a plain endpoint resolved against a `/`-ended base. */
  function RequestUrl(base: string, req: Request): (u: string)
    ensures |u| >= |base| + |req.endpoint| && u[..|base| + |req.endpoint|] == base + req.endpoint
    ensures |u| == |base| + |req.endpoint| <==> req.params.None? || req.params.value == []
    ensures |u| > |base| + |req.endpoint| ==> u[|base| + |req.endpoint|] == '?'
  {
    base + req.endpoint + Search(req.params)
  }

  /** The part of a URL before its first `?`. */
  function PathPart(url: string): string {
    match FirstIndexOf(url, '?')
    case None => url
    case Some(j) => url[..j]
  }

  /** The text after the first `?` of a URL, if there is one. */
  function QueryPart(url: string): Option<string> {
    match FirstIndexOf(url, '?')
    case None => None
    case Some(j) => Some(url[j + 1..])
  }

  /** One more pair: `&` and the pair, or the pair alone after none. */
  lemma SerializeAppend(ps: seq<Pair>, i: nat)
    requires i < |ps|
    ensures Serialize(ps[..i + 1]) == if i == 0 then SerializePair(ps[i]) else Serialize(ps[..i]) + "&" + SerializePair(ps[i])
  {
    assert ps[..i + 1][..i] == ps[..i];
  }

  /**
   * Reading the composed URL back: before the first `?` stands base ++
   * endpoint; a `?` is there exactly when the params record has a pair; and
   * the query parses back to the record's pairs in insertion order.
   */
  lemma RequestUrlParts(base: string, req: Request)
    requires IsBaseUrl(base) && IsPlainRelativePath(req.endpoint)
    ensures PathPart(RequestUrl(base, req)) == base + req.endpoint
    ensures QueryPart(RequestUrl(base, req)).Some? <==> req.params.Some? && req.params.value != []
    ensures QueryPart(RequestUrl(base, req)).Some? ==> Parse(QueryPart(RequestUrl(base, req)).value) == req.params
  {
    var head := base + req.endpoint;
    NoQuestionMark(base, req.endpoint);
    if req.params.Some? && req.params.value != [] {
      var q := Serialize(req.params.value);
      FirstIndexOfAfter(head, '?', q);
      assert RequestUrl(base, req) == head + ['?'] + q;
      ParseSerialize(req.params.value);
    } else {
      assert RequestUrl(base, req) == head;
    }
  }

  lemma NoQuestionMark(base: string, endpoint: string)
    requires IsBaseUrl(base) && IsPlainRelativePath(endpoint)
    ensures forall i :: 0 <= i < |base + endpoint| ==> (base + endpoint)[i] != '?'
  {
    BaseUrlHasNoQuery(base);
    forall i | 0 <= i < |base + endpoint|
      ensures (base + endpoint)[i] != '?'
    {
      if i >= |base| {
        assert (base + endpoint)[i] == endpoint[i - |base|];
        assert IsPathChar(endpoint[i - |base|]) || endpoint[i - |base|] == '/';
      }
    }
  }

  lemma FirstIndexOfAfter(a: string, c: char, b: string)
    requires forall i :: 0 <= i < |a| ==> a[i] != c
    ensures FirstIndexOf(a + [c] + b, c) == Some(|a|)
    ensures (a + [c] + b)[..|a|] == a && (a + [c] + b)[|a| + 1..] == b
  {
    var t := a + [c] + b;
    assert t[|a|] == c;
    assert forall i :: 0 <= i < |a| ==> t[i] == a[i];
    assert t[..|a|] == a;
    assert t[|a| + 1..] == b;
  }

  // ---- Endpoints ----

  /** The ten endpoint methods of `ApiClient` with their arguments (block numbers are integral). */
  datatype Endpoint =
    | FungibleToken(tokenAddress: string)
    | NftItem(nftAddress: string, tokenId: string)
    | ContractCreationCode(contractAddress: string)
    | LatestBlock
    | Block(blockNumber: nat)
    | Blocks
    | TransactionsOfBlock(blockNumber: nat)
    | TransactionReceiptStatus(transactionHash: string)
    | Transaction(transactionHash: string)
    | ContractSourceCode(contractAddress: string)

  /** The endpoint and params record each method passes to `fetch`. */
  function RequestOf(e: Endpoint): (r: Request)
    ensures r.params.None? <==> e.LatestBlock? || e.Blocks? || e.TransactionsOfBlock? || e.Transaction?
    ensures r.params.Some? ==> |r.params.value| == if e.NftItem? then 2 else 1
  {
    match e
    case FungibleToken(a) => Request(TOKENS, Some([("tokenAddress", a)]))
    case NftItem(a, id) => Request(NFTS, Some([("nftAddress", a), ("tokenId", id)]))
    case ContractCreationCode(a) => Request(CONTRACTS + "/creation-code", Some([("contractAddress", a)]))
    case LatestBlock => Request(BLOCKS + "/latest", None)
    case Block(n) => Request(BLOCKS, Some([("blockNumber", NatToString(n))]))
    case Blocks => Request(BLOCKS, None)
    case TransactionsOfBlock(n) => Request(BLOCKS + "/" + NatToString(n) + "/transactions", None)
    case TransactionReceiptStatus(h) => Request(TRANSACTIONS + "/status", Some([("transactionHash", h)]))
    case Transaction(h) => Request(TRANSACTIONS + "/" + h, None)
    case ContractSourceCode(a) => Request(CONTRACTS + "/source-code", Some([("contractAddress", a)]))
  }

  /** A literal path piece: path characters and `/`, and no `.` at all. */
  predicate IsDotFree(p: string) {
    forall i :: 0 <= i < |p| ==> (IsPathChar(p[i]) || p[i] == '/') && p[i] != '.'
  }

  /** A template `prefix/${s}suffix` stays a plain path when `s` is a plain segment. */
  lemma PlainWithSegment(prefix: string, s: string, suffix: string)
    requires |prefix| > 0 && prefix[0] != '/' && prefix[|prefix| - 1] == '/' && IsDotFree(prefix)
    requires IsPlainSegment(s)
    requires suffix == "" || (suffix[0] == '/' && IsDotFree(suffix))
    ensures IsPlainRelativePath(prefix + s + suffix)
  {
    PathCharsWithSegment(prefix, s, suffix);
    NoDotSegmentWithSegment(prefix, s, suffix);
  }

  lemma PathCharsWithSegment(prefix: string, s: string, suffix: string)
    requires IsDotFree(prefix) && IsPlainSegment(s) && IsDotFree(suffix)
    ensures forall i :: 0 <= i < |prefix + s + suffix| ==> IsPathChar((prefix + s + suffix)[i]) || (prefix + s + suffix)[i] == '/'
  {
    var p := prefix + s + suffix;
    forall i | 0 <= i < |p|
      ensures IsPathChar(p[i]) || p[i] == '/'
    {
      Concat3At(prefix, s, suffix, i);
    }
  }

  /** Where the `i`th element of a three-part concatenation comes from. */
  lemma Concat3At<X>(a: seq<X>, b: seq<X>, c: seq<X>, i: nat)
    requires i < |a| + |b| + |c|
    ensures (a + b + c)[i] == if i < |a| then a[i] else if i < |a| + |b| then b[i - |a|] else c[i - |a| - |b|]
  {
  }

  lemma NoDotSegmentWithSegment(prefix: string, s: string, suffix: string)
    requires |prefix| > 0 && prefix[|prefix| - 1] == '/' && IsDotFree(prefix)
    requires IsPlainSegment(s)
    requires suffix == "" || (suffix[0] == '/' && IsDotFree(suffix))
    ensures forall i :: 0 <= i < |prefix + s + suffix| ==> !IsDotSegmentAt(prefix + s + suffix, i)
  {
    var p := prefix + s + suffix;
    var k := |prefix|;
    forall i | 0 <= i < |p|
      ensures !IsDotSegmentAt(p, i)
    {
      Concat3At(prefix, s, suffix, i);
      if k < i < k + |s| {
        Concat3At(prefix, s, suffix, i - 1);
      } else if i == k && p[i] == '.' && |s| != 1 {
        Concat3At(prefix, s, suffix, i + 1);
        if |s| == 2 {
          assert s == [s[0], s[1]];
        } else {
          Concat3At(prefix, s, suffix, i + 2);
        }
      }
    }
  }

  lemma DigitsArePlain(n: nat)
    ensures IsPlainSegment(NatToString(n))
  {
    var d := NatToString(n);
    assert d != "." && d != ".." by {
      assert IsDigit(d[0]);
    }
  }

  /**
   * Every endpoint a method builds is a plain relative path, except that
   * `getTransaction` puts the hash into the path without encoding, so its
   * endpoint is plain only for a hash that is a plain segment.
   */
  lemma EndpointIsPlain(e: Endpoint)
    requires e.Transaction? ==> IsPlainSegment(e.transactionHash)
    ensures IsPlainRelativePath(RequestOf(e).endpoint)
  {
    match e
    case TransactionsOfBlock(n) => BlockTransactionsPathIsPlain(n);
    case Transaction(h) => TransactionPathIsPlain(h);
    case _ => FixedEndpointsArePlain();
  }

  lemma FixedEndpointsArePlain()
    ensures IsPlainRelativePath(TOKENS) && IsPlainRelativePath(NFTS) && IsPlainRelativePath(BLOCKS)
    ensures IsPlainRelativePath(CONTRACTS + "/creation-code") && IsPlainRelativePath(CONTRACTS + "/source-code")
    ensures IsPlainRelativePath(BLOCKS + "/latest") && IsPlainRelativePath(TRANSACTIONS + "/status")
  {
    CollectionsArePlain();
    ContractPathsArePlain();
    StatusPathsArePlain();
  }

  lemma CollectionsArePlain()
    ensures IsPlainRelativePath(TOKENS) && IsPlainRelativePath(NFTS) && IsPlainRelativePath(BLOCKS)
  {
    DotFreeIsPlain(TOKENS);
    DotFreeIsPlain(NFTS);
    DotFreeIsPlain(BLOCKS);
  }

  lemma ContractPathsArePlain()
    ensures IsPlainRelativePath(CONTRACTS + "/creation-code") && IsPlainRelativePath(CONTRACTS + "/source-code")
  {
    DotFreeIsPlain(CONTRACTS + "/creation-code");
    DotFreeIsPlain(CONTRACTS + "/source-code");
  }

  lemma StatusPathsArePlain()
    ensures IsPlainRelativePath(BLOCKS + "/latest") && IsPlainRelativePath(TRANSACTIONS + "/status")
  {
    DotFreeIsPlain(BLOCKS + "/latest");
    DotFreeIsPlain(TRANSACTIONS + "/status");
  }

  lemma DotFreeIsPlain(p: string)
    requires IsDotFree(p) && (|p| > 0 ==> p[0] != '/')
    ensures IsPlainRelativePath(p)
  {
  }

  lemma BlockTransactionsPathIsPlain(n: nat)
    ensures IsPlainRelativePath(BLOCKS + "/" + NatToString(n) + "/transactions")
  {
    DigitsArePlain(n);
    assert IsDotFree(BLOCKS + "/");
    assert IsDotFree("/transactions");
    PlainWithSegment(BLOCKS + "/", NatToString(n), "/transactions");
  }

  lemma TransactionPathIsPlain(h: string)
    requires IsPlainSegment(h)
    ensures IsPlainRelativePath(TRANSACTIONS + "/" + h)
  {
    assert IsDotFree(TRANSACTIONS + "/");
    PlainWithSegment(TRANSACTIONS + "/", h, "");
    assert TRANSACTIONS + "/" + h + "" == TRANSACTIONS + "/" + h;
  }

  // ---- The composed URLs, endpoint by endpoint ----

  lemma DigitsAreFormSafe(n: nat)
    ensures FormEncode(NatToString(n)) == NatToString(n)
  {
    FormEncodeIdentity(NatToString(n));
  }

  /** `getBlock(n)` asks for `api/v1/blocks?blockNumber=<n in decimal>`. */
  lemma BlockUrl(base: string, n: nat)
    ensures RequestUrl(base, RequestOf(Block(n))) == base + "api/v1/blocks?blockNumber=" + NatToString(n)
  {
    var d := NatToString(n);
    DigitsAreFormSafe(n);
    NamesAreFormSafe();
    OnePairUrl(base, BLOCKS, "blockNumber", d);
    BlockQueryPrefix();
  }

  // BlockQueryPrefix, Regroup5, NftQueryRegroup and Associate only regroup string
  // concatenations; they are separate lemmas to keep the proofs cheap.

  lemma BlockQueryPrefix()
    ensures BLOCKS + "?" + "blockNumber" + "=" == "api/v1/blocks?blockNumber="
  {
  }

  /** The parameter names of the endpoints need no encoding. */
  lemma NamesAreFormSafe()
    ensures forall i :: 0 <= i < |"blockNumber"| ==> IsFormSafe("blockNumber"[i])
    ensures forall i :: 0 <= i < |"nftAddress"| ==> IsFormSafe("nftAddress"[i])
    ensures forall i :: 0 <= i < |"tokenId"| ==> IsFormSafe("tokenId"[i])
  {
  }

  /** A one-pair record whose name needs no encoding. */
  lemma OnePairUrl(base: string, endpoint: string, name: string, value: string)
    requires forall i :: 0 <= i < |name| ==> IsFormSafe(name[i])
    ensures RequestUrl(base, Request(endpoint, Some([(name, value)]))) == base + (endpoint + "?" + name + "=") + FormEncode(value)
  {
    FormEncodeIdentity(name);
    OnePairSearch(name, value);
    Regroup5(base, endpoint, name, FormEncode(value));
  }

  lemma OnePairSearch(name: string, value: string)
    requires FormEncode(name) == name
    ensures Search(Some([(name, value)])) == "?" + (name + "=" + FormEncode(value))
  {
  }

  lemma Regroup5(b: string, e: string, n: string, v: string)
    ensures b + e + ("?" + (n + "=" + v)) == b + (e + "?" + n + "=") + v
  {
  }

  /** `getTransactionsOfBlock(n)` puts the decimal number into the path and sends no query. */
  lemma TransactionsOfBlockUrl(base: string, n: nat)
    requires IsBaseUrl(base)
    ensures RequestUrl(base, RequestOf(TransactionsOfBlock(n))) == base + "api/v1/blocks/" + NatToString(n) + "/transactions"
    ensures QueryPart(RequestUrl(base, RequestOf(TransactionsOfBlock(n)))) == None
  {
    var req := RequestOf(TransactionsOfBlock(n));
    assert req.endpoint == BLOCKS + "/" + NatToString(n) + "/transactions";
    assert Search(req.params) == "";
    EndpointIsPlain(TransactionsOfBlock(n));
    RequestUrlParts(base, req);
  }

  /** `getNftItem` sends exactly two pairs, `nftAddress` first and `tokenId` second. */
  lemma NftItemUrl(base: string, nftAddress: string, tokenId: string)
    requires IsBaseUrl(base)
    ensures PathPart(RequestUrl(base, RequestOf(NftItem(nftAddress, tokenId)))) == base + NFTS
    ensures QueryPart(RequestUrl(base, RequestOf(NftItem(nftAddress, tokenId))))
      == Some("nftAddress=" + FormEncode(nftAddress) + "&tokenId=" + FormEncode(tokenId))
    ensures Parse(QueryPart(RequestUrl(base, RequestOf(NftItem(nftAddress, tokenId)))).value)
      == Some([("nftAddress", nftAddress), ("tokenId", tokenId)])
  {
    NamesAreFormSafe();
    EndpointIsPlain(NftItem(nftAddress, tokenId));
    TwoPairUrl(base, NFTS, "nftAddress", nftAddress, "tokenId", tokenId);
    RequestUrlParts(base, RequestOf(NftItem(nftAddress, tokenId)));
    NftQueryRegroup(FormEncode(nftAddress), FormEncode(tokenId));
  }

  lemma NftQueryRegroup(x: string, y: string)
    ensures "nftAddress" + "=" + x + "&" + "tokenId" + "=" + y == "nftAddress=" + x + "&tokenId=" + y
  {
  }

  /** A two-pair record whose names need no encoding. */
  lemma TwoPairUrl(base: string, endpoint: string, name1: string, value1: string, name2: string, value2: string)
    requires IsBaseUrl(base) && IsPlainRelativePath(endpoint)
    requires forall i :: 0 <= i < |name1| ==> IsFormSafe(name1[i])
    requires forall i :: 0 <= i < |name2| ==> IsFormSafe(name2[i])
    ensures RequestUrl(base, Request(endpoint, Some([(name1, value1), (name2, value2)])))
      == base + endpoint + "?" + (name1 + "=" + FormEncode(value1) + "&" + name2 + "=" + FormEncode(value2))
    ensures QueryPart(RequestUrl(base, Request(endpoint, Some([(name1, value1), (name2, value2)]))))
      == Some(name1 + "=" + FormEncode(value1) + "&" + name2 + "=" + FormEncode(value2))
    ensures Parse(QueryPart(RequestUrl(base, Request(endpoint, Some([(name1, value1), (name2, value2)])))).value)
      == Some([(name1, value1), (name2, value2)])
  {
    var ps := [(name1, value1), (name2, value2)];
    var q := name1 + "=" + FormEncode(value1) + "&" + name2 + "=" + FormEncode(value2);
    TwoPairQuery(name1, value1, name2, value2);
    Associate(base + endpoint, "?", q);
    RequestUrlParts(base, Request(endpoint, Some(ps)));
    QueryPartOf(base, endpoint, ps);
  }

  lemma TwoPairQuery(name1: string, value1: string, name2: string, value2: string)
    requires forall i :: 0 <= i < |name1| ==> IsFormSafe(name1[i])
    requires forall i :: 0 <= i < |name2| ==> IsFormSafe(name2[i])
    ensures Serialize([(name1, value1), (name2, value2)]) == name1 + "=" + FormEncode(value1) + "&" + name2 + "=" + FormEncode(value2)
  {
    FormEncodeIdentity(name1);
    FormEncodeIdentity(name2);
    TwoPairSerialize((name1, value1), (name2, value2));
    var first := name1 + "=" + FormEncode(value1);
    Associate(first + "&", name2 + "=", FormEncode(value2));
  }

  lemma Associate(a: string, b: string, c: string)
    ensures a + (b + c) == a + b + c
  {
  }

  lemma TwoPairSerialize(p: Pair, p2: Pair)
    ensures Serialize([p, p2]) == SerializePair(p) + "&" + SerializePair(p2)
  {
    assert [p, p2][..1] == [p];
  }

  lemma QueryPartOf(base: string, endpoint: string, ps: seq<Pair>)
    requires IsBaseUrl(base) && IsPlainRelativePath(endpoint) && ps != []
    ensures QueryPart(RequestUrl(base, Request(endpoint, Some(ps)))) == Some(Serialize(ps))
  {
    NoQuestionMark(base, endpoint);
    FirstIndexOfAfter(base + endpoint, '?', Serialize(ps));
    assert RequestUrl(base, Request(endpoint, Some(ps))) == (base + endpoint) + ['?'] + Serialize(ps);
  }

  /** `getLatestBlock` and `getBlocks` send no query at all. */
  lemma UnparameterizedUrls(base: string)
    requires IsBaseUrl(base)
    ensures RequestUrl(base, RequestOf(LatestBlock)) == base + "api/v1/blocks/latest"
    ensures RequestUrl(base, RequestOf(Blocks)) == base + "api/v1/blocks"
    ensures QueryPart(RequestUrl(base, RequestOf(LatestBlock))) == None
    ensures QueryPart(RequestUrl(base, RequestOf(Blocks))) == None
  {
    LatestBlockUrl(base);
    BlocksUrl(base);
  }

  lemma LatestBlockUrl(base: string)
    requires IsBaseUrl(base)
    ensures RequestUrl(base, RequestOf(LatestBlock)) == base + "api/v1/blocks/latest"
    ensures QueryPart(RequestUrl(base, RequestOf(LatestBlock))) == None
  {
    var e := RequestOf(LatestBlock);
    EndpointIsPlain(LatestBlock);
    RequestUrlParts(base, e);
    assert e.endpoint == "api/v1/blocks/latest";
  }

  lemma BlocksUrl(base: string)
    requires IsBaseUrl(base)
    ensures RequestUrl(base, RequestOf(Blocks)) == base + "api/v1/blocks"
    ensures QueryPart(RequestUrl(base, RequestOf(Blocks))) == None
  {
    var e := RequestOf(Blocks);
    EndpointIsPlain(Blocks);
    RequestUrlParts(base, e);
  }

  /**
   * `getTransaction` puts the hash into the path as it is: the path of the
   * URL is the base, `api/v1/transactions/` and the unencoded hash.
   */
  lemma TransactionUrl(base: string, hash: string)
    requires IsBaseUrl(base) && IsPlainSegment(hash)
    ensures PathPart(RequestUrl(base, RequestOf(Transaction(hash)))) == base + "api/v1/transactions/" + hash
    ensures QueryPart(RequestUrl(base, RequestOf(Transaction(hash)))) == None
  {
    EndpointIsPlain(Transaction(hash));
    RequestUrlParts(base, RequestOf(Transaction(hash)));
  }

  /** The receipt status of this variant is asked at `api/v1/transactions/status`, with the hash as a query pair. */
  lemma TransactionReceiptStatusUrl(base: string, hash: string)
    requires IsBaseUrl(base)
    ensures PathPart(RequestUrl(base, RequestOf(TransactionReceiptStatus(hash)))) == base + TRANSACTIONS + "/status"
    ensures Parse(QueryPart(RequestUrl(base, RequestOf(TransactionReceiptStatus(hash)))).value)
      == Some([("transactionHash", hash)])
  {
    var e := RequestOf(TransactionReceiptStatus(hash));
    EndpointIsPlain(TransactionReceiptStatus(hash));
    OnePairParts(base, e, "transactionHash", hash);
  }

  /** `getFungibleToken` sends the one pair `tokenAddress` under `api/v1/tokens`. */
  lemma FungibleTokenUrl(base: string, a: string)
    requires IsBaseUrl(base)
    ensures PathPart(RequestUrl(base, RequestOf(FungibleToken(a)))) == base + TOKENS
    ensures Parse(QueryPart(RequestUrl(base, RequestOf(FungibleToken(a)))).value) == Some([("tokenAddress", a)])
  {
    var e := RequestOf(FungibleToken(a));
    EndpointIsPlain(FungibleToken(a));
    OnePairParts(base, e, "tokenAddress", a);
  }

  /** `getContractCreationCode` sends the one pair `contractAddress` under `api/v1/contracts/creation-code`. */
  lemma ContractCreationCodeUrl(base: string, a: string)
    requires IsBaseUrl(base)
    ensures PathPart(RequestUrl(base, RequestOf(ContractCreationCode(a)))) == base + CONTRACTS + "/creation-code"
    ensures Parse(QueryPart(RequestUrl(base, RequestOf(ContractCreationCode(a)))).value) == Some([("contractAddress", a)])
  {
    var e := RequestOf(ContractCreationCode(a));
    EndpointIsPlain(ContractCreationCode(a));
    OnePairParts(base, e, "contractAddress", a);
  }

  /** `getContractSourceCode` sends the one pair `contractAddress` under `api/v1/contracts/source-code`. */
  lemma ContractSourceCodeUrl(base: string, a: string)
    requires IsBaseUrl(base)
    ensures PathPart(RequestUrl(base, RequestOf(ContractSourceCode(a)))) == base + CONTRACTS + "/source-code"
    ensures Parse(QueryPart(RequestUrl(base, RequestOf(ContractSourceCode(a)))).value) == Some([("contractAddress", a)])
  {
    var e := RequestOf(ContractSourceCode(a));
    EndpointIsPlain(ContractSourceCode(a));
    OnePairParts(base, e, "contractAddress", a);
  }

  lemma OnePairParts(base: string, req: Request, name: string, value: string)
    requires IsBaseUrl(base) && IsPlainRelativePath(req.endpoint) && req.params == Some([(name, value)])
    ensures PathPart(RequestUrl(base, req)) == base + req.endpoint
    ensures QueryPart(RequestUrl(base, req)).Some?
    ensures Parse(QueryPart(RequestUrl(base, req)).value) == Some([(name, value)])
  {
    RequestUrlParts(base, req);
  }


  // ---- Heap state ----

  /** A `Record<string, string>` of headers: an object that several clients may share. */
  class HeaderMap {
    var entries: map<string, string>

    constructor (entries: map<string, string>)
      ensures this.entries == entries
    {
      this.entries := entries;
    }
  }

  /** The module-level `CONFIG` object; its one header record is the default of every client. */
  class Config {
    const DEFAULT_HEADERS: HeaderMap

    constructor ()
      ensures fresh(DEFAULT_HEADERS)
      ensures DEFAULT_HEADERS.entries == DEFAULT_HEADER_ENTRIES
    {
      DEFAULT_HEADERS := new HeaderMap(DEFAULT_HEADER_ENTRIES);
    }
  }

  class ApiClient {
    var baseUrl: string
    var headers: HeaderMap

    /**
     * The defaults apply only to an argument left out; an empty base URL
     * passed explicitly is kept. Without headers the client holds the
     * shared `CONFIG.DEFAULT_HEADERS` object itself, not a copy.
     */
    constructor (baseUrl: Option<string>, headers: Option<HeaderMap>, config: Config)
      ensures this.baseUrl == (if baseUrl.Some? then baseUrl.value else BASE_URL)
      ensures this.headers == (if headers.Some? then headers.value else config.DEFAULT_HEADERS)
    {
      this.baseUrl := if baseUrl.Some? then baseUrl.value else BASE_URL;
      this.headers := if headers.Some? then headers.value else config.DEFAULT_HEADERS;
    }

    /**
     * `fetch<T>(endpoint, params)`: resolves the endpoint against the base,
     * appends the params in insertion order to the search parameters, asks
     * the transport for that URL with the current header entries, and checks
     * what comes back.
     */
    method Fetch<T>(endpoint: string, params: Option<seq<Pair>>, transport: (string, map<string, string>) -> FetchResponse<T>)
      returns (r: Outcome<T>)
      requires IsBaseUrl(baseUrl) && IsPlainRelativePath(endpoint)
      ensures r == CheckResponse(transport(RequestUrl(baseUrl, Request(endpoint, params)), headers.entries))
    {
      var url := baseUrl + endpoint;
      if params.Some? {
        var ps := params.value;
        var query := "";
        var i := 0;
        while i < |ps|
          invariant 0 <= i <= |ps|
          invariant query == Serialize(ps[..i])
        {
          SerializeAppend(ps, i);
          query := if i == 0 then SerializePair(ps[i]) else query + "&" + SerializePair(ps[i]);
          i := i + 1;
        }
        assert ps[..i] == ps;
        if query != "" {
          url := url + "?" + query;
        }
      }
      assert url == baseUrl + endpoint + Search(params);
      var response := transport(url, headers.entries);
      r := CheckResponse(response);
    }

    /** One of the ten endpoint methods: `fetch` with that method's endpoint and params. */
    method Call<T>(e: Endpoint, transport: (string, map<string, string>) -> FetchResponse<T>) returns (r: Outcome<T>)
      requires IsBaseUrl(baseUrl)
      requires e.Transaction? ==> IsPlainSegment(e.transactionHash)
      ensures r == CheckResponse(transport(RequestUrl(baseUrl, RequestOf(e)), headers.entries))
    {
      EndpointIsPlain(e);
      r := Fetch(RequestOf(e).endpoint, RequestOf(e).params, transport);
    }

    /** Writes into the header object the client holds, which may be shared with other clients. */
    method SetHeader(key: string, value: string)
      modifies headers
      ensures headers == old(headers) && baseUrl == old(baseUrl)
      ensures headers.entries == old(headers.entries)[key := value]
    {
      headers.entries := headers.entries[key := value];
    }

    method SetBaseUrl(url: string)
      modifies this`baseUrl
      ensures baseUrl == url && headers == old(headers)
    {
      baseUrl := url;
    }

    /** Replaces the header object wholesale; the client then holds the caller's object. */
    method SetHeaders(headers: HeaderMap)
      modifies this`headers
      ensures this.headers == headers && baseUrl == old(baseUrl)
    {
      this.headers := headers;
    }
  }

  /** The options of `new KaiascanSDK(config)` and `setConfig(config)`. */
  datatype SdkConfig = SdkConfig(baseUrl: Option<string>, headers: Option<HeaderMap>)

  /** JavaScript truthiness of an optional string: present and not empty. */
  predicate IsTruthy(s: Option<string>) {
    s.Some? && s.value != ""
  }

  class KaiascanSDK {
    /** The client, which the `api` getter hands out. */
    const client: ApiClient

    /** Falls back to the defaults on an absent or falsy option, so an empty base URL is replaced. */
    constructor (config: Option<SdkConfig>, defaults: Config)
      ensures fresh(client)
      ensures client.baseUrl == (if config.Some? && IsTruthy(config.value.baseUrl) then config.value.baseUrl.value else BASE_URL)
      ensures client.headers == (if config.Some? && config.value.headers.Some? then config.value.headers.value else defaults.DEFAULT_HEADERS)
    {
      var baseUrl := if config.Some? && IsTruthy(config.value.baseUrl) then config.value.baseUrl.value else BASE_URL;
      var headers := if config.Some? && config.value.headers.Some? then config.value.headers.value else defaults.DEFAULT_HEADERS;
      client := new ApiClient(Some(baseUrl), Some(headers), defaults);
    }

    /** Applies only the truthy options and leaves the rest as they were. */
    method SetConfig(config: SdkConfig)
      modifies client
      ensures client.baseUrl == (if IsTruthy(config.baseUrl) then config.baseUrl.value else old(client.baseUrl))
      ensures client.headers == (if config.headers.Some? then config.headers.value else old(client.headers))
    {
      if IsTruthy(config.baseUrl) {
        client.SetBaseUrl(config.baseUrl.value);
      }
      if config.headers.Some? {
        client.SetHeaders(config.headers.value);
      }
    }
  }

  /**
   * `new ApiClient().getBlock(n)`: the default client asks for the block
   * on the mainnet base with the default header entries.
   */
  method DefaultClientBlock<T>(n: nat, transport: (string, map<string, string>) -> FetchResponse<T>) returns (r: Outcome<T>)
    ensures r == CheckResponse(transport(BASE_URL + "api/v1/blocks?blockNumber=" + NatToString(n), DEFAULT_HEADER_ENTRIES))
  {
    var config := new Config();
    var client := new ApiClient(None, None, config);
    DefaultBaseIsBase();
    BlockUrl(BASE_URL, n);
    r := client.Call(Block(n), transport);
  }

  function Lookup(m: map<string, string>, key: string): Option<string> {
    if key in m then Some(m[key]) else None
  }

  /**
   * The default header record is one shared object: a `setHeader` on one
   * default-built client is seen by another default-built client and by an
   * SDK built without headers, and stays in `CONFIG.DEFAULT_HEADERS`; a
   * client given its own record sees none of it.
   */
  method SharedDefaultHeaders() returns (seenByOther: Option<string>, seenBySdk: Option<string>, seenInConfig: Option<string>, seenByOwn: Option<string>)
    ensures seenByOther == Some("Bearer token")
    ensures seenBySdk == Some("Bearer token")
    ensures seenInConfig == Some("Bearer token")
    ensures seenByOwn == None
  {
    var config := new Config();
    var own := new HeaderMap(DEFAULT_HEADER_ENTRIES);
    var first := new ApiClient(None, None, config);
    var second := new ApiClient(None, None, config);
    var withOwn := new ApiClient(None, Some(own), config);
    var sdk := new KaiascanSDK(None, config);
    first.SetHeader("Authorization", "Bearer token");
    seenByOther := Lookup(second.headers.entries, "Authorization");
    seenBySdk := Lookup(sdk.client.headers.entries, "Authorization");
    seenInConfig := Lookup(config.DEFAULT_HEADERS.entries, "Authorization");
    seenByOwn := Lookup(withOwn.headers.entries, "Authorization");
  }
}
