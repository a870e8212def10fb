# kaiascan-sdk-ts in Dafny

The library is a thin TypeScript client for the Kaiascan open API, which serves
data on the Kaia chain. It comes in two variants that the model keeps apart:

- `kaiascan.ts`. An `ApiClient` holds a mutable base URL and a header object.
  Its `fetch` resolves a relative endpoint against the base, appends the
  parameters through `URLSearchParams` in insertion order, and sorts the
  response into an HTTP error, an API error or success. A `KaiascanSDK`
  builds the client with fallbacks and lets `setConfig` change it.
- `src/kaiascan.ts`. A `KaiascanSDK` value fixes a matched pair of base URL and
  chain id. Its nine URL builders concatenate constant paths with
  `encodeURIComponent` of the arguments. Its `fetchApi` rewraps every failure
  into one generic error.

The project has these modules:

- `Wrappers`. An `Option` type.
- `Decimal`. `Number.prototype.toString` on safe integers, and its inverse.
- `Utf8`. UTF-8 encoding of Unicode scalar values, and a strict decoder.
- `PercentEncoding`. `encodeURIComponent` as section 19.2.6 of ECMA-262
  defines it, with `decodeURIComponent` as its reference inverse.
- `FormUrlEncoded`. The application/x-www-form-urlencoded serializer of
  section 5.2 of the WHATWG URL Standard, with the parser of section 5.1 as
  its inverse.
- `Responses`. The `{code, data, msg}` envelope.
- `Client`. Models `kaiascan.ts`. The header record, the `CONFIG` object, the
  client and the SDK are classes. The shared default header object is a heap
  object that clients alias.
- `Sdk`. Models `src/kaiascan.ts`. The SDK is a datatype.
- `Divergences`. Compares the two variants where they disagree.

The network is not modelled; what the transport answers is an input.

- In `Client`, `Fetch` takes a function from the URL and the header entries to a
  `FetchResponse`. That response is either not ok with an HTTP status, or ok
  with a body that parsed as an envelope or did not.
- In `Sdk`, `FetchApi` takes an `AxiosResult`. That result is either a resolved
  envelope or a rejection with its error text.

`Client.ApiClient.Fetch` is proved against `Client.RequestUrl`, the URL as a
function of the base, the endpoint and the parameters. Its loop keeps the
query equal to the serialization of the pairs seen so far. The lemmas about
`RequestUrl` then read the URL back:

- the path is the base followed by the endpoint;
- there is a `?` exactly when a pair was given;
- the query parses back to the same pairs in the same order.

For `src/kaiascan.ts`, `Sdk.ParseUrl` is a reference parser. `Sdk.ParseUrlOfUrl`
proves that it recovers the method and its arguments from every URL the SDK
builds.

## Model

| member | source | states |
|---|---|---|
| Client.CheckResponse | kaiascan.ts:109-122 | A response that is not ok gives an `ApiError` carrying the HTTP status, with no code and no envelope, and its body is never looked at. A network failure, or a body that does not parse, is passed on as it is. An envelope with a non-zero code gives an `ApiError` carrying its `msg`, its code and the whole envelope, with no status. An envelope with code 0 is returned whole. |
| Client.ApiClient.constructor | kaiascan.ts:85-91 | A left-out base URL becomes `CONFIG.BASE_URL`, and an explicitly passed one is kept even when empty. Left-out headers make the client hold the shared `CONFIG.DEFAULT_HEADERS` object itself. |
| Client.Config.constructor | kaiascan.ts:63-65 | `CONFIG.DEFAULT_HEADERS` is one new object holding `Content-Type: application/json`. |
| Client.ApiClient.Fetch | kaiascan.ts:93-123 | The transport is asked for `RequestUrl(baseUrl, endpoint, params)` with the client's current header entries. Its answer is classified by `CheckResponse`. The loop builds the query pair by pair in insertion order. |
| Client.ApiClient.Call | kaiascan.ts:137-207 | Each endpoint method is `fetch` with that method's endpoint and params record. |
| Client.ApiClient.SetHeader | kaiascan.ts:125-127 | The header object itself is updated, and it may be shared. The key now maps to the value, every other key keeps its value, and the base URL does not change. |
| Client.ApiClient.SetBaseUrl | kaiascan.ts:129-131 | Only the base URL changes. The client keeps the same header object. |
| Client.ApiClient.SetHeaders | kaiascan.ts:133-135 | The client now holds the caller's header object, and the base URL does not change. |
| Client.KaiascanSDK.constructor | kaiascan.ts:214-222 | An absent or falsy base URL, the empty string included, falls back to `CONFIG.BASE_URL`. Absent headers fall back to the shared `CONFIG.DEFAULT_HEADERS` object. |
| Client.KaiascanSDK.SetConfig | kaiascan.ts:228-238 | Only a truthy base URL and present headers are applied. Every other field keeps its previous value. |
| Client.SharedDefaultHeaders | kaiascan.ts:87 | A `setHeader` on one default-built client is seen by another default-built client, by an SDK built without headers, and in `CONFIG.DEFAULT_HEADERS`. A client built with its own header record does not see it. |
| Client.HeaderMap.constructor | kaiascan.ts:83 | A header record is an object of its own that holds exactly the entries it was built with. |
| Client.DefaultBaseIsBase | kaiascan.ts:54 | The default `CONFIG.BASE_URL` is a base URL that `new URL` keeps as it is: `https://`, a lower-case host, and the path `/`. |
| Client.DefaultClientBlock | kaiascan.ts:167-171 | A client built with no arguments asks for block n at exactly `https://mainnet-oapi.kaiascan.io/api/v1/blocks?blockNumber=` ++ n in decimal, with the default `Content-Type` header. |
| Client.RequestOf | kaiascan.ts:137-207 | The ten methods pass a params record exactly when they have a query: all but `getLatestBlock`, `getBlocks`, `getTransactionsOfBlock` and `getTransaction`. `getNftItem` passes two pairs and the others one. |
| Client.Search | kaiascan.ts:98-102 | The search part is empty exactly when no pair was appended, and otherwise it starts with `?`. |
| Client.RequestUrl | kaiascan.ts:97-102 | The URL starts with base ++ endpoint. Something follows it exactly when the params record holds a pair, and then it starts with `?`. |
| FormUrlEncoded.FormEncode | kaiascan.ts:100 | Form-encoding a name or value never shortens it. |
| FormUrlEncoded.Serialize | kaiascan.ts:98-101 | A params list serializes to the empty query exactly when it has no pairs. |
| Client.RequestUrlParts | kaiascan.ts:97-102 | For a base that `new URL` keeps as it is (`https://`, a lower-case host, and a plain path ending in `/`) and a plain relative endpoint, the text before the first `?` is base ++ endpoint. A `?` is there exactly when the params record holds a pair. The query parses back to the record's pairs in insertion order. |
| Client.EndpointIsPlain | kaiascan.ts:137-207 | Every endpoint path is a plain relative path, so resolving it against the base only appends it. For `getTransaction` this needs a hash that is one plain segment. |
| Client.FungibleTokenUrl | kaiascan.ts:137-143 | `getFungibleToken` asks for `api/v1/tokens` with the one pair `tokenAddress`. |
| Client.NftItemUrl | kaiascan.ts:145-153 | `getNftItem` asks for `api/v1/nfts` with the query `nftAddress=…&tokenId=…`, form-encoded, in that order. The query parses back to exactly those two pairs. |
| Client.ContractCreationCodeUrl | kaiascan.ts:155-161 | `getContractCreationCode` asks for `api/v1/contracts/creation-code` with the one pair `contractAddress`. |
| Client.UnparameterizedUrls | kaiascan.ts:163-175 | `getLatestBlock` and `getBlocks` ask for `api/v1/blocks/latest` and `api/v1/blocks`, with no query. |
| Client.BlockUrl | kaiascan.ts:167-171 | `getBlock(n)` asks for exactly base ++ `api/v1/blocks?blockNumber=` ++ n in decimal. |
| Client.TransactionsOfBlockUrl | kaiascan.ts:177-183 | `getTransactionsOfBlock(n)` asks for base ++ `api/v1/blocks/` ++ n in decimal ++ `/transactions`, with no query. |
| Client.TransactionReceiptStatusUrl | kaiascan.ts:185-191 | The receipt status goes to `api/v1/transactions/status` with the one pair `transactionHash`. |
| Client.TransactionUrl | kaiascan.ts:193-199 | For a hash that is one plain path segment, `getTransaction` puts the hash into the path unencoded, after `api/v1/transactions/`, and sends no query. |
| Client.ContractSourceCodeUrl | kaiascan.ts:201-207 | `getContractSourceCode` asks for `api/v1/contracts/source-code` with the one pair `contractAddress`. |
| FormUrlEncoded.FormEncodedChars | kaiascan.ts:100 | The urlencoded serializer emits only ASCII alphanumerics, `* - . _`, `+` and `%`. |
| FormUrlEncoded.FormEncodeChars | kaiascan.ts:100 | A form-encoded value never holds `/ ? & = #`. |
| FormUrlEncoded.FormDecodeEncode | kaiascan.ts:100 | Form-decoding undoes form-encoding, for every string. |
| FormUrlEncoded.SplitSerialize | kaiascan.ts:98-101 | Splitting a serialization on `&` gives one serialized pair per pair, in order. |
| FormUrlEncoded.ParseSerialize | kaiascan.ts:98-101 | Parsing the serialization of a list of pairs gives back the same pairs in the same order. |
| FormUrlEncoded.SerializeInjective | kaiascan.ts:98-101 | Different params lists never give the same query. |
| FormUrlEncoded.FormEncodeIdentity | kaiascan.ts:169 | A string of form-safe characters, such as a decimal number, serializes to itself. |
| Decimal.NatToString | kaiascan.ts:169 | A block number renders as a non-empty run of decimal digits. |
| Decimal.IntToString | kaiascan.ts:111 | An integer status renders as a non-empty string that starts with `-` exactly when the integer is negative. |
| Decimal.ParseNatToString | src/kaiascan.ts:91-99 | Reading the decimal rendering back gives the same number. |
| Decimal.NatToStringInjective | src/kaiascan.ts:91-99 | Different block numbers never render alike. |
| Utf8.DecodeEncode | src/kaiascan.ts:72 | UTF-8 decoding undoes UTF-8 encoding, for every string. |
| PercentEncoding.EncodeURIComponent | src/kaiascan.ts:72 | Encoding never shortens its input. |
| PercentEncoding.EncodedChars | src/kaiascan.ts:72-112 | `encodeURIComponent` emits only unreserved characters and `%`. |
| PercentEncoding.EncodedHasNoDelimiter | src/kaiascan.ts:72-112 | An encoded argument holds none of `/ ? & = #`, whatever its input. |
| PercentEncoding.DecodeEncode | src/kaiascan.ts:72 | `decodeURIComponent` undoes `encodeURIComponent`, for every string. |
| PercentEncoding.EncodeInjective | src/kaiascan.ts:72 | Different arguments never encode alike. |
| PercentEncoding.EncodeIdentity | src/kaiascan.ts:102 | A string made only of unreserved characters encodes to itself. |
| PercentEncoding.EncodeFixedPoint | src/kaiascan.ts:102 | Conversely, a string that encodes to a string of its own length is made only of unreserved characters. |
| Sdk.New | src/kaiascan.ts:40-48 | The base URL and the chain id always form a matched pair. `isTestnet` gives the Kairos URL and `1001`, and otherwise the mainnet URL and `8217` is given. |
| Sdk.PathAndQuery | src/kaiascan.ts:71-114 | Every one of the nine templates adds a path under `api/v1/` to the base. |
| Sdk.Url | src/kaiascan.ts:71-114 | Every URL is the SDK's `BASE_URL` followed by `api/v1/`. |
| Sdk.ParseUrlOfUrl | src/kaiascan.ts:71-114 | The reference parser recovers the method and all its arguments from every URL the nine builders produce. |
| Sdk.UrlInjective | src/kaiascan.ts:71-114 | Two calls build the same URL only when they are the same method with the same arguments. |
| Sdk.ArgumentsKeepStructure | src/kaiascan.ts:71-114 | The `/ ? & = #` of a built URL are exactly those of its template with empty arguments, so no argument can alter the URL's structure. |
| Sdk.TryBlock | src/kaiascan.ts:51-65 | Inside the `try`, a resolved envelope with code 0 is returned whole. A non-zero code throws `API error! code: <code>, message: <msg>`. A rejection's text is what the `catch` sees. |
| Sdk.FetchApi | src/kaiascan.ts:50-69 | The result is success exactly when the request resolved with envelope code 0, and then it is the whole envelope unchanged. Every failure is an error whose message begins with `Error making request to <url>: `. A rejection carries its text after that prefix. |
| Sdk.ApiErrorCarriesCodeAndMsg | src/kaiascan.ts:61-63 | A non-zero code gives a message that holds both the code and `msg`. |
| Sdk.ErrorKindsIndistinguishable | src/kaiascan.ts:66-68 | A transport rejection whose text reads like an API error's produces the very same error, so the caller cannot tell the kinds apart. |
| Sdk.TestSuiteUrls | __test__/kaiascan.test.ts:25-78 | The latest-block, block, transaction and fungible-token URLs have exactly the shapes the test suite mocks, for every block number and every hash or address made of unreserved characters. |
| Sdk.TestArgumentsArePlain | __test__/kaiascan.test.ts:46-78 | The sample hash and address of the tests are made of unreserved characters, so encoding leaves them as they are. |
| Sdk.BlockNumberOfTest | __test__/kaiascan.test.ts:32-39 | Block number 100 renders as `100`. |
| Divergences.ReceiptStatusUrlsDiffer | src/kaiascan.ts:106-109 | For every base, chain id and hash, the two variants ask for the receipt status at different URLs: `api/v1/transactions/status` in `kaiascan.ts:188` and `api/v1/transaction-receipts/status` here. |
| Divergences.TransactionUrlsAgreeIff | src/kaiascan.ts:101-104 | For a base that `new URL` keeps as it is and a hash that is one plain path segment, the two variants' transaction URLs agree exactly when the hash is made only of unreserved characters, since `kaiascan.ts:197` leaves the hash raw and this variant encodes it. |
| Divergences.QueryEncodersDiffer | kaiascan.ts:99-101 | The two query encoders differ: `URLSearchParams` writes a space as `+` and `!` as `%21`, and `encodeURIComponent` writes `%20` and `!`. |
| Divergences.QueryEncodersAgree | kaiascan.ts:99-101 | On ASCII alphanumerics and `* - . _` both encoders are the identity. |

## Left out

- The network calls and `async`/`await`: `fetch` at kaiascan.ts:104 and `axios.get` at src/kaiascan.ts:52. The transport's answer is an input of `Client.ApiClient.Fetch` and `Sdk.FetchApi`.
- `response.json()` (kaiascan.ts:116) and axios's rule that rejects non-2xx responses. Both are library behaviour. Whether the body parsed as an envelope is part of the input `Client.Body`. A non-2xx answer reaches `Sdk.FetchApi` as a rejection.
- The request headers of src/kaiascan.ts:53-56: `Authorization: Bearer ${process.env.API_KEY}`, which reads the environment, and the constant `Content-Type: application/json`. `Sdk.FetchApi` takes no headers, since neither header changes a result of the model.
- General WHATWG relative-URL resolution. For a base in serialized form and a plain relative endpoint, resolution is concatenation, and only that case is modelled.
- Client.ApiClient.Fetch: requires a base URL that `new URL` keeps as it is: `https://`, a lower-case host without port or user info, and a path of plain characters ending in `/`. Other bases are not modelled. `new URL` throws a TypeError on some of them, such as `x/` or `https://a b/`, and rewrites others, such as `HTTPS://EXAMPLE.COM/`. `Client.DefaultBaseIsBase` shows that the default base meets the requirement.
- Client.ApiClient.Call: requires a `getTransaction` hash that is one plain path segment, for the reasons given for `Client.TransactionUrl`.
- Client.TransactionUrl: requires a hash that is one plain path segment. The URL parser changes other hashes, and that is not modelled. It treats `/` and `\` as segment separators and resolves `.` and `..` segments. It cuts the path at `?` and `#`. It strips leading and trailing C0 controls and spaces, so a hash `abc ` asks for `…/transactions/abc`. It strips tabs and newlines anywhere. It percent-encodes the remaining spaces and controls, `"`, `<`, `>`, `` ` ``, `{`, `}`, DEL and non-ASCII characters. Hashes with `%`, `:`, `^`, `|`, `[` or `]`, which the parser keeps, are also left out.
- Divergences.TransactionUrlsAgreeIff: holds only for a base that `new URL` keeps as it is, for the reasons given for `Client.ApiClient.Fetch`, and for a hash that is one plain path segment, for the reasons given for `Client.TransactionUrl`. A hash `a b` is a case outside it: the parser turns it into `a%20b`, which is what the SDK sends too.
- The lenient decoders of the URL Standard, which substitute U+FFFD. The reference decoders `PercentEncoding.DecodeURIComponent` and `FormUrlEncoded.Parse` fail instead. They serve only as inverses of the encoders.
- Lone surrogates and the `URIError` that `encodeURIComponent` throws on them. A Dafny `char` is a Unicode scalar value, so none can occur.
- `Number.prototype.toString` for non-integers, NaN, negatives, integers above 2^53 (`Number.MAX_SAFE_INTEGER` + 1) and numbers of 1e21 or more. Block numbers are natural numbers, rendered with all their digits. A JavaScript number above 2^53 is printed with the shortest digits that read back to it, so `(2**64).toString()` is `18446744073709552000`, where the model gives `18446744073709551616`. The "n in decimal" of `Client.BlockUrl`, `Client.TransactionsOfBlockUrl`, `Client.DefaultClientBlock` and `Sdk.TestSuiteUrls` holds for safe integers.
- The order `Object.entries` gives to integer-like keys. A params record is an ordered sequence of pairs, taken in insertion order.
- Races between the setters and calls in flight. Each method is atomic in the model.
- The files that only declare constants or shapes: src/config/Chainconfig.ts, src/objects/endpoint.ts, src/interfaces/TokenInfo.ts and src/interfaces/ApiResponse.ts. Their values and shapes appear as constants and `Responses.ApiResponse`.
- jest.config.ts, kaiascan_test.ts and the console usage example at kaiascan.ts:242-264. They are scripts and configuration.
- The `api` getter of kaiascan.ts:224-226. It returns the client, which is `Client.KaiascanSDK.client` here.
- The `name` and stack of a thrown `Error`. Errors are values: `Client.ApiError` and `Sdk.FetchResult.Error`.
- Sdk.FetchApi: takes a rejection's error text as given, because how axios words its messages is library behaviour.
