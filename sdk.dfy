/**
 * The axios-based SDK (`src/kaiascan.ts`): a network choice fixed at
 * construction, nine URL templates that pass every user string through
 * `encodeURIComponent`, and a `fetchApi` that rewraps every failure into one
 * generic error. `ParseUrl` reads a URL back into the call that built it.
 */
module Sdk {
  import opened Wrappers
  import opened Decimal
  import opened PercentEncoding
  import opened FormUrlEncoded
  import opened Responses

  const BASE_URL_MAINNET := "https://mainnet-oapi.kaiascan.io/"
  const BASE_URL_TESTNET := "https://kairos-oapi.kaiascan.io/"
  const CHAIN_ID_MAINNET := "8217"
  const CHAIN_ID_TESTNET := "1001"

  const TOKENS_ENDPOINT := "api/v1/tokens"
  const NFTS_ENDPOINT := "api/v1/nfts"
  const BLOCKS_ENDPOINT := "api/v1/blocks"
  const TRANSACTION_ENDPOINT := "api/v1/transactions"
  const CONTRACT_ENDPOINT := "api/v1/contracts"
  const TRANSACTION_RECEIPTS_ENDPOINT := "api/v1/transaction-receipts"

  // ---- Construction ----

  /** The two fields the constructor assigns once and nothing changes later. */
  datatype KaiascanSDK = KaiascanSDK(BASE_URL: string, CHAIN_ID: string)

  /** The two built-in networks, each base URL with its own chain id. */
  predicate IsMatchedNetwork(sdk: KaiascanSDK) {
    || (sdk.BASE_URL == BASE_URL_MAINNET && sdk.CHAIN_ID == CHAIN_ID_MAINNET)
    || (sdk.BASE_URL == BASE_URL_TESTNET && sdk.CHAIN_ID == CHAIN_ID_TESTNET)
  }

  /** `new KaiascanSDK(isTestnet)`: kairos with 1001 for the testnet, mainnet with 8217 otherwise. */
  function New(isTestnet: bool): (sdk: KaiascanSDK)
    ensures IsMatchedNetwork(sdk)
    ensures (sdk.CHAIN_ID == CHAIN_ID_TESTNET) <==> isTestnet
    ensures (sdk.BASE_URL == BASE_URL_TESTNET) <==> isTestnet
  {
    if isTestnet then KaiascanSDK(BASE_URL_TESTNET, CHAIN_ID_TESTNET)
    else KaiascanSDK(BASE_URL_MAINNET, CHAIN_ID_MAINNET)
  }

  // ---- URL templates ----

  /** The nine endpoint methods with their arguments (block numbers are integral). */
  datatype Method =
    | FungibleToken(tokenAddress: string)
    | NftItem(nftAddress: string, tokenId: string)
    | ContractCreationCode(contractAddress: string)
    | LatestBlock
    | Block(blockNumber: nat)
    | TransactionsOfBlock(blockNumber: nat)
    | Transaction(transactionHash: string)
    | TransactionReceiptStatus(transactionHash: string)
    | ContractSourceCode(contractAddress: string)

  const TOKEN_QUERY := TOKENS_ENDPOINT + "?tokenAddress="
  const NFT_QUERY := NFTS_ENDPOINT + "?nftAddress="
  const TOKEN_ID_QUERY := "&tokenId="
  const CREATION_CODE_QUERY := CONTRACT_ENDPOINT + "/creation-code?contractAddress="
  const SOURCE_CODE_QUERY := CONTRACT_ENDPOINT + "/source-code?contractAddress="
  const LATEST_BLOCK_PATH := BLOCKS_ENDPOINT + "/latest"
  const BLOCK_QUERY := BLOCKS_ENDPOINT + "?blockNumber="
  const BLOCK_PATH := BLOCKS_ENDPOINT + "/"
  const BLOCK_TRANSACTIONS_SUFFIX := "/transactions"
  const TRANSACTION_PATH := TRANSACTION_ENDPOINT + "/"
  const RECEIPT_STATUS_QUERY := TRANSACTION_RECEIPTS_ENDPOINT + "/status?transactionHash="

  /** What each template adds to `BASE_URL`. */
  function PathAndQuery(m: Method): (r: string)
    ensures |r| > 7 && r[..7] == "api/v1/"
  {
    match m
    case FungibleToken(a) => TOKEN_QUERY + EncodeURIComponent(a)
    case NftItem(a, id) => NFT_QUERY + EncodeURIComponent(a) + TOKEN_ID_QUERY + EncodeURIComponent(id)
    case ContractCreationCode(a) => CREATION_CODE_QUERY + EncodeURIComponent(a)
    case LatestBlock => LATEST_BLOCK_PATH
    case Block(n) => BLOCK_QUERY + NatToString(n)
    case TransactionsOfBlock(n) => BLOCK_PATH + NatToString(n) + BLOCK_TRANSACTIONS_SUFFIX
    case Transaction(h) => TRANSACTION_PATH + EncodeURIComponent(h)
    case TransactionReceiptStatus(h) => RECEIPT_STATUS_QUERY + EncodeURIComponent(h)
    case ContractSourceCode(a) => SOURCE_CODE_QUERY + EncodeURIComponent(a)
  }

  /** The `urlStr` a method hands to `fetchApi`. */
  function Url(sdk: KaiascanSDK, m: Method): (u: string)
    ensures |u| > |sdk.BASE_URL| + 7 && u[..|sdk.BASE_URL| + 7] == sdk.BASE_URL + "api/v1/"
  {
    sdk.BASE_URL + PathAndQuery(m)
  }

  // ---- Reading a URL back ----

  function StripPrefix(p: string, s: string): Option<string> {
    if |p| <= |s| && s[..|p|] == p then Some(s[|p|..]) else None
  }

  function StripSuffix(s: string, q: string): Option<string> {
    if |q| <= |s| && s[|s| - |q|..] == q then Some(s[..|s| - |q|]) else None
  }

  function DecodeNumber(d: string): Option<nat> {
    if d != [] && AllDigits(d) then Some(ParseNat(d)) else None
  }

  /** The one encoded argument that follows a template's head. */
  datatype Slot = TokenAddress | CreationCodeAddress | SourceCodeAddress | TransactionHash | ReceiptHash

  function Fill(slot: Slot, v: string): Method {
    match slot
    case TokenAddress => FungibleToken(v)
    case CreationCodeAddress => ContractCreationCode(v)
    case SourceCodeAddress => ContractSourceCode(v)
    case TransactionHash => Transaction(v)
    case ReceiptHash => TransactionReceiptStatus(v)
  }

  function DecodeArgument(slot: Slot, t: string): Option<Method> {
    match DecodeURIComponent(t)
    case None => None
    case Some(v) => Some(Fill(slot, v))
  }

  function ParseNft(rest: string): Option<Method> {
    match FirstIndexOf(rest, '&')
    case None => None
    case Some(j) =>
      match StripPrefix(TOKEN_ID_QUERY, rest[j..])
      case None => None
      case Some(t) =>
        match DecodeURIComponent(rest[..j])
        case None => None
        case Some(a) =>
          match DecodeURIComponent(t)
          case None => None
          case Some(id) => Some(NftItem(a, id))
  }

  function ParseBlockTransactions(rest: string): Option<Method> {
    match StripSuffix(rest, BLOCK_TRANSACTIONS_SUFFIX)
    case None => None
    case Some(d) =>
      match DecodeNumber(d)
      case None => None
      case Some(n) => Some(TransactionsOfBlock(n))
  }

  /** Which call, with which arguments, a URL under `base` stands for. */
  function ParseUrl(base: string, url: string): Option<Method> {
    match StripPrefix(base, url)
    case None => None
    case Some(p) => ParsePath(p)
  }

  /** Tries the templates' fixed heads one by one; the arguments follow the head. */
  function ParsePath(p: string): Option<Method> {
    if StripPrefix(TOKEN_QUERY, p).Some? then DecodeArgument(TokenAddress, StripPrefix(TOKEN_QUERY, p).value)
    else if StripPrefix(NFT_QUERY, p).Some? then ParseNft(StripPrefix(NFT_QUERY, p).value)
    else ParseContractPath(p)
  }

  function ParseContractPath(p: string): Option<Method> {
    if StripPrefix(CREATION_CODE_QUERY, p).Some? then DecodeArgument(CreationCodeAddress, StripPrefix(CREATION_CODE_QUERY, p).value)
    else if StripPrefix(SOURCE_CODE_QUERY, p).Some? then DecodeArgument(SourceCodeAddress, StripPrefix(SOURCE_CODE_QUERY, p).value)
    else ParseBlockPath(p)
  }

  function ParseBlockPath(p: string): Option<Method> {
    if p == LATEST_BLOCK_PATH then Some(LatestBlock)
    else if StripPrefix(BLOCK_QUERY, p).Some? then
      match DecodeNumber(StripPrefix(BLOCK_QUERY, p).value)
      case None => None
      case Some(n) => Some(Block(n))
    else if StripPrefix(BLOCK_PATH, p).Some? then ParseBlockTransactions(StripPrefix(BLOCK_PATH, p).value)
    else ParseTransactionPath(p)
  }

  function ParseTransactionPath(p: string): Option<Method> {
    if StripPrefix(TRANSACTION_PATH, p).Some? then DecodeArgument(TransactionHash, StripPrefix(TRANSACTION_PATH, p).value)
    else if StripPrefix(RECEIPT_STATUS_QUERY, p).Some? then DecodeArgument(ReceiptHash, StripPrefix(RECEIPT_STATUS_QUERY, p).value)
    else None
  }

  // ---- The URL round trip ----

  lemma StripPrefixConcat(p: string, x: string)
    ensures StripPrefix(p, p + x) == Some(x)
  {
    assert (p + x)[..|p|] == p;
    assert (p + x)[|p|..] == x;
  }

  lemma StripSuffixConcat(x: string, q: string)
    ensures StripSuffix(x + q, q) == Some(x)
  {
    assert (x + q)[|x|..] == q;
    assert (x + q)[..|x|] == x;
  }

  /** A literal head `l` that differs from `p` at position `i` rules out both the prefix and the equality. */
  lemma Mismatch(p: string, l: string, x: string, i: nat)
    requires i < |p| && i < |l| && p[i] != l[i]
    ensures StripPrefix(p, l + x) == None && l + x != p
  {
    assert (l + x)[i] == l[i];
    if |p| <= |l + x| {
      assert (l + x)[..|p|][i] == l[i];
    }
  }

  lemma DecodeUriComponentArgument(a: string, slot: Slot)
    ensures DecodeArgument(slot, EncodeURIComponent(a)) == Some(Fill(slot, a))
  {
    PercentEncoding.DecodeEncode(a);
  }

  lemma DecodeNumberOf(n: nat)
    ensures DecodeNumber(NatToString(n)) == Some(n)
  {
    ParseNatToString(n);
  }

  // Each template's head differs from every head tried before it; these
  // lemmas take the parser past those to the branch that owns the head.

  lemma SkipToContractPath(head: string, x: string)
    requires |head| > 7 && head[7] == 'c'
    ensures ParsePath(head + x) == ParseContractPath(head + x)
  {
    Mismatch(TOKEN_QUERY, head, x, 7);
    Mismatch(NFT_QUERY, head, x, 7);
  }

  lemma SkipToBlockPath(head: string, x: string)
    requires |head| > 7 && head[7] == 'b'
    ensures ParsePath(head + x) == ParseBlockPath(head + x)
  {
    Mismatch(TOKEN_QUERY, head, x, 7);
    Mismatch(NFT_QUERY, head, x, 7);
    Mismatch(CREATION_CODE_QUERY, head, x, 7);
    Mismatch(SOURCE_CODE_QUERY, head, x, 7);
  }

  lemma SkipToTransactionPath(head: string, x: string)
    requires |head| > 8 && head[7] == 't' && head[8] == 'r'
    ensures ParsePath(head + x) == ParseTransactionPath(head + x)
  {
    Mismatch(TOKEN_QUERY, head, x, 8);
    Mismatch(NFT_QUERY, head, x, 7);
    Mismatch(CREATION_CODE_QUERY, head, x, 7);
    Mismatch(SOURCE_CODE_QUERY, head, x, 7);
    Mismatch(LATEST_BLOCK_PATH, head, x, 7);
    Mismatch(BLOCK_QUERY, head, x, 7);
    Mismatch(BLOCK_PATH, head, x, 7);
  }

  /** The `&` of `&tokenId=` is the first one, since the encoded address holds none. */
  lemma NftSplit(ea: string, eid: string)
    requires forall i :: 0 <= i < |ea| ==> !IsUrlDelimiter(ea[i])
    ensures FirstIndexOf(ea + TOKEN_ID_QUERY + eid, '&') == Some(|ea|)
    ensures (ea + TOKEN_ID_QUERY + eid)[..|ea|] == ea
    ensures StripPrefix(TOKEN_ID_QUERY, (ea + TOKEN_ID_QUERY + eid)[|ea|..]) == Some(eid)
  {
    var rest := ea + TOKEN_ID_QUERY + eid;
    assert TOKEN_ID_QUERY == ['&'] + "tokenId=";
    assert rest == ea + ['&'] + ("tokenId=" + eid);
    FirstDelimiter(ea, '&', "tokenId=" + eid);
    assert rest[|ea|..] == TOKEN_ID_QUERY + eid;
    StripPrefixConcat(TOKEN_ID_QUERY, eid);
  }

  lemma NftBranch(a: string, id: string)
    ensures ParseNft(EncodeURIComponent(a) + TOKEN_ID_QUERY + EncodeURIComponent(id)) == Some(NftItem(a, id))
  {
    EncodedHasNoDelimiter(a);
    NftSplit(EncodeURIComponent(a), EncodeURIComponent(id));
    PercentEncoding.DecodeEncode(a);
    PercentEncoding.DecodeEncode(id);
  }

  lemma FirstDelimiter(a: string, c: char, b: string)
    requires forall i :: 0 <= i < |a| ==> !IsUrlDelimiter(a[i])
    requires IsUrlDelimiter(c)
    ensures FirstIndexOf(a + [c] + b, c) == Some(|a|)
    ensures (a + [c] + b)[..|a|] == a
  {
    var t := a + [c] + b;
    assert t[|a|] == c;
    assert forall i :: 0 <= i < |a| ==> t[i] == a[i];
    assert t[..|a|] == a;
  }

  lemma ParseNftItem(a: string, id: string)
    ensures ParsePath(PathAndQuery(NftItem(a, id))) == Some(NftItem(a, id))
  {
    var rest := EncodeURIComponent(a) + TOKEN_ID_QUERY + EncodeURIComponent(id);
    NftPathAndQuery(a, id);
    NftHeadBranch(rest);
    NftBranch(a, id);
  }

  lemma NftPathAndQuery(a: string, id: string)
    ensures PathAndQuery(NftItem(a, id)) == NFT_QUERY + (EncodeURIComponent(a) + TOKEN_ID_QUERY + EncodeURIComponent(id))
  {
  }

  lemma NftHeadBranch(rest: string)
    ensures ParsePath(NFT_QUERY + rest) == ParseNft(rest)
  {
    Mismatch(TOKEN_QUERY, NFT_QUERY, rest, 7);
    StripPrefixConcat(NFT_QUERY, rest);
  }

  lemma CreationCodeBranch(x: string)
    ensures ParseContractPath(CREATION_CODE_QUERY + x) == DecodeArgument(CreationCodeAddress, x)
  {
    StripPrefixConcat(CREATION_CODE_QUERY, x);
  }

  lemma SourceCodeBranch(x: string)
    ensures ParseContractPath(SOURCE_CODE_QUERY + x) == DecodeArgument(SourceCodeAddress, x)
  {
    Mismatch(CREATION_CODE_QUERY, SOURCE_CODE_QUERY, x, 17);
    StripPrefixConcat(SOURCE_CODE_QUERY, x);
  }

  lemma LatestBlockBranch()
    ensures ParseBlockPath(LATEST_BLOCK_PATH) == Some(LatestBlock)
  {
  }

  lemma BlockBranch(n: nat)
    ensures ParseBlockPath(BLOCK_QUERY + NatToString(n)) == Some(Block(n))
  {
    var x := NatToString(n);
    Mismatch(LATEST_BLOCK_PATH, BLOCK_QUERY, x, 13);
    StripPrefixConcat(BLOCK_QUERY, x);
    DecodeNumberOf(n);
  }

  lemma BlockTransactionsBranch(n: nat)
    ensures ParseBlockPath(BLOCK_PATH + (NatToString(n) + BLOCK_TRANSACTIONS_SUFFIX)) == Some(TransactionsOfBlock(n))
  {
    var d := NatToString(n);
    var x := d + BLOCK_TRANSACTIONS_SUFFIX;
    assert BLOCK_PATH + x == BLOCK_PATH + d + BLOCK_TRANSACTIONS_SUFFIX;
    assert (BLOCK_PATH + d)[14] == d[0] && IsDigit(d[0]);
    Mismatch(LATEST_BLOCK_PATH, BLOCK_PATH + d, BLOCK_TRANSACTIONS_SUFFIX, 14);
    Mismatch(BLOCK_QUERY, BLOCK_PATH, x, 13);
    StripPrefixConcat(BLOCK_PATH, x);
    StripSuffixConcat(d, BLOCK_TRANSACTIONS_SUFFIX);
    DecodeNumberOf(n);
  }

  lemma TransactionBranch(x: string)
    ensures ParseTransactionPath(TRANSACTION_PATH + x) == DecodeArgument(TransactionHash, x)
  {
    StripPrefixConcat(TRANSACTION_PATH, x);
  }

  lemma ReceiptBranch(x: string)
    ensures ParseTransactionPath(RECEIPT_STATUS_QUERY + x) == DecodeArgument(ReceiptHash, x)
  {
    Mismatch(TRANSACTION_PATH, RECEIPT_STATUS_QUERY, x, 18);
    StripPrefixConcat(RECEIPT_STATUS_QUERY, x);
  }

  lemma ParseTransactionsOfBlock(n: nat)
    ensures ParsePath(PathAndQuery(TransactionsOfBlock(n))) == Some(TransactionsOfBlock(n))
  {
    var x := NatToString(n) + BLOCK_TRANSACTIONS_SUFFIX;
    assert PathAndQuery(TransactionsOfBlock(n)) == BLOCK_PATH + x;
    SkipToBlockPath(BLOCK_PATH, x);
    BlockTransactionsBranch(n);
  }

  lemma ParseFungibleToken(a: string)
    ensures ParsePath(PathAndQuery(FungibleToken(a))) == Some(FungibleToken(a))
  {
    StripPrefixConcat(TOKEN_QUERY, EncodeURIComponent(a));
    DecodeUriComponentArgument(a, TokenAddress);
  }

  lemma ParseContractCreationCode(a: string)
    ensures ParsePath(PathAndQuery(ContractCreationCode(a))) == Some(ContractCreationCode(a))
  {
    SkipToContractPath(CREATION_CODE_QUERY, EncodeURIComponent(a));
    CreationCodeBranch(EncodeURIComponent(a));
    DecodeUriComponentArgument(a, CreationCodeAddress);
  }

  lemma ParseContractSourceCode(a: string)
    ensures ParsePath(PathAndQuery(ContractSourceCode(a))) == Some(ContractSourceCode(a))
  {
    SkipToContractPath(SOURCE_CODE_QUERY, EncodeURIComponent(a));
    SourceCodeBranch(EncodeURIComponent(a));
    DecodeUriComponentArgument(a, SourceCodeAddress);
  }

  lemma ParseLatestBlock()
    ensures ParsePath(PathAndQuery(LatestBlock)) == Some(LatestBlock)
  {
    assert LATEST_BLOCK_PATH + "" == LATEST_BLOCK_PATH;
    SkipToBlockPath(LATEST_BLOCK_PATH, "");
    LatestBlockBranch();
  }

  lemma ParseBlock(n: nat)
    ensures ParsePath(PathAndQuery(Block(n))) == Some(Block(n))
  {
    SkipToBlockPath(BLOCK_QUERY, NatToString(n));
    BlockBranch(n);
  }

  lemma ParseTransaction(h: string)
    ensures ParsePath(PathAndQuery(Transaction(h))) == Some(Transaction(h))
  {
    SkipToTransactionPath(TRANSACTION_PATH, EncodeURIComponent(h));
    TransactionBranch(EncodeURIComponent(h));
    DecodeUriComponentArgument(h, TransactionHash);
  }

  lemma ParseTransactionReceiptStatus(h: string)
    ensures ParsePath(PathAndQuery(TransactionReceiptStatus(h))) == Some(TransactionReceiptStatus(h))
  {
    SkipToTransactionPath(RECEIPT_STATUS_QUERY, EncodeURIComponent(h));
    ReceiptBranch(EncodeURIComponent(h));
    DecodeUriComponentArgument(h, ReceiptHash);
  }

  /** The path and query of every template reads back as the call that built it. */
  lemma ParsePathOf(m: Method)
    ensures ParsePath(PathAndQuery(m)) == Some(m)
  {
    match m
    case FungibleToken(a) => ParseFungibleToken(a);
    case NftItem(a, id) => ParseNftItem(a, id);
    case ContractCreationCode(a) => ParseContractCreationCode(a);
    case ContractSourceCode(a) => ParseContractSourceCode(a);
    case LatestBlock => ParseLatestBlock();
    case Block(n) => ParseBlock(n);
    case TransactionsOfBlock(n) => ParseTransactionsOfBlock(n);
    case Transaction(h) => ParseTransaction(h);
    case TransactionReceiptStatus(h) => ParseTransactionReceiptStatus(h);
  }

  /**
   * Every URL reads back as the call and the arguments that built it: the
   * endpoint is recognisable, and the encoded arguments decode to the
   * originals whatever characters they hold.
   */
  lemma ParseUrlOfUrl(sdk: KaiascanSDK, m: Method)
    ensures ParseUrl(sdk.BASE_URL, Url(sdk, m)) == Some(m)
  {
    StripPrefixConcat(sdk.BASE_URL, PathAndQuery(m));
    ParsePathOf(m);
  }

  /** Different calls, or the same call with different arguments, never share a URL. */
  lemma UrlInjective(sdk: KaiascanSDK, m: Method, m': Method)
    requires Url(sdk, m) == Url(sdk, m')
    ensures m == m'
  {
    ParseUrlOfUrl(sdk, m);
    ParseUrlOfUrl(sdk, m');
  }

  // ---- Arguments cannot change a URL's structure ----

  /** The URL delimiters of `s`, in order: its structure with everything else erased. */
  function Delimiters(s: string): string
    decreases |s|
  {
    if s == [] then "" else (if IsUrlDelimiter(s[0]) then [s[0]] else "") + Delimiters(s[1..])
  }

  lemma {:induction false} DelimitersConcat(a: string, b: string)
    ensures Delimiters(a + b) == Delimiters(a) + Delimiters(b)
    decreases |a|
  {
    if a != [] {
      assert (a + b)[1..] == a[1..] + b;
      DelimitersConcat(a[1..], b);
    } else {
      assert a + b == b;
    }
  }

  lemma {:induction false} NoDelimiters(s: string)
    requires forall i :: 0 <= i < |s| ==> !IsUrlDelimiter(s[i])
    ensures Delimiters(s) == ""
    decreases |s|
  {
    if s != [] {
      NoDelimiters(s[1..]);
    }
  }

  lemma EncodedArgument(a: string)
    ensures Delimiters(EncodeURIComponent(a)) == ""
  {
    EncodedHasNoDelimiter(a);
    NoDelimiters(EncodeURIComponent(a));
  }

  lemma NumberArgument(n: nat)
    ensures Delimiters(NatToString(n)) == ""
  {
    var d := NatToString(n);
    assert forall i :: 0 <= i < |d| ==> IsDigit(d[i]);
    NoDelimiters(d);
  }

  /** The same call with every string argument empty and every number zero. */
  function Blank(m: Method): Method {
    match m
    case FungibleToken(_) => FungibleToken("")
    case NftItem(_, _) => NftItem("", "")
    case ContractCreationCode(_) => ContractCreationCode("")
    case LatestBlock => LatestBlock
    case Block(_) => Block(0)
    case TransactionsOfBlock(_) => TransactionsOfBlock(0)
    case Transaction(_) => Transaction("")
    case TransactionReceiptStatus(_) => TransactionReceiptStatus("")
    case ContractSourceCode(_) => ContractSourceCode("")
  }

  /** The delimiters of the path and query come from the template alone. */
  lemma {:induction false} TemplateDelimiters(m: Method)
    ensures Delimiters(PathAndQuery(m)) == Delimiters(PathAndQuery(Blank(m)))
  {
    match m
    case FungibleToken(a) => OneArgument(TOKEN_QUERY, a);
    case NftItem(a, id) =>
      DelimitersConcat(NFT_QUERY + EncodeURIComponent(a) + TOKEN_ID_QUERY, EncodeURIComponent(id));
      DelimitersConcat(NFT_QUERY + EncodeURIComponent(a), TOKEN_ID_QUERY);
      DelimitersConcat(NFT_QUERY, EncodeURIComponent(a));
      EncodedArgument(a);
      EncodedArgument(id);
      DelimitersConcat(NFT_QUERY + "" + TOKEN_ID_QUERY, "");
      DelimitersConcat(NFT_QUERY + "", TOKEN_ID_QUERY);
      DelimitersConcat(NFT_QUERY, "");
      EncodedArgument("");
    case ContractCreationCode(a) => OneArgument(CREATION_CODE_QUERY, a);
    case LatestBlock =>
    case Block(n) =>
      DelimitersConcat(BLOCK_QUERY, NatToString(n));
      DelimitersConcat(BLOCK_QUERY, NatToString(0));
      NumberArgument(n);
      NumberArgument(0);
    case TransactionsOfBlock(n) =>
      NumberInPath(n);
      NumberInPath(0);
    case Transaction(h) => OneArgument(TRANSACTION_PATH, h);
    case TransactionReceiptStatus(h) => OneArgument(RECEIPT_STATUS_QUERY, h);
    case ContractSourceCode(a) => OneArgument(SOURCE_CODE_QUERY, a);
  }

  lemma OneArgument(head: string, a: string)
    ensures Delimiters(head + EncodeURIComponent(a)) == Delimiters(head + EncodeURIComponent(""))
  {
    DelimitersConcat(head, EncodeURIComponent(a));
    DelimitersConcat(head, EncodeURIComponent(""));
    EncodedArgument(a);
    EncodedArgument("");
  }

  lemma NumberInPath(n: nat)
    ensures Delimiters(BLOCK_PATH + NatToString(n) + BLOCK_TRANSACTIONS_SUFFIX)
      == Delimiters(BLOCK_PATH) + Delimiters(BLOCK_TRANSACTIONS_SUFFIX)
  {
    DelimitersConcat(BLOCK_PATH + NatToString(n), BLOCK_TRANSACTIONS_SUFFIX);
    DelimitersConcat(BLOCK_PATH, NatToString(n));
    NumberArgument(n);
  }

  /**
   * Whatever the arguments, a URL has the same `/ ? & = #` in the same order
   * as its template: user text cannot add a path segment, a query, a
   * parameter or a fragment.
   */
  lemma ArgumentsKeepStructure(sdk: KaiascanSDK, m: Method)
    ensures Delimiters(Url(sdk, m)) == Delimiters(Url(sdk, Blank(m)))
  {
    DelimitersConcat(sdk.BASE_URL, PathAndQuery(m));
    DelimitersConcat(sdk.BASE_URL, PathAndQuery(Blank(m)));
    TemplateDelimiters(m);
  }

  // ---- fetchApi ----

  /**
   * What `axios.get` settles with: the parsed body, or a rejection whose
   * interpolated text `${error}` is given.
   */
  datatype AxiosResult<T> = Resolved(data: ApiResponse<T>) | Rejected(text: string)

  /** The envelope `fetchApi` returns, or the message of the error it throws. */
  datatype FetchResult<T> = Ok(response: ApiResponse<T>) | Error(message: string)

  /** `${new Error(m)}` */
  function ErrorText(m: string): string {
    "Error: " + m
  }

  /** The message of the error thrown for a nonzero envelope code. */
  function ApiErrorMessage(code: int, msg: string): string {
    "API error! code: " + IntToString(code) + ", message: " + msg
  }

  function RequestErrorPrefix(urlStr: string): string {
    "Error making request to " + urlStr + ": "
  }

  /** The `try` block: the envelope, or the text of what was thrown inside it. */
  function TryBlock<T>(res: AxiosResult<T>): (r: FetchResult<T>)
    ensures r.Ok? <==> res.Resolved? && res.data.code == 0
    ensures r.Ok? ==> r.response == res.data
    ensures res.Resolved? && res.data.code != 0 ==> r.message == ErrorText(ApiErrorMessage(res.data.code, res.data.msg))
    ensures res.Rejected? ==> r.message == res.text
  {
    match res
    case Rejected(text) => Error(text)
    case Resolved(env) =>
      if env.code != 0 then Error(ErrorText(ApiErrorMessage(env.code, env.msg))) else Ok(env)
  }

  /**
   * `fetchApi(urlStr)`: code 0 returns the whole envelope; every failure,
   * the nonzero code included, is rethrown as one error naming the URL.
   */
  function FetchApi<T>(urlStr: string, res: AxiosResult<T>): (r: FetchResult<T>)
    ensures r.Ok? <==> res.Resolved? && res.data.code == 0
    ensures r.Ok? ==> r.response == res.data
    ensures r.Error? ==> RequestErrorPrefix(urlStr) <= r.message
    ensures res.Rejected? ==> r == Error(RequestErrorPrefix(urlStr) + res.text)
  {
    match TryBlock(res)
    case Ok(env) => Ok(env)
    case Error(text) => Error(RequestErrorPrefix(urlStr) + text)
  }

  /** A nonzero code's message carries the decimal code and `msg`, after the URL prefix. */
  lemma ApiErrorCarriesCodeAndMsg<T>(urlStr: string, env: ApiResponse<T>)
    requires env.code != 0
    ensures FetchApi(urlStr, Resolved(env)).Error?
    ensures var m := FetchApi(urlStr, Resolved(env)).message;
      var k := |RequestErrorPrefix(urlStr) + ErrorText("API error! code: ")|;
      && k + |IntToString(env.code)| <= |m|
      && m[k..k + |IntToString(env.code)|] == IntToString(env.code)
      && m[|m| - |env.msg|..] == env.msg
  {
    var m := FetchApi(urlStr, Resolved(env)).message;
    var c := IntToString(env.code);
    var head := RequestErrorPrefix(urlStr) + ErrorText("API error! code: ");
    assert m == head + c + (", message: " + env.msg);
  }

  /**
   * The caller cannot tell an API error from a transport rejection: a
   * rejection whose text reads like the API error yields the same error.
   */
  lemma ErrorKindsIndistinguishable<T>(urlStr: string, env: ApiResponse<T>)
    requires env.code != 0
    ensures FetchApi(urlStr, Resolved(env)) == FetchApi(urlStr, Rejected(ErrorText(ApiErrorMessage(env.code, env.msg))))
  {
  }

  // ---- The URLs, spelled out ----

  // The fixed text of the templates the test suite mocks. These lemmas only
  // spell out constants; they are separate to keep the proofs cheap.

  lemma TokenHead()
    ensures TOKEN_QUERY == "api/v1/tokens?tokenAddress="
  {
  }

  lemma LatestBlockHead()
    ensures LATEST_BLOCK_PATH == "api/v1/blocks/latest"
  {
  }

  lemma BlockHead()
    ensures BLOCK_QUERY == "api/v1/blocks?blockNumber="
  {
  }

  lemma TransactionHead()
    ensures TRANSACTION_PATH == "api/v1/transactions/"
  {
  }

  /**
   * The URLs the test suite mocks, in the suite's own shape: `BASE_URL`
   * and the literal path, a decimal block number, and a hash or address
   * of unreserved characters appearing verbatim.
   */
  lemma TestSuiteUrls(sdk: KaiascanSDK, h: string, n: nat)
    requires forall i :: 0 <= i < |h| ==> IsUriUnreserved(h[i])
    ensures Url(sdk, LatestBlock) == sdk.BASE_URL + "api/v1/blocks/latest"
    ensures Url(sdk, Block(n)) == sdk.BASE_URL + "api/v1/blocks?blockNumber=" + NatToString(n)
    ensures Url(sdk, Transaction(h)) == sdk.BASE_URL + "api/v1/transactions/" + h
    ensures Url(sdk, FungibleToken(h)) == sdk.BASE_URL + "api/v1/tokens?tokenAddress=" + h
  {
    TokenHead();
    LatestBlockHead();
    BlockHead();
    TransactionHead();
    EncodeIdentity(h);
  }

  /** The hash and the token address of the test suite need no encoding. */
  lemma TestArgumentsArePlain()
    ensures forall i :: 0 <= i < |"0xSampleTransactionHash"| ==> IsUriUnreserved("0xSampleTransactionHash"[i])
    ensures forall i :: 0 <= i < |"0x12345abcde"| ==> IsUriUnreserved("0x12345abcde"[i])
  {
  }

  lemma BlockNumberOfTest()
    ensures NatToString(100) == "100"
  {
  }
}
