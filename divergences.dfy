/**
 * Where the class-based client (`kaiascan.ts`) and the axios-based SDK
 * (`src/kaiascan.ts`) ask for different URLs for the same call.
 */
module Divergences {
  import opened PercentEncoding
  import opened FormUrlEncoded
  import Client
  import Sdk

  lemma TransactionPathsMatch()
    ensures Client.TRANSACTIONS + "/" == Sdk.TRANSACTION_PATH
  {
  }

  /**
   * The receipt status URLs never coincide: the client asks at
   * `api/v1/transactions/status`, the SDK at `api/v1/transaction-receipts/status`.
   */
  lemma ReceiptStatusUrlsDiffer(base: string, chainId: string, h: string)
    ensures Client.RequestUrl(base, Client.RequestOf(Client.TransactionReceiptStatus(h)))
      != Sdk.Url(Sdk.KaiascanSDK(base, chainId), Sdk.TransactionReceiptStatus(h))
  {
    var t := Client.Search(Client.RequestOf(Client.TransactionReceiptStatus(h)).params);
    ClientReceiptStatusUrl(base, h);
    SdkReceiptStatusUrl(base, chainId, h);
    ReceiptStatusHeadsDiffer(Client.TRANSACTIONS + "/status", t, EncodeURIComponent(h), base);
  }

  lemma ClientReceiptStatusUrl(base: string, h: string)
    ensures Client.RequestUrl(base, Client.RequestOf(Client.TransactionReceiptStatus(h)))
      == base + (Client.TRANSACTIONS + "/status") + Client.Search(Client.RequestOf(Client.TransactionReceiptStatus(h)).params)
  {
  }

  lemma SdkReceiptStatusUrl(base: string, chainId: string, h: string)
    ensures Sdk.Url(Sdk.KaiascanSDK(base, chainId), Sdk.TransactionReceiptStatus(h))
      == base + (Sdk.RECEIPT_STATUS_QUERY + EncodeURIComponent(h))
  {
  }

  /** `api/v1/transactions/status` and `api/v1/transaction-receipts/...` part at their 19th character. */
  lemma ReceiptStatusHeadsDiffer(e: string, t: string, x: string, base: string)
    requires e == Client.TRANSACTIONS + "/status"
    ensures base + e + t != base + (Sdk.RECEIPT_STATUS_QUERY + x)
  {
    DifferentHeads(base, e, t, Sdk.RECEIPT_STATUS_QUERY, x, 18);
  }

  lemma DifferentHeads(base: string, head: string, tail: string, head': string, tail': string, i: nat)
    requires i < |head| && i < |head'| && head[i] != head'[i]
    ensures base + head + tail != base + (head' + tail')
  {
    assert (base + head + tail)[|base| + i] == head[i];
    assert (base + (head' + tail'))[|base| + i] == head'[i];
  }

  /**
   * The client puts the hash into the path raw, the SDK encoded: for a hash
   * that the URL parser keeps as one plain path segment, the two transaction
   * URLs agree exactly when the hash holds only unreserved characters. The
   * plain characters that are not unreserved are `$ & + , ; = @`: the client
   * sends them raw, the SDK escapes them. The base must be one that
   * `new URL` keeps as it is, as both built-in bases are.
   */
  lemma TransactionUrlsAgreeIff(base: string, chainId: string, h: string)
    requires Client.IsBaseUrl(base)
    requires Client.IsPlainSegment(h)
    ensures Client.RequestUrl(base, Client.RequestOf(Client.Transaction(h)))
      == Sdk.Url(Sdk.KaiascanSDK(base, chainId), Sdk.Transaction(h))
      <==> forall i :: 0 <= i < |h| ==> IsUriUnreserved(h[i])
  {
    ClientTransactionUrl(base, h);
    SdkTransactionUrl(base, chainId, h);
    SameHeadIff(base + Sdk.TRANSACTION_PATH, h);
  }

  lemma ClientTransactionUrl(base: string, h: string)
    ensures Client.RequestUrl(base, Client.RequestOf(Client.Transaction(h))) == base + Sdk.TRANSACTION_PATH + h
  {
    TransactionPathsMatch();
    assert Client.RequestOf(Client.Transaction(h)).endpoint == Client.TRANSACTIONS + "/" + h;
  }

  lemma SdkTransactionUrl(base: string, chainId: string, h: string)
    ensures Sdk.Url(Sdk.KaiascanSDK(base, chainId), Sdk.Transaction(h)) == base + Sdk.TRANSACTION_PATH + EncodeURIComponent(h)
  {
    assert base + Sdk.TRANSACTION_PATH + EncodeURIComponent(h) == base + (Sdk.TRANSACTION_PATH + EncodeURIComponent(h));
  }

  /** After a common head, the raw and the encoded text agree exactly when encoding leaves the text alone. */
  lemma SameHeadIff(head: string, h: string)
    ensures head + h == head + EncodeURIComponent(h) <==> forall i :: 0 <= i < |h| ==> IsUriUnreserved(h[i])
  {
    if head + h == head + EncodeURIComponent(h) {
      assert h == (head + h)[|head|..];
      assert EncodeURIComponent(h) == (head + EncodeURIComponent(h))[|head|..];
      EncodeFixedPoint(h);
    }
    if forall i :: 0 <= i < |h| ==> IsUriUnreserved(h[i]) {
      EncodeIdentity(h);
    }
  }

  /**
   * Query values: the client form-encodes (`URLSearchParams`), the SDK
   * URI-encodes. A space and `!` come out differently.
   */
  lemma QueryEncodersDiffer()
    ensures FormEncode(" ") == "+" && EncodeURIComponent(" ") == "%20"
    ensures FormEncode("!") == "%21" && EncodeURIComponent("!") == "!"
  {
  }

  /** On ASCII alphanumerics and `* - . _` the two encoders agree, both leaving the text as it is. */
  lemma QueryEncodersAgree(s: string)
    requires forall i :: 0 <= i < |s| ==> IsAsciiAlphanumeric(s[i]) || s[i] in "*-._"
    ensures FormEncode(s) == s && EncodeURIComponent(s) == s
  {
    FormEncodeIdentity(s);
    EncodeIdentity(s);
  }
}
