/**
 IPFS reference handling (utils/ipfsHelper.js): hash extraction, the sequential
 first-success search over a fixed list of gateways, and the rewrite of image
 references into URLs a browser can display.
 */
module IpfsHelper {
  import opened Base
  import opened JsText
  import opened Runtime

  /** `IPFS_GATEWAYS`, tried in this order. */
  const IpfsGateways: seq<string> := [
    "https://gateway.pinata.cloud/ipfs/",
    "https://ipfs.io/ipfs/",
    "https://cloudflare-ipfs.com/ipfs/",
    "https://dweb.link/ipfs/",
    "https://gateway.ipfs.io/ipfs/"
  ]

  const IpfsPath := "/ipfs/"
  const IpfsScheme := "ipfs://"
  /** The canonical public gateway used when rewriting references. */
  const PublicGateway := "https://ipfs.io/ipfs/"
  const AllGatewaysFailed := "All IPFS gateways are inaccessible"

  /** How `fetchFromIPFS` reads a reference, with the hash it extracts. */
  datatype Reference = GatewayPath(hash: string) | SchemeUri(hash: string) | DirectUrl

  /**
   The path test comes first: any reference containing `/ipfs/` takes the segment
   `split('/ipfs/')[1]`, even one that also starts with `ipfs://`.
   */
  function ClassifyReference(url: string): (r: Reference)
    ensures r.GatewayPath? <==> Includes(url, IpfsPath)
    ensures r.SchemeUri? <==> !Includes(url, IpfsPath) && StartsWith(url, IpfsScheme)
    ensures r.GatewayPath? ==> SplitSecond(url, IpfsPath) == Some(r.hash)
    ensures r.SchemeUri? ==> IpfsScheme + r.hash == url
  {
    if Includes(url, IpfsPath) then GatewayPath(SplitSecond(url, IpfsPath).value)
    else if StartsWith(url, IpfsScheme) then
      assert url == url[..|IpfsScheme|] + url[|IpfsScheme|..];
      SchemeUri(ReplaceFirst(url, IpfsScheme, ""))
    else DirectUrl
  }

  /** `gateway + hash` for every gateway, in order. */
  function GatewayUrls(gateways: seq<string>, hash: string): (r: seq<string>)
    ensures |r| == |gateways|
    ensures forall i :: 0 <= i < |gateways| ==> r[i] == gateways[i] + hash
  {
    seq(|gateways|, i requires 0 <= i < |gateways| => gateways[i] + hash)
  }

  /** The gateway loop's result: the payload of the first success, and every URL requested. */
  datatype Attempts = Attempts(payload: Option<Body>, urls: seq<string>)

  /**
   The `for (const gateway of IPFS_GATEWAYS)` loop: gateways are tried in order, each
   failure moves on to the next one, and the first success ends the search.
   */
  function TryGateways(net: Network, gateways: seq<string>, hash: string): (r: Attempts)
    ensures |r.urls| <= |gateways|
    ensures forall i :: 0 <= i < |r.urls| ==> r.urls[i] == gateways[i] + hash
    ensures forall i :: 0 <= i < |r.urls| - 1 ==> net(r.urls[i]).Failed?
    ensures r.payload.Some? ==> |r.urls| > 0 && net(r.urls[|r.urls| - 1]) == Got(r.payload.value)
    ensures r.payload.None? <==> forall i :: 0 <= i < |gateways| ==> net(gateways[i] + hash).Failed?
    ensures r.payload.None? ==> |r.urls| == |gateways|
    decreases |gateways|
  {
    if gateways == [] then Attempts(None, [])
    else
      var url := gateways[0] + hash;
      match net(url)
      case Got(body) => Attempts(Some(body), [url])
      case Failed(_) =>
        var rest := TryGateways(net, gateways[1..], hash);
        Attempts(rest.payload, [url] + rest.urls)
  }

  /**
   When gateway `k` is the first to answer, exactly gateways `0..k` are requested and
   the payload is gateway `k`'s.
   */
  lemma FirstSuccessStops(net: Network, gateways: seq<string>, hash: string, k: nat)
    requires k < |gateways| && net(gateways[k] + hash).Got?
    requires forall i :: 0 <= i < k ==> net(gateways[i] + hash).Failed?
    ensures TryGateways(net, gateways, hash)
         == Attempts(Some(net(gateways[k] + hash).body), GatewayUrls(gateways[..k + 1], hash))
  {
    var r := TryGateways(net, gateways, hash);
    assert r.payload.Some?;
    var n := |r.urls|;
    assert r.urls[n - 1] == gateways[n - 1] + hash;
    assert n - 1 >= k;
    assert r.urls[k] == gateways[k] + hash;
    assert r.urls == GatewayUrls(gateways[..k + 1], hash);
  }

  /** Why `fetchFromIPFS` threw: the direct request's error, or the final `Error`. */
  datatype FetchError = DirectFailed(status: Option<int>) | Exhausted(message: string)

  /** `fetchFromIPFS`: the data it resolves with or the error it throws, and the URLs it requested. */
  datatype Fetch = Fetch(outcome: Result<Body, FetchError>, attempts: seq<string>)

  /**
   A reference that is neither IPFS form is requested once, directly, and its failure
   rethrown; otherwise the extracted hash is appended to each gateway in turn.
   */
  function FetchFromIpfs(net: Network, url: string): (r: Fetch)
    ensures ClassifyReference(url).DirectUrl? ==>
      && r.attempts == [url]
      && (net(url).Got? ==> r.outcome == Ok(net(url).body))
      && (net(url).Failed? ==> r.outcome == Err(DirectFailed(net(url).status)))
    ensures !ClassifyReference(url).DirectUrl? ==>
      var hash := ClassifyReference(url).hash;
      && 1 <= |r.attempts| <= |IpfsGateways|
      && (forall i :: 0 <= i < |r.attempts| ==> r.attempts[i] == IpfsGateways[i] + hash)
      && (r.outcome.Err? <==> forall i :: 0 <= i < |IpfsGateways| ==> net(IpfsGateways[i] + hash).Failed?)
      && (r.outcome.Err? ==> r.outcome.error == Exhausted(AllGatewaysFailed) && |r.attempts| == 5)
    ensures forall i :: 0 <= i < |r.attempts| - 1 ==> net(r.attempts[i]).Failed?
    ensures r.outcome.Ok? ==> net(r.attempts[|r.attempts| - 1]) == Got(r.outcome.value)
  {
    match ClassifyReference(url)
    case DirectUrl =>
      (match net(url)
       case Got(body) => Fetch(Ok(body), [url])
       case Failed(status) => Fetch(Err(DirectFailed(status)), [url]))
    case _ =>
      var hash := ClassifyReference(url).hash;
      var tried := TryGateways(net, IpfsGateways, hash);
      assert net(IpfsGateways[0] + hash).Got? ==> tried.payload.Some?;
      match tried.payload
      case Some(body) => Fetch(Ok(body), tried.urls)
      case None => Fetch(Err(Exhausted(AllGatewaysFailed)), tried.urls)
  }

  predicate IsHttpUrl(s: string) {
    StartsWith(s, "http://") || StartsWith(s, "https://")
  }

  /** A bare content identifier: CIDv0 (`Qm…`) or base32 CIDv1 (`bafy…`). */
  predicate LooksLikeCid(s: string) {
    StartsWith(s, "Qm") || StartsWith(s, "bafy")
  }

  /** An `http(s)://` URL never starts with `ipfs://`. */
  lemma HttpIsNotIpfsScheme(s: string)
    ensures !(IsHttpUrl(s) && StartsWith(s, IpfsScheme))
  {
    if StartsWith(s, IpfsScheme) {
      StartsWithFirstChar(s, IpfsScheme);
      if StartsWith(s, "http://") { StartsWithFirstChar(s, "http://"); }
      if StartsWith(s, "https://") { StartsWithFirstChar(s, "https://"); }
    }
  }

  /**
   `getAccessibleImageUrl`; `None` when the call throws, which happens for a truthy
   non-string (it has no `startsWith`).
   */
  function GetAccessibleImageUrl(imageUrl: Value): (r: Option<string>)
    ensures r.None? <==> imageUrl.OtherTruthy?
    ensures !IsTruthy(imageUrl) ==> r == Some("")
    ensures imageUrl.Str? && IsHttpUrl(imageUrl.s) ==> r == Some(imageUrl.s)
    ensures imageUrl.Str? && StartsWith(imageUrl.s, IpfsScheme) ==>
      r == Some(PublicGateway + imageUrl.s[|IpfsScheme|..])
    ensures imageUrl.Str? && !IsHttpUrl(imageUrl.s) && !StartsWith(imageUrl.s, IpfsScheme) ==>
      r == Some(if LooksLikeCid(imageUrl.s) then PublicGateway + imageUrl.s else imageUrl.s)
  {
    match imageUrl
    case OtherFalsy => Some("")
    case OtherTruthy => None
    case Str(s) =>
      HttpIsNotIpfsScheme(s);
      if s == "" then Some("")
      else if IsHttpUrl(s) then Some(s)
      else if StartsWith(s, IpfsScheme) then
        assert "" + s[|IpfsScheme|..] == s[|IpfsScheme|..];
        Some(PublicGateway + ReplaceFirst(s, IpfsScheme, ""))
      else if LooksLikeCid(s) then Some(PublicGateway + s)
      else Some(s)
  }

  /** Every rewritten URL is left alone by a second rewrite. */
  lemma AccessibleImageUrlIdempotent(imageUrl: Value)
    requires GetAccessibleImageUrl(imageUrl).Some?
    ensures GetAccessibleImageUrl(Str(GetAccessibleImageUrl(imageUrl).value)) == GetAccessibleImageUrl(imageUrl)
  {
    var out := GetAccessibleImageUrl(imageUrl).value;
    if imageUrl.Str? && !IsHttpUrl(imageUrl.s) && out != imageUrl.s && out != "" {
      StartsWithAppend("https://", PublicGateway[|"https://"|..] + (if StartsWith(imageUrl.s, IpfsScheme) then imageUrl.s[|IpfsScheme|..] else imageUrl.s), "https://");
      assert out == PublicGateway + (if StartsWith(imageUrl.s, IpfsScheme) then imageUrl.s[|IpfsScheme|..] else imageUrl.s);
    }
  }
}
