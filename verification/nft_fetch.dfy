/**
 Metadata aggregation in context/NFTContext.js: `fetchNFTs` and `fetchMyNFTsOrListedNFTs`
 map every on-chain market item to a display record or `null`, index-aligned with the
 items, with a fixed decision tree for failed metadata requests.
 */
module NftFetch {
  import opened Base
  import opened JsText
  import opened Runtime
  import opened IpfsHelper

  /** The gateway used when `NEXT_PUBLIC_PINATA_GATEWAY` is unset or empty. */
  const DefaultPinataGateway := "https://gateway.pinata.cloud/ipfs"

  /** `endpointBasePath`: the configured Pinata gateway, or the default one, followed by `/`. */
  function EndpointBasePath(pinataGateway: Option<string>): (r: string)
    ensures |r| > 0 && r[|r| - 1] == '/'
    ensures r[..|r| - 1] == (if Present(pinataGateway) then pinataGateway.value else DefaultPinataGateway)
  {
    (if Present(pinataGateway) then pinataGateway.value else DefaultPinataGateway) + "/"
  }

  /** `image.startsWith('http') ? image : endpointBasePath + image` */
  function NormalizeImage(base: string, image: string): (r: string)
    ensures StartsWith(image, "http") ==> r == image
    ensures !StartsWith(image, "http") ==> r == base + image
    ensures StartsWith(r, "http") <==> StartsWith(image, "http") || StartsWith(base + image, "http")
  {
    if StartsWith(image, "http") then image else base + image
  }

  /** Normalising twice changes nothing once the base itself is an HTTP URL. */
  lemma NormalizeImageIdempotent(base: string, image: string)
    requires StartsWith(base, "http")
    ensures StartsWith(NormalizeImage(base, image), "http")
    ensures NormalizeImage(base, NormalizeImage(base, image)) == NormalizeImage(base, image)
  {
    if !StartsWith(image, "http") {
      StartsWithAppend(base, image, "http");
    }
  }

  /** With no gateway configured the base path is an HTTP URL, so normalisation is idempotent. */
  lemma DefaultBaseIsHttp(pinataGateway: Option<string>)
    requires !Present(pinataGateway)
    ensures StartsWith(EndpointBasePath(pinataGateway), "http")
  {
    assert EndpointBasePath(pinataGateway)[..4] == DefaultPinataGateway[..4];
  }

  /** One entry of the contract's item list, as destructured by the fetchers. */
  datatype MarketItem = MarketItem(tokenId: nat, seller: string, owner: string, price: int)

  /** The record a fetcher resolves an item to. */
  datatype DisplayNft = DisplayNft(
    price: string, tokenId: nat, seller: string, owner: string,
    image: string, name: Value, description: Value, tokenUri: string)

  /** `nft` is the display record of `item` whose metadata sits at `uri`. */
  predicate Describes(lib: Lib, nft: DisplayNft, item: MarketItem, uri: string) {
    && nft.tokenId == item.tokenId
    && nft.seller == item.seller
    && nft.owner == item.owner
    && nft.tokenUri == uri
    && nft.price == lib.formatUnits(item.price)
  }

  /**
   The body of the `try`: build the record from a metadata response. `Err(status)` is the
   error the `catch` sees, `status` being `error.response.status`; destructuring a `null`
   body and calling `startsWith` on a non-string image throw a `TypeError`, which has no
   response.
   */
  function ReadMetadata(base: string, lib: Lib, item: MarketItem, uri: string, response: Response)
    : (r: Result<DisplayNft, Option<int>>)
    ensures r.Ok? <==> response.Got? && response.body.Json? && response.body.image.Str?
    ensures r.Ok? ==>
      && Describes(lib, r.value, item, uri)
      && r.value.image == NormalizeImage(base, response.body.image.s)
      && r.value.name == response.body.name
      && r.value.description == response.body.description
    ensures r.Err? ==> r.error == (if response.Failed? then response.status else None)
  {
    match response
    case Failed(status) => Err(status)
    case Got(NoBody) => Err(None)
    case Got(Json(name, description, image, _)) =>
      if image.Str? then
        Ok(DisplayNft(lib.formatUnits(item.price), item.tokenId, item.seller, item.owner,
                      NormalizeImage(base, image.s), name, description, uri))
      else Err(None)
  }

  /** What one item resolves to, with every URL requested for it. */
  datatype Loaded = Loaded(slot: Option<DisplayNft>, requests: seq<string>)

  /** The slot a metadata read fills: the record, or `null` for any error. */
  function SlotOf(x: Result<DisplayNft, Option<int>>): (r: Option<DisplayNft>)
    ensures r.Some? <==> x.Ok?
    ensures r.Some? ==> r.value == x.value
  {
    if x.Ok? then Some(x.value) else None
  }

  /** The hash the access-denied handler retries with: a truthy `tokenURI.split('/ipfs/')[1]`. */
  function RetryHash(uri: string): (r: Option<string>)
    ensures r.Some? ==> r.value != "" && SplitSecond(uri, IpfsPath) == r
    ensures r.None? ==> SplitSecond(uri, IpfsPath) in {None, Some("")}
  {
    match SplitSecond(uri, IpfsPath)
    case Some(hash) => if hash != "" then Some(hash) else None
    case None => None
  }

  /** A reference containing `/ipfs/` certainly contains `ipfs`. */
  lemma IpfsPathImpliesIpfs(uri: string)
    ensures Includes(uri, IpfsPath) ==> Includes(uri, "ipfs")
  {
    if Includes(uri, IpfsPath) {
      var i := IndexOf(uri, IpfsPath).value;
      assert uri[i..i + 6] == "/ipfs/";
      assert uri[i + 1..i + 5] == uri[i..i + 6][1..5] == "ipfs";
      IncludesAt(uri, "ipfs", i + 1);
    }
  }

  /** The single retry at the public gateway after an access denial. */
  function RetryAtPublicGateway(net: Network, base: string, lib: Lib, item: MarketItem, uri: string, hash: string)
    : (r: Loaded)
    ensures r.requests == [uri, PublicGateway + hash]
    ensures r.slot.Some? <==> ReadMetadata(base, lib, item, uri, net(PublicGateway + hash)).Ok?
    ensures r.slot == SlotOf(ReadMetadata(base, lib, item, uri, net(PublicGateway + hash)))
    ensures r.slot.Some? ==> Describes(lib, r.slot.value, item, uri)
  {
    var url := PublicGateway + hash;
    Loaded(SlotOf(ReadMetadata(base, lib, item, uri, net(url))), [uri, url])
  }

  /** The `catch` of `fetchNFTs`, given the caught error's response status. */
  function MarketCatch(net: Network, base: string, lib: Lib, item: MarketItem, uri: string, status: Option<int>)
    : (r: Loaded)
    ensures status == Some(403) && RetryHash(uri).Some? ==>
      r == RetryAtPublicGateway(net, base, lib, item, uri, RetryHash(uri).value)
    ensures !(status == Some(403) && RetryHash(uri).Some?) ==> r == Loaded(None, [uri])
  {
    IpfsPathImpliesIpfs(uri);
    if status.Some? then
      if status.value == 404 then Loaded(None, [uri])
      else if status.value == 403 then
        if Includes(uri, "ipfs") then
          var hash := SplitSecond(uri, IpfsPath);
          if hash.Some? && hash.value != "" then RetryAtPublicGateway(net, base, lib, item, uri, hash.value)
          else Loaded(None, [uri])
        else Loaded(None, [uri])
      else Loaded(None, [uri])
    else Loaded(None, [uri])
  }

  /** The `catch` of `fetchMyNFTsOrListedNFTs`, given the caught error's response status. */
  function OwnedCatch(net: Network, base: string, lib: Lib, item: MarketItem, uri: string, status: Option<int>)
    : (r: Loaded)
    ensures status == Some(403) && RetryHash(uri).Some? ==>
      r == RetryAtPublicGateway(net, base, lib, item, uri, RetryHash(uri).value)
    ensures !(status == Some(403) && RetryHash(uri).Some?) ==> r == Loaded(None, [uri])
  {
    IpfsPathImpliesIpfs(uri);
    if status.Some? && status.value == 403 && Includes(uri, "ipfs") then
      var hash := SplitSecond(uri, IpfsPath);
      if hash.Some? && hash.value != "" then RetryAtPublicGateway(net, base, lib, item, uri, hash.value)
      else Loaded(None, [uri])
    else Loaded(None, [uri])
  }

  /** Which of the two fetchers' `catch` blocks handles a failed item. */
  datatype Fetcher = MarketFetcher | OwnedFetcher

  /**
   One item of either fetcher after its `tokenURI` is known: request the metadata; on
   failure, a 404 gives `null`, a 403 on a URI with a non-empty `/ipfs/` segment gives
   exactly one retry at the public gateway, and anything else gives `null`.
   */
  function LoadItem(fetcher: Fetcher, net: Network, base: string, lib: Lib, item: MarketItem, uri: string)
    : (r: Loaded)
    ensures 1 <= |r.requests| <= 2 && r.requests[0] == uri
    ensures r.slot.Some? ==> Describes(lib, r.slot.value, item, uri)
    ensures ReadMetadata(base, lib, item, uri, net(uri)).Ok? ==>
      r == Loaded(Some(ReadMetadata(base, lib, item, uri, net(uri)).value), [uri])
    ensures net(uri) == Failed(Some(404)) ==> r == Loaded(None, [uri])
    ensures |r.requests| == 2 <==> net(uri) == Failed(Some(403)) && RetryHash(uri).Some?
    ensures |r.requests| == 2 ==>
      && r.requests[1] == PublicGateway + RetryHash(uri).value
      && r.slot == SlotOf(ReadMetadata(base, lib, item, uri, net(r.requests[1])))
    ensures |r.requests| == 1 ==> r.slot == SlotOf(ReadMetadata(base, lib, item, uri, net(uri)))
  {
    var first := ReadMetadata(base, lib, item, uri, net(uri));
    if first.Ok? then Loaded(Some(first.value), [uri])
    else
      match fetcher
      case MarketFetcher => MarketCatch(net, base, lib, item, uri, first.error)
      case OwnedFetcher => OwnedCatch(net, base, lib, item, uri, first.error)
  }

  /** The two fetchers' differently written `catch` blocks decide every item alike. */
  lemma FetchersAgree(net: Network, base: string, lib: Lib, item: MarketItem, uri: string)
    ensures LoadItem(MarketFetcher, net, base, lib, item, uri) == LoadItem(OwnedFetcher, net, base, lib, item, uri)
  {
  }

  /** A rejection of the whole fetch. */
  datatype LoadError = WalletUnavailable | QueryFailed(query: string) | TokenUriFailed(tokenId: nat)

  /**
   `Promise.all(data.map(...))` as a sequential map. The `tokenURI` lookup sits outside the
   `try`, so its failure rejects the whole batch instead of giving a `null` slot.
   */
  function Aggregate(fetcher: Fetcher, net: Network, base: string, lib: Lib,
                     tokenUri: nat -> Option<string>, items: seq<MarketItem>)
    : (r: Result<seq<Option<DisplayNft>>, LoadError>)
    ensures r.Ok? <==> forall i :: 0 <= i < |items| ==> tokenUri(items[i].tokenId).Some?
    ensures r.Ok? ==> |r.value| == |items|
    ensures r.Ok? ==> forall i :: 0 <= i < |items| ==>
      r.value[i] == LoadItem(fetcher, net, base, lib, items[i], tokenUri(items[i].tokenId).value).slot
    ensures r.Ok? ==> forall i :: 0 <= i < |items| && r.value[i].Some? ==>
      Describes(lib, r.value[i].value, items[i], tokenUri(items[i].tokenId).value)
    ensures r.Err? ==> exists i :: 0 <= i < |items| && tokenUri(items[i].tokenId).None?
                                   && r.error == TokenUriFailed(items[i].tokenId)
    decreases |items|
  {
    if items == [] then Ok([])
    else
      match tokenUri(items[0].tokenId)
      case None => Err(TokenUriFailed(items[0].tokenId))
      case Some(uri) =>
        var rest := Aggregate(fetcher, net, base, lib, tokenUri, items[1..]);
        if rest.Err? then rest
        else Ok([LoadItem(fetcher, net, base, lib, items[0], uri).slot] + rest.value)
  }

  /**
   The contract as the fetchers see it: the three item queries (`None` when the call
   fails) and the `tokenURI` lookup.
   */
  datatype Marketplace = Marketplace(
    marketItems: Option<seq<MarketItem>>,
    itemsListed: Option<seq<MarketItem>>,
    myNfts: Option<seq<MarketItem>>,
    tokenUri: nat -> Option<string>)

  /** `fetchNFTs`: every market item, resolved through the `fetchNFTs` `catch`. */
  function FetchNfts(market: Marketplace, net: Network, pinataGateway: Option<string>, lib: Lib)
    : (r: Result<seq<Option<DisplayNft>>, LoadError>)
    ensures market.marketItems.None? ==> r == Err(QueryFailed("fetchMarketItems"))
    ensures market.marketItems.Some? ==>
      r == Aggregate(MarketFetcher, net, EndpointBasePath(pinataGateway), lib, market.tokenUri,
                     market.marketItems.value)
    ensures r.Ok? ==>
      && market.marketItems.Some?
      && |r.value| == |market.marketItems.value|
      && (forall i :: 0 <= i < |r.value| ==> market.tokenUri(market.marketItems.value[i].tokenId).Some?)
      && forall i :: 0 <= i < |r.value| && r.value[i].Some? ==>
           Describes(lib, r.value[i].value, market.marketItems.value[i],
                     market.tokenUri(market.marketItems.value[i].tokenId).value)
  {
    match market.marketItems
    case None => Err(QueryFailed("fetchMarketItems"))
    case Some(items) =>
      Aggregate(MarketFetcher, net, EndpointBasePath(pinataGateway), lib, market.tokenUri, items)
  }

  /**
   `fetchMyNFTsOrListedNFTs(kind)`: connect the wallet, then query `fetchItemsListed` when
   `kind === 'fetchItemsListed'` and `fetchMyNFTs` for anything else.
   */
  function FetchMyNftsOrListedNfts(kind: Value, walletConnects: bool, market: Marketplace,
                                   net: Network, pinataGateway: Option<string>, lib: Lib)
    : (r: Result<seq<Option<DisplayNft>>, LoadError>)
    ensures !walletConnects ==> r == Err(WalletUnavailable)
    ensures walletConnects && kind == Str("fetchItemsListed") && market.itemsListed.None? ==>
      r == Err(QueryFailed("fetchItemsListed"))
    ensures walletConnects && kind != Str("fetchItemsListed") && market.myNfts.None? ==>
      r == Err(QueryFailed("fetchMyNFTs"))
    ensures walletConnects && kind == Str("fetchItemsListed") && market.itemsListed.Some? ==>
      r == Aggregate(OwnedFetcher, net, EndpointBasePath(pinataGateway), lib, market.tokenUri,
                     market.itemsListed.value)
    ensures walletConnects && kind != Str("fetchItemsListed") && market.myNfts.Some? ==>
      r == Aggregate(OwnedFetcher, net, EndpointBasePath(pinataGateway), lib, market.tokenUri,
                     market.myNfts.value)
    ensures r.Ok? ==>
      var items := if kind == Str("fetchItemsListed") then market.itemsListed else market.myNfts;
      && walletConnects
      && items.Some?
      && |r.value| == |items.value|
      && (forall i :: 0 <= i < |r.value| ==> market.tokenUri(items.value[i].tokenId).Some?)
      && forall i :: 0 <= i < |r.value| && r.value[i].Some? ==>
           Describes(lib, r.value[i].value, items.value[i], market.tokenUri(items.value[i].tokenId).value)
  {
    if !walletConnects then Err(WalletUnavailable)
    else
      var base := EndpointBasePath(pinataGateway);
      if kind == Str("fetchItemsListed") then
        match market.itemsListed
        case None => Err(QueryFailed("fetchItemsListed"))
        case Some(items) => Aggregate(OwnedFetcher, net, base, lib, market.tokenUri, items)
      else
        match market.myNfts
        case None => Err(QueryFailed("fetchMyNFTs"))
        case Some(items) => Aggregate(OwnedFetcher, net, base, lib, market.tokenUri, items)
  }
}
