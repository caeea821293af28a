/**
 The resale page (pages/resell-nft.js): loading the token's metadata into the page, and
 the ordered guards in front of `createSale(tokenURI, price, true, id)`.
 */
module ResellNft {
  import opened Base
  import opened Runtime
  import opened IpfsHelper
  import opened NftSale

  /** The page state `fetchNFT` may change: the `price` and `image` hooks. */
  datatype ResellPage = ResellPage(price: Value, image: string)

  /** A run of `fetchNFT`: the resulting page state, its alerts, and the URLs it requested. */
  datatype Refresh = Refresh(page: ResellPage, alerts: seq<Alert>, requests: seq<string>)

  /**
   `fetchNFT`: nothing happens without a `tokenURI`. Otherwise the metadata is fetched
   through the gateway fallback; `price` is set first, then `image`, so an image that makes
   `getAccessibleImageUrl` throw leaves the new price in place and the old image.
   */
  function FetchNft(net: Network, tokenUri: Option<string>, page: ResellPage): (r: Refresh)
    ensures !Present(tokenUri) ==> r == Refresh(page, [], [])
    ensures Present(tokenUri) ==>
      var fetched := FetchFromIpfs(net, tokenUri.value);
      && r.requests == fetched.attempts
      && (fetched.outcome.Err? || fetched.outcome.value.NoBody? ==> r == Refresh(page, [FetchNftFailed], fetched.attempts))
      && (fetched.outcome.Ok? && fetched.outcome.value.Json? ==>
            var data := fetched.outcome.value;
            && r.page.price == data.price
            && (GetAccessibleImageUrl(data.image).Some? ==>
                  r.page.image == GetAccessibleImageUrl(data.image).value && r.alerts == [])
            && (GetAccessibleImageUrl(data.image).None? ==>
                  r.page.image == page.image && r.alerts == [FetchNftFailed]))
  {
    if !Present(tokenUri) then Refresh(page, [], [])
    else
      var fetched := FetchFromIpfs(net, tokenUri.value);
      match fetched.outcome
      case Err(_) => Refresh(page, [FetchNftFailed], fetched.attempts)
      case Ok(NoBody) => Refresh(page, [FetchNftFailed], fetched.attempts)
      case Ok(Json(_, _, image, price)) =>
        var priced := page.(price := price);
        match GetAccessibleImageUrl(image)
        case None => Refresh(priced, [FetchNftFailed], fetched.attempts)
        case Some(url) => Refresh(priced.(image := url), [], fetched.attempts)
  }

  /** The image `fetchNFT` shows is already accessible: rewriting it again changes nothing. */
  lemma FetchedImageIsStable(net: Network, tokenUri: Option<string>, page: ResellPage)
    ensures var r := FetchNft(net, tokenUri, page);
      Present(tokenUri) && r.alerts == [] ==> GetAccessibleImageUrl(Str(r.page.image)) == Some(r.page.image)
  {
    if Present(tokenUri) && FetchNft(net, tokenUri, page).alerts == [] {
      var data := FetchFromIpfs(net, tokenUri.value).outcome.value;
      AccessibleImageUrlIdempotent(data.image);
    }
  }

  /** How `resell` ends: refused by a guard with its alert, or handed to `createSale`. */
  datatype ResellOutcome = Refused(alert: Alert) | Submitted(sale: SaleRun, navigated: bool)

  /**
   `resell`: an empty price, then a price that is not a positive number, then a missing
   `tokenURI` or `id` refuse the resale; otherwise `createSale` runs as a resale and the
   page navigates to `/` only once it resolves.
   */
  function Resell(w: Wallet, lib: Lib, price: Value, tokenUri: Option<string>, id: Option<string>, loading: bool)
    : (r: ResellOutcome)
    ensures !IsTruthy(price) ==> r == Refused(EnterPrice)
    ensures IsTruthy(price) && !lib.positivePrice(price) ==> r == Refused(EnterValidPrice)
    ensures PriceAccepted(lib, price) && !(Present(tokenUri) && Present(id)) ==> r == Refused(MissingNftInfo)
    ensures r.Submitted? <==> PriceAccepted(lib, price) && Present(tokenUri) && Present(id)
    ensures r.Submitted? ==>
      && r.sale == CreateSale(w, lib, tokenUri.value, price, true, id, loading)
      && (r.navigated <==> r.sale.result.Listed?)
  {
    if !IsTruthy(price) then Refused(EnterPrice)
    else if !lib.positivePrice(price) then Refused(EnterValidPrice)
    else if !Present(tokenUri) || !Present(id) then Refused(MissingNftInfo)
    else
      var sale := CreateSale(w, lib, tokenUri.value, price, true, id, loading);
      Submitted(sale, sale.result.Listed?)
  }

  /**
   The page checks the price as `createSale` does, so a submitted resale is never refused
   by `createSale`'s validators; its only contract write is `resellToken(id, …)`, made
   as soon as every earlier wallet step succeeds.
   */
  lemma ResellPassesSaleValidators(w: Wallet, lib: Lib, price: Value, tokenUri: Option<string>,
                                   id: Option<string>, loading: bool)
    requires PriceAccepted(lib, price) && Present(tokenUri) && Present(id)
    ensures Resell(w, lib, price, tokenUri, id, loading).Submitted?
    ensures var sale := Resell(w, lib, price, tokenUri, id, loading).sale;
      && (sale.result.Listed? || sale.result.Rejected?)
      && !sale.loading
      && (ReachesSend(w, lib, price) ==>
            |sale.trace| >= 3
            && sale.trace[2] == Send(ResellToken(id, lib.parseUnits(price).value, w.listingPrice.value)))
      && forall k :: 0 <= k < |sale.trace| && sale.trace[k].Send? ==>
           sale.trace[k].call.ResellToken? && sale.trace[k].call.id == id
  {
  }
}
