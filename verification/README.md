# NFT marketplace front-end: IPFS references, metadata aggregation and listing guards

A Dafny model of the small part of the marketplace front-end that has logic of its own:

- **IPFS reference handling** (`utils/ipfsHelper.js`): how `fetchFromIPFS` classifies a
  reference and extracts its hash, its sequential first-success search over the five
  gateways of `IPFS_GATEWAYS`, and the image-URL rewrite `getAccessibleImageUrl`.
- **Metadata aggregation** (`context/NFTContext.js`): `fetchNFTs` and
  `fetchMyNFTsOrListedNFTs` turn every on-chain market item into a display record or
  `null`, index-aligned with the items. A failed metadata request is decided by a fixed
  tree: a 404 gives `null`; a 403 on a URI with a non-empty `/ipfs/` segment gives exactly
  one retry at `https://ipfs.io/ipfs/<hash>`; anything else gives `null`.
- **Listing and minting guards** (`context/NFTContext.js`): the ordered price validators
  of `createSale`, its wallet and contract steps, its loading flag and its error
  classifier; the validators, Pinata outcome and error classifier of `createNFT`.
- **The resale page** (`pages/resell-nft.js`): `fetchNFT`, and the three guards of
  `resell` in front of `createSale(tokenURI, price, true, id)`.

Everything is a pure function. The network is an oracle `string -> Response` from
request URL to `Got(body)` or `Failed(status)`. The wallet, the contract and Pinata are
records of opaque outcomes. `formatUnits`, `parseUnits` and the `parseFloat(x) > 0` test
are function-valued fields of `Lib`, and the model never interprets them. `fetchFromIPFS`,
`fetchNFT` and the per-item loading of the fetchers return the URLs they requested as well
as their result. That makes claims about ordering, "stop at the first success" and
"no further request" checkable. The batch fetchers return only the slots.

Files: `base.dfy` (Option/Result/Outcome), `js_text.dfy` (the JavaScript string operations
`indexOf`, `includes`, `startsWith`, `split(sep)[1]` and `replace`), `runtime.dfy` (JS values,
responses, errors, library functions, alerts), `ipfs_helper.dfy`, `nft_fetch.dfy`,
`nft_sale.dfy`, `resell_nft.dfy`.

Notes on the code:

- The aggregators do not use the gateway fallback or `getAccessibleImageUrl`. They call
  `axios.get(tokenURI)` directly.
- The aggregators normalise images with `startsWith('http')` and the Pinata base path.
- The 403 retry is present in both fetchers. Their differently written `catch` blocks are
  proved to decide every item alike.
- On the resale page, `fetchNFT` sets `price` before it rewrites the image. A truthy
  non-string `image` makes `getAccessibleImageUrl` throw, so the page keeps the new price
  and the old image.

## Model

| member | source | states |
|---|---|---|
| JsText.ReplaceFirst | utils/ipfsHelper.js:23-24 | `replace('ipfs://', '')` on a string that starts with `ipfs://` strips exactly that prefix; with no occurrence the string is unchanged |
| JsText.SplitSecond | utils/ipfsHelper.js:21-22 | `split('/ipfs/')[1]` is defined exactly when the reference contains `/ipfs/` |
| JsText.SplitSecondOfParts | utils/ipfsHelper.js:21-22 | the extracted hash is the text between the first `/ipfs/` and the next one (or the end), and may be empty |
| IpfsHelper.ClassifyReference | utils/ipfsHelper.js:19-34 | the `/ipfs/` test comes before the `ipfs://` test; the path form yields `split('/ipfs/')[1]`, the scheme form the rest after `ipfs://`, anything else is a direct URL |
| IpfsHelper.TryGateways | utils/ipfsHelper.js:36-50 | gateway URLs are `gateway + hash`, requested strictly in list order; every request before the last failed; a payload comes from the last request; no payload exactly when every gateway failed, and then every gateway was tried |
| IpfsHelper.FirstSuccessStops | utils/ipfsHelper.js:36-50 | when gateway k is the first to answer, exactly gateways 0..k are requested and gateway k's payload is returned |
| IpfsHelper.FetchFromIpfs | utils/ipfsHelper.js:5-53 | a direct reference is requested once and its failure rethrown with no gateway tried; otherwise 1 to 5 gateway requests in list order, stopping at the first success, failing with `All IPFS gateways are inaccessible` after exactly five failures |
| IpfsHelper.GetAccessibleImageUrl | utils/ipfsHelper.js:60-81 | falsy input gives `''`; `http://`/`https://` input is unchanged; `ipfs://X` gives `https://ipfs.io/ipfs/X`; a `Qm`/`bafy` string is prefixed with `https://ipfs.io/ipfs/`; any other string is unchanged; a truthy non-string throws |
| IpfsHelper.AccessibleImageUrlIdempotent | utils/ipfsHelper.js:60-81 | rewriting an already rewritten URL returns it unchanged: f(f(x)) == f(x) |
| NftFetch.EndpointBasePath | context/NFTContext.js:12-15 | the base is the configured Pinata gateway, or `https://gateway.pinata.cloud/ipfs` when unset or empty, followed by `/` |
| NftFetch.NormalizeImage | context/NFTContext.js:244 | an image starting with `http` is kept as is; any other image is prefixed with the base path; the result starts with `http` exactly when the image did or the prefixed image does |
| NftFetch.NormalizeImageIdempotent | context/NFTContext.js:244 | with a base that is an HTTP URL, the result always starts with `http` and normalising twice changes nothing |
| NftFetch.DefaultBaseIsHttp | context/NFTContext.js:12-15 | the default base path is an HTTP URL |
| NftFetch.ReadMetadata | context/NFTContext.js:240-256 | a record is built exactly when the response has a body whose `image` is a string; it carries the item's seller, owner, tokenId, formatted price and tokenURI; a failed request passes its status to the `catch`, while a `TypeError` passes none |
| NftFetch.RetryHash | context/NFTContext.js:266-268 | the retry hash is a non-empty `split('/ipfs/')[1]`; an undefined or empty segment gives no retry |
| NftFetch.IpfsPathImpliesIpfs | context/NFTContext.js:266-267 | a tokenURI containing `/ipfs/` always passes the `includes('ipfs')` test, so only the hash test decides the retry |
| NftFetch.RetryAtPublicGateway | context/NFTContext.js:269-288 | the retry requests `https://ipfs.io/ipfs/<hash>` once; its slot is the record built from that response (image, name and description from the public gateway's body), keeping the original tokenURI, or `null` when that response yields none |
| NftFetch.MarketCatch | context/NFTContext.js:257-297 | the `catch` of `fetchNFTs`: a 403 with a non-empty `/ipfs/` segment retries once at the public gateway; every other error, 404 included, gives `null` with no further request |
| NftFetch.OwnedCatch | context/NFTContext.js:341-368 | the `catch` of `fetchMyNFTsOrListedNFTs`: the same decision as `fetchNFTs`, a single public-gateway retry exactly on a 403 with a non-empty `/ipfs/` segment and `null` otherwise |
| NftFetch.LoadItem | context/NFTContext.js:237-297 | one or two requests, the first to tokenURI; a 404 yields `null` with no further request; a second request happens exactly on a 403 with a non-empty `/ipfs/` segment and goes to the public gateway; with two requests the slot is the record built from the retry's response, with one it is the record built from the first response, or `null` |
| NftFetch.FetchersAgree | context/NFTContext.js:341-367 | the `catch` of `fetchMyNFTsOrListedNFTs` decides every item exactly as the `catch` of `fetchNFTs` |
| NftFetch.Aggregate | context/NFTContext.js:236-239 | one slot per item in input order, each the item's own outcome; a failed tokenURI lookup rejects the whole batch instead of giving `null` |
| NftFetch.FetchNfts | context/NFTContext.js:227-302 | a failed `fetchMarketItems` rejects; otherwise the result is the aggregation of the market items through the `fetchNFTs` decision tree, so it resolves exactly when every tokenURI lookup succeeds, with one slot per market item |
| NftFetch.FetchMyNftsOrListedNfts | context/NFTContext.js:304-372 | the wallet connects first; `fetchItemsListed` is queried when the kind is `'fetchItemsListed'` and `fetchMyNFTs` otherwise; after a successful query the result is the aggregation of the queried list through the `catch` of this fetcher, with slots aligned to that list |
| NftSale.ClassifySaleError | context/NFTContext.js:143-151 | code 4001, then code -32002, then a message containing `user rejected`, then a generic failure carrying the message or `Unknown error` |
| NftSale.SaleCall | context/NFTContext.js:123-134 | the write is `createToken(url, …)` when not reselling and `resellToken(id, …)` when reselling, with the parsed price and the listing fee |
| NftSale.SubmitSale | context/NFTContext.js:110-138 | the steps run in order (MetaMask check, connect, parse price, listing fee, send, confirm), each only after the previous one succeeded; the first failing step's error is the one thrown, and a missing MetaMask raises its own alert first |
| NftSale.CreateSale | context/NFTContext.js:96-154 | an empty price, then a non-positive price, is rejected with no wallet step and the loading flag untouched; past them the flag always ends false; once every earlier step succeeds the `createToken`/`resellToken` write is sent; the sale resolves exactly when the prices pass, every step succeeds and the write is sent and confirmed; otherwise the failing step's error is classified and rethrown, its alert following only those raised in the `try` (the MetaMask alert, if any) |
| NftSale.NoMetaMask | context/NFTContext.js:111-115 | without `window.ethereum` the sale throws before any wallet step and its own `catch` adds a generic `Transaction failed: MetaMask not installed` |
| NftSale.ClassifyMintError | context/NFTContext.js:205-223 | a message mentioning `createSale`, then an HTTP response (`NO_SCOPES_FOUND`, 401, 402, other with the data's error or message), then `ECONNABORTED`, then the generic `Failed to create NFT` with the message or `Unknown error` |
| NftSale.CreateNft | context/NFTContext.js:157-224 | missing fields, then a non-positive price, then missing keys, stop before the metadata POST; after the POST, a pinning error is classified; otherwise `createSale` runs on base path + hash, not reselling; its alerts are the sale's followed, when the sale rejects, by the `createNFT` classification of the rethrown error; navigation only after the sale resolves |
| NftSale.MintPassesSaleValidators | context/NFTContext.js:160-170 | the sale `createNFT` starts is never refused by `createSale`'s price validators, ends with the loading flag false, can only call `createToken` on the pinned URL, and makes that call once every earlier wallet step succeeds |
| ResellNft.FetchNft | pages/resell-nft.js:17-30 | no tokenURI means no request and no change; a failed fetch leaves the page unchanged with one alert; a fetched body sets `price` to `data.price` and `image` to the rewritten `data.image` |
| ResellNft.FetchedImageIsStable | pages/resell-nft.js:22-25 | the image shown after a successful fetch is a fixed point of `getAccessibleImageUrl` |
| ResellNft.Resell | pages/resell-nft.js:36-66 | an empty price, then a non-positive price, then a missing tokenURI or id refuses the resale; `createSale(tokenURI, price, true, id)` runs exactly when all three guards pass; navigation to `/` happens exactly when it resolves |
| ResellNft.ResellPassesSaleValidators | pages/resell-nft.js:40-60 | a submitted resale passes `createSale`'s validators, ends with the loading flag false, can only call `resellToken(id, …)`, and makes that call once every earlier wallet step succeeds |

## Left out

- Wallet connection (`checkIfWalletIsConnect`, `connectWallet`), `uploadToIPFS` and `buyNft`: external wallet, Pinata and contract I/O with no logic of their own beyond alerts.
- The Pinata POST in `createNFT`: its outcome is the opaque `Pinata.pinJson`.
- Whether the Pinata keys exist is the single flag `Pinata.keysConfigured`.
- `ethers.utils.formatUnits`, `parseUnits` and `BigNumber.toNumber`: library code outside this repository. The first two are uninterpreted. `toNumber` is the identity; its overflow above 2^53 - 1 would turn a slot into `null` and is not modelled.
- `parseFloat` and its NaN semantics: floating point. "Parses to a positive number" is the uninterpreted `Lib.positivePrice`.
- `Promise.all` concurrency is modelled as a sequential map. When several tokenURI lookups fail, the model reports the first in index order. JavaScript reports the first to settle in time.
- The 10-second gateway timeout: a timed-out request is a `Failed(None)` response of the oracle.
- The oracle answers a URL the same way every time it is asked.
- React state, rendering, `console` output and the alert texts. Alerts are the `Alert` enumeration.
- `router.query` values that are arrays: query parameters are absent or strings.
- `createSale`'s `price === ''` test: it is subsumed by the falsy test, so it needs no separate case.
- NftSale.ClassifyMintError: a Pinata error whose `data` is missing, or whose `data.error` is an object rather than a string, is not modelled. The response fields are strings, with `""` standing for a missing field.
- Test scripts `test-pinata-api.js`, `test-pinata-json.js` and the static configuration `next.config.js`, `hardhat.config.js`: no logic of the front-end.
