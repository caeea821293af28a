/**
 Listing and minting in context/NFTContext.js: the ordered input validators of
 `createSale` and `createNFT`, the wallet and contract steps between them, and the
 classification of caught errors into alerts.
 */
module NftSale {
  import opened Base
  import opened JsText
  import opened Runtime
  import opened NftFetch

  /** The contract write `createSale` makes: `createToken(url, price)` or `resellToken(id, price)`, paying `fee`. */
  datatype ContractCall =
    | CreateToken(url: string, price: int, fee: int)
    | ResellToken(id: Option<string>, price: int, fee: int)

  /** An interaction with the wallet or the contract, in the order they happen. */
  datatype Step = Connect | GetListingPrice | Send(call: ContractCall) | Confirm(call: ContractCall)

  /**
   The wallet and contract as opaque outcomes: whether `window.ethereum` exists, how
   `web3Modal.connect()` ends, `getListingPrice()`, sending a contract call, and
   `transaction.wait()` for it.
   */
  datatype Wallet = Wallet(
    installed: bool,
    connect: Outcome<JsError>,
    listingPrice: Result<int, JsError>,
    send: ContractCall -> Outcome<JsError>,
    confirm: ContractCall -> Outcome<JsError>)

  /** How `createSale` ends: resolved, rejected by a price validator, or rejected from its `try`. */
  datatype SaleResult = Listed | EmptyPrice | BadPrice | Rejected(error: JsError)

  /** A run of `createSale`: how it ended, its wallet steps, its alerts and the final loading flag. */
  datatype SaleRun = SaleRun(result: SaleResult, trace: seq<Step>, alerts: seq<Alert>, loading: bool)

  const PriceEmptyError := JsError(NoCode, "Price cannot be empty", None)
  const InvalidPriceError := JsError(NoCode, "Invalid price", None)
  const NotInstalledError := JsError(NoCode, "MetaMask not installed", None)

  /** The error `createSale` rejects with. */
  function Thrown(result: SaleResult): (e: JsError)
    requires !result.Listed?
  {
    match result
    case EmptyPrice => PriceEmptyError
    case BadPrice => InvalidPriceError
    case Rejected(e) => e
  }

  /** Both price validators pass: the price is truthy and parses to a positive number. */
  predicate PriceAccepted(lib: Lib, price: Value) {
    IsTruthy(price) && lib.positivePrice(price)
  }

  /** The call `createSale` makes for a listing or a resale. */
  predicate CallFor(call: ContractCall, url: string, isReselling: bool, id: Option<string>) {
    && (call.CreateToken? <==> !isReselling)
    && (call.CreateToken? ==> call.url == url)
    && (call.ResellToken? ==> call.id == id)
  }

  /**
   The error classifier of `createSale`'s `catch`: code 4001, then code -32002, then a
   message mentioning `user rejected`, then a generic failure.
   */
  function ClassifySaleError(e: JsError): (r: Alert)
    ensures r == TxCancelled <==> e.code == NumCode(4001)
    ensures r == ConnectWalletInMetaMask <==> e.code == NumCode(-32002)
    ensures r == TxRejected <==>
      e.code != NumCode(4001) && e.code != NumCode(-32002) && Includes(e.message, "user rejected")
    ensures r.TxFailed? <==>
      e.code != NumCode(4001) && e.code != NumCode(-32002) && !Includes(e.message, "user rejected")
    ensures r.TxFailed? ==> r.detail == OrUnknown(e.message)
  {
    if e.code == NumCode(4001) then TxCancelled
    else if e.code == NumCode(-32002) then ConnectWalletInMetaMask
    else if e.message != "" && Includes(e.message, "user rejected") then TxRejected
    else TxFailed(OrUnknown(e.message))
  }

  /** How the `try` block of `createSale` ends, with its wallet steps and alerts. */
  datatype Attempt = Attempt(outcome: Outcome<JsError>, trace: seq<Step>, alerts: seq<Alert>)

  /** Every step before the contract write succeeds: wallet present and connected, price parsed, fee read. */
  predicate ReachesSend(w: Wallet, lib: Lib, price: Value) {
    w.installed && w.connect.Pass? && lib.parseUnits(price).Ok? && w.listingPrice.Ok?
  }

  /**
   The contract write `createSale` sends: `createToken(url, amount)` unless reselling,
   `resellToken(id, amount)` when reselling, paying the listing fee.
   */
  function SaleCall(w: Wallet, lib: Lib, url: string, price: Value, isReselling: bool, id: Option<string>)
    : (c: ContractCall)
    requires lib.parseUnits(price).Ok? && w.listingPrice.Ok?
    ensures CallFor(c, url, isReselling, id)
    ensures c.price == lib.parseUnits(price).value && c.fee == w.listingPrice.value
  {
    var amount := lib.parseUnits(price).value;
    var fee := w.listingPrice.value;
    if !isReselling then CreateToken(url, amount, fee) else ResellToken(id, amount, fee)
  }

  /**
   The `try` block of `createSale`: wallet, amount, listing fee, the contract call and its
   confirmation. Each step runs only after the previous one succeeded, and the first
   failing step's error is the one thrown.
   */
  function SubmitSale(w: Wallet, lib: Lib, url: string, price: Value, isReselling: bool, id: Option<string>)
    : (a: Attempt)
    ensures !w.installed ==> a == Attempt(Fail(NotInstalledError), [], [InstallMetaMask])
    ensures w.installed ==> a.alerts == []
    ensures w.installed && w.connect.Fail? ==> a.outcome == w.connect && a.trace == [Connect]
    ensures w.installed && w.connect.Pass? && lib.parseUnits(price).Err? ==>
      a.outcome == Fail(lib.parseUnits(price).error) && a.trace == [Connect]
    ensures w.installed && w.connect.Pass? && lib.parseUnits(price).Ok? && w.listingPrice.Err? ==>
      a.outcome == Fail(w.listingPrice.error) && a.trace == [Connect, GetListingPrice]
    ensures ReachesSend(w, lib, price) ==>
      var call := SaleCall(w, lib, url, price, isReselling, id);
      && (w.send(call).Fail? ==> a.outcome == w.send(call) && a.trace == [Connect, GetListingPrice, Send(call)])
      && (w.send(call).Pass? ==>
            a.outcome == w.confirm(call) && a.trace == [Connect, GetListingPrice, Send(call), Confirm(call)])
  {
    if !w.installed then Attempt(Fail(NotInstalledError), [], [InstallMetaMask])
    else
      match w.connect
      case Fail(e) => Attempt(Fail(e), [Connect], [])
      case Pass =>
        match lib.parseUnits(price)
        case Err(e) => Attempt(Fail(e), [Connect], [])
        case Ok(amount) =>
          match w.listingPrice
          case Err(e) => Attempt(Fail(e), [Connect, GetListingPrice], [])
          case Ok(fee) =>
            var call := SaleCall(w, lib, url, price, isReselling, id);
            match w.send(call)
            case Fail(e) => Attempt(Fail(e), [Connect, GetListingPrice, Send(call)], [])
            case Pass =>
              match w.confirm(call)
              case Fail(e) => Attempt(Fail(e), [Connect, GetListingPrice, Send(call), Confirm(call)], [])
              case Pass => Attempt(Pass, [Connect, GetListingPrice, Send(call), Confirm(call)], [])
  }

  /**
   `createSale(url, price, isReselling, id)`, entered with the loading flag `loading`.
   The price validators run before any wallet step and leave the flag alone; every run
   that gets past them ends with the flag false, and rethrows the error of the step
   that failed after classifying it.
   */
  function CreateSale(w: Wallet, lib: Lib, url: string, price: Value, isReselling: bool, id: Option<string>,
                      loading: bool): (r: SaleRun)
    ensures !IsTruthy(price) ==> r == SaleRun(EmptyPrice, [], [EnterPrice], loading)
    ensures IsTruthy(price) && !lib.positivePrice(price) ==> r == SaleRun(BadPrice, [], [EnterValidPrice], loading)
    ensures PriceAccepted(lib, price) ==> !r.loading && (r.result.Listed? || r.result.Rejected?)
    ensures r.trace != [] ==> PriceAccepted(lib, price) && w.installed && r.trace[0] == Connect
    ensures PriceAccepted(lib, price) ==>
      var attempt := SubmitSale(w, lib, url, price, isReselling, id);
      && r.trace == attempt.trace
      && (r.result.Listed? <==> attempt.outcome.Pass?)
      && (r.result.Rejected? ==> attempt.outcome == Fail(r.result.error))
      && r.alerts == attempt.alerts + (if attempt.outcome.Fail? then [ClassifySaleError(attempt.outcome.error)] else [])
    ensures PriceAccepted(lib, price) && ReachesSend(w, lib, price) ==>
      |r.trace| >= 3 && r.trace[2] == Send(SaleCall(w, lib, url, price, isReselling, id))
    ensures r.result.Listed? <==>
      && PriceAccepted(lib, price)
      && ReachesSend(w, lib, price)
      && w.send(SaleCall(w, lib, url, price, isReselling, id)) == Pass
      && w.confirm(SaleCall(w, lib, url, price, isReselling, id)) == Pass
    ensures forall k :: 0 <= k < |r.trace| && r.trace[k].Send? ==>
      && k == 2
      && CallFor(r.trace[k].call, url, isReselling, id)
      && lib.parseUnits(price) == Ok(r.trace[k].call.price)
      && w.listingPrice == Ok(r.trace[k].call.fee)
    ensures r.result.Listed? ==>
      && |r.trace| == 4 && r.trace[2].Send? && r.trace[3] == Confirm(r.trace[2].call)
      && r.alerts == []
    ensures r.result.Rejected? ==>
      && PriceAccepted(lib, price)
      && |r.alerts| > 0
      && r.alerts[|r.alerts| - 1] == ClassifySaleError(r.result.error)
  {
    if !IsTruthy(price) then SaleRun(EmptyPrice, [], [EnterPrice], loading)
    else if !lib.positivePrice(price) then SaleRun(BadPrice, [], [EnterValidPrice], loading)
    else
      var attempt := SubmitSale(w, lib, url, price, isReselling, id);
      match attempt.outcome
      case Pass => SaleRun(Listed, attempt.trace, attempt.alerts, false)
      case Fail(e) => SaleRun(Rejected(e), attempt.trace, attempt.alerts + [ClassifySaleError(e)], false)
  }

  /** Without `window.ethereum` the `try` block throws at once and its own `catch` reports it generically. */
  lemma NoMetaMask(w: Wallet, lib: Lib, url: string, price: Value, isReselling: bool, id: Option<string>,
                   loading: bool)
    requires PriceAccepted(lib, price) && !w.installed
    ensures CreateSale(w, lib, url, price, isReselling, id, loading)
         == SaleRun(Rejected(NotInstalledError), [], [InstallMetaMask, TxFailed("MetaMask not installed")], false)
  {
    ExcludesByFirstChar(NotInstalledError.message, "user rejected");
  }

  /** The fields `createNFT` reads from its form. */
  datatype MintForm = MintForm(name: Value, description: Value, price: Value)

  /**
   The Pinata side of minting as opaque outcomes: whether both API keys are configured, and
   how the `pinJSONToIPFS` POST ends (the returned `IpfsHash`, or the error).
   */
  datatype Pinata = Pinata(keysConfigured: bool, pinJson: Result<string, JsError>)

  /** A run of `createNFT`: its alerts, whether it posted the metadata, its `createSale` run, and navigation to `/`. */
  datatype MintRun = MintRun(alerts: seq<Alert>, posted: bool, sale: Option<SaleRun>, navigated: bool)

  /**
   The error classifier of `createNFT`'s `catch`: a message mentioning `createSale`, then an
   HTTP response (`NO_SCOPES_FOUND`, 401, 402, anything else), then a timeout, then generic.
   */
  function ClassifyMintError(e: JsError): (r: Alert)
    ensures r == ContractCallFailed <==> Includes(e.message, "createSale")
    ensures !Includes(e.message, "createSale") && e.response.Some? ==>
      r == (if e.response.value.reason == "NO_SCOPES_FOUND" then PinataNoScopes
            else if e.response.value.status == 401 then PinataInvalidKey
            else if e.response.value.status == 402 then PinataQuotaExceeded
            else PinataUploadFailed(OrUnknown(if e.response.value.error != "" then e.response.value.error
                                              else e.response.value.message)))
    ensures r == RequestTimeout <==>
      !Includes(e.message, "createSale") && e.response.None? && e.code == StrCode("ECONNABORTED")
    ensures !Includes(e.message, "createSale") && e.response.None? && e.code != StrCode("ECONNABORTED") ==>
      r == CreateNftFailed(OrUnknown(e.message))
    ensures r.CreateNftFailed? ==> r.detail == OrUnknown(e.message) && e.response.None?
  {
    if e.message != "" && Includes(e.message, "createSale") then ContractCallFailed
    else if e.response.Some? then
      var data := e.response.value;
      if data.reason == "NO_SCOPES_FOUND" then PinataNoScopes
      else if data.status == 401 then PinataInvalidKey
      else if data.status == 402 then PinataQuotaExceeded
      else PinataUploadFailed(if data.error != "" then data.error else OrUnknown(data.message))
    else if e.code == StrCode("ECONNABORTED") then RequestTimeout
    else CreateNftFailed(OrUnknown(e.message))
  }

  /** The form validator of `createNFT`: every field and the file URL truthy. */
  predicate FormComplete(form: MintForm, fileUrl: Value) {
    IsTruthy(form.name) && IsTruthy(form.description) && IsTruthy(form.price) && IsTruthy(fileUrl)
  }

  /**
   `createNFT(formInput, fileUrl)`: three validators in order (all fields, a positive price,
   configured keys), the metadata POST, then `createSale` on the pinned URL. It never
   rejects: every error ends in an alert.
   */
  function CreateNft(form: MintForm, fileUrl: Value, pinata: Pinata, pinataGateway: Option<string>,
                     w: Wallet, lib: Lib, loading: bool): (r: MintRun)
    ensures !FormComplete(form, fileUrl) ==> r == MintRun([FillAllFields], false, None, false)
    ensures FormComplete(form, fileUrl) && !lib.positivePrice(form.price) ==>
      r == MintRun([EnterValidPrice], false, None, false)
    ensures FormComplete(form, fileUrl) && lib.positivePrice(form.price) && !pinata.keysConfigured ==>
      r == MintRun([PinataKeysMissing], false, None, false)
    ensures r.posted <==> FormComplete(form, fileUrl) && lib.positivePrice(form.price) && pinata.keysConfigured
    ensures r.sale.Some? <==> r.posted && pinata.pinJson.Ok?
    ensures r.sale.Some? ==>
      r.sale.value == CreateSale(w, lib, EndpointBasePath(pinataGateway) + pinata.pinJson.value,
                                 form.price, false, None, loading)
    ensures r.navigated <==> r.sale.Some? && r.sale.value.result.Listed?
    ensures r.posted && pinata.pinJson.Err? ==> r.alerts == [ClassifyMintError(pinata.pinJson.error)]
    ensures r.sale.Some? ==>
      r.alerts == r.sale.value.alerts
                  + (if r.sale.value.result.Listed? then [] else [ClassifyMintError(Thrown(r.sale.value.result))])
  {
    if !FormComplete(form, fileUrl) then MintRun([FillAllFields], false, None, false)
    else if !lib.positivePrice(form.price) then MintRun([EnterValidPrice], false, None, false)
    else if !pinata.keysConfigured then MintRun([PinataKeysMissing], false, None, false)
    else
      match pinata.pinJson
      case Err(e) => MintRun([ClassifyMintError(e)], true, None, false)
      case Ok(hash) =>
        var sale := CreateSale(w, lib, EndpointBasePath(pinataGateway) + hash, form.price, false, None, loading);
        if sale.result.Listed? then MintRun(sale.alerts, true, Some(sale), true)
        else MintRun(sale.alerts + [ClassifyMintError(Thrown(sale.result))], true, Some(sale), false)
  }

  /**
   `createNFT` validates the price exactly as `createSale` does, so the sale it starts is
   never rejected by a price validator; its only contract write mints a new token at the
   pinned URL, made as soon as every earlier wallet step succeeds.
   */
  lemma MintPassesSaleValidators(form: MintForm, fileUrl: Value, pinata: Pinata, pinataGateway: Option<string>,
                                 w: Wallet, lib: Lib, loading: bool)
    requires FormComplete(form, fileUrl) && lib.positivePrice(form.price)
    requires pinata.keysConfigured && pinata.pinJson.Ok?
    ensures var sale := CreateNft(form, fileUrl, pinata, pinataGateway, w, lib, loading).sale;
      && sale.Some?
      && (sale.value.result.Listed? || sale.value.result.Rejected?)
      && !sale.value.loading
      && (ReachesSend(w, lib, form.price) ==>
            |sale.value.trace| >= 3
            && sale.value.trace[2] == Send(CreateToken(EndpointBasePath(pinataGateway) + pinata.pinJson.value,
                                                       lib.parseUnits(form.price).value, w.listingPrice.value)))
      && forall k :: 0 <= k < |sale.value.trace| && sale.value.trace[k].Send? ==>
           sale.value.trace[k].call == CreateToken(EndpointBasePath(pinataGateway) + pinata.pinJson.value,
                                                   sale.value.trace[k].call.price, sale.value.trace[k].call.fee)
  {
  }
}
