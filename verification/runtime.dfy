/**
 The parts of the JavaScript runtime the front-end observes: values as far as truthiness
 and string-ness matter, HTTP responses from `axios`, thrown errors, and the library
 functions the model keeps uninterpreted.
 */
module Runtime {
  import opened Base

  /**
   A JavaScript value: a string, or some other value that is falsy (`undefined`, `null`,
   `0`, `NaN`, `false`) or truthy (a number, an object). Calling a string method on a
   non-string throws a `TypeError`.
   */
  datatype Value = Str(s: string) | OtherFalsy | OtherTruthy

  /** `!!v` */
  predicate IsTruthy(v: Value) {
    match v
    case Str(s) => s != ""
    case OtherFalsy => false
    case OtherTruthy => true
  }

  /** `!!q` for a router query parameter, which is absent or a string. */
  predicate Present(q: Option<string>) {
    q.Some? && q.value != ""
  }

  /**
   The `data` of a successful response: `null` (reading a field throws), or a value whose
   fields `name`, `description`, `image` and `price` are read (a field that is missing, or a
   body that is not an object, reads as `OtherFalsy`).
   */
  datatype Body = NoBody | Json(name: Value, description: Value, image: Value, price: Value)

  /**
   What `axios.get(url)` does: resolve with a body, or reject with an error whose
   `error.response.status` is `Some(status)` for an HTTP error status and `None` when no
   response arrived (network failure, timeout, CORS refusal).
   */
  datatype Response = Got(body: Body) | Failed(status: Option<int>)

  /** The network as an oracle from request URL to response. */
  type Network = string -> Response

  /** `error.code`: absent, a number (wallet errors) or a string (`'ECONNABORTED'`). */
  datatype ErrCode = NoCode | NumCode(n: int) | StrCode(s: string)

  /**
   `error.response` of a failed HTTP request: its status and the fields `reason`, `error`
   and `message` of its data (`""` when missing, which JavaScript treats alike here).
   */
  datatype ErrorResponse = ErrorResponse(status: int, reason: string, error: string, message: string)

  /** A thrown error: `code`, `message` (`""` when missing) and `response`. */
  datatype JsError = JsError(code: ErrCode, message: string, response: Option<ErrorResponse>)

  /**
   Library behaviour kept uninterpreted: `ethers.utils.formatUnits(x, 'ether')`,
   `ethers.utils.parseUnits(x.toString(), 'ether')` (which may throw), and the test
   `!(isNaN(parseFloat(x)) || parseFloat(x) <= 0)`.
   */
  datatype Lib = Lib(
    formatUnits: int -> string,
    parseUnits: Value -> Result<int, JsError>,
    positivePrice: Value -> bool)

  /** Every `alert` the modelled code can raise. */
  datatype Alert =
    | EnterPrice               // 'Please enter a price'
    | EnterValidPrice          // 'Please enter a valid price (must be greater than 0)'
    | InstallMetaMask          // 'Please install MetaMask to continue'
    | TxCancelled              // 'Transaction cancelled by user'
    | ConnectWalletInMetaMask  // 'Please connect your wallet in MetaMask'
    | TxRejected               // 'Transaction rejected by user'
    | TxFailed(detail: string) // 'Transaction failed: ...'
    | FillAllFields            // 'Please fill in all fields and upload an image'
    | PinataKeysMissing        // 'Pinata API key not configured! ...'
    | ContractCallFailed       // 'Smart contract call failed! ...'
    | PinataNoScopes           // 'API key permission error! ...'
    | PinataInvalidKey         // 'Invalid API key! ...'
    | PinataQuotaExceeded      // 'Pinata account quota exceeded! ...'
    | PinataUploadFailed(detail: string)  // 'Pinata upload failed: ...'
    | RequestTimeout           // 'Request timeout, ...'
    | CreateNftFailed(detail: string)     // 'Failed to create NFT: ...'
    | MissingNftInfo           // 'Missing NFT information. ...'
    | FetchNftFailed           // 'Unable to fetch NFT data, please try again later'

  /** `x || 'Unknown error'` for a message that is `""` when missing. */
  function OrUnknown(message: string): (r: string)
    ensures r != ""
    ensures message != "" ==> r == message
  {
    if message != "" then message else "Unknown error"
  }
}
