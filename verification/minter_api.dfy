/**
 * The values the guard receives from its collaborators: the Minter API client
 * (one per configured URL) and the SDK's transaction decoder. Neither is
 * modelled; each call is represented by the value it produced.
 */
module MinterApi {
  import opened Wrappers

  /** Address of one Minter API instance. */
  type Url = string

  /** A Python exception as the guard logs it: its class name and its text. */
  datatype Exc = Exc(name: string, message: string)

  /** What one call to an endpoint did: it raised, or it returned a value. */
  datatype Call<T> = Raised(exc: Exc) | Returned(value: T)

  /**
   * The `error` member of an API response. `code` is None when the member has
   * no `code` key (reading it then raises KeyError).
   */
  datatype ErrorBody = ErrorBody(code: Option<int>, message: string)

  /**
   * A reply of `get_missed_blocks`. `error` is None when the reply carries no
   * error (absent or empty); `missedBlocksCount` is None when
   * `result.missed_blocks_count` is absent or cannot be converted by `int()`.
   */
  datatype StatusResponse = StatusResponse(error: Option<ErrorBody>, missedBlocksCount: Option<int>)

  /** A reply of `send_transaction`; only its `error` member is inspected. */
  datatype SendResponse = SendResponse(error: Option<ErrorBody>)

  /** The remote calls the guard makes, with their arguments. */
  datatype Request =
    | GetNonce(address: string)
    | GetMissedBlocks(pubKey: string)
    | SendTransaction(tx: string)

  /** The kind of a decoded transaction; only set-candidate-off matters here. */
  datatype TxKind = SetCandidateOff | OtherKind

  /** What `MinterTx.from_raw` yields: the transaction kind, its sender and its nonce. */
  datatype DecodedTx = DecodedTx(kind: TxKind, fromMx: string, nonce: int)

  /** Error code the API uses for "validator not found". */
  const NotFound := 404
}
