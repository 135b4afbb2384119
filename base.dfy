/** Value types shared by the data-feed engine and the save/load store. */
module Base {

  datatype Option<+T> = None | Some(value: T)

  /** A value or the error the source throws or rejects with. */
  datatype Result<+T, +E> = Ok(value: T) | Err(error: E)

  /**
   * The errors of the data-feed engine: the two typed ones, the generic
   * UDFError (KuCoin and BitMart history branches wrap every failure into
   * it) and a backend error that the Binance/MEXC paging loop lets through
   * unwrapped, carrying the backend's own message.
   */
  datatype UdfError =
    | SymbolNotFound
    | InvalidResolution
    | UDFError(message: string)
    | Backend(message: string)
}
