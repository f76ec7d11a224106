/** The messages peers exchange, after decoding. */
module Protocol {
  import opened Machine
  import opened Pricing

  type Bytes = seq<u8>

  datatype RejectReason = TransitLossToleranceExceeded | BalanceVerificationFailed | OtherReason

  datatype MintOption = MintOption(mintUrl: Bytes, mintUnit: Bytes, price: Price)

  datatype OfferedProduct = OfferedProduct(productId: Bytes, mintOptions: seq<MintOption>)

  datatype Message =
    | Announce
    | PriceSheet(products: seq<OfferedProduct>)
    | Accept(productId: Bytes)
    | Reject(reason: RejectReason)
    | BootstrapToken(token: Bytes)
    | BootstrapAck(accepted: bool)
    | MeteringReport(elapsedMs: u64, delivered: u64, received: u64)
    | Disconnect
    | Unrecognised
}
