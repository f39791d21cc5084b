/** The records the engine stores and exchanges with its peer. */
module Model {

  import Text

  /** An account record as `create` in src/controllers/account.ts stores it: only its id. */
  datatype Account = Account(id: string)

  /**
   * The `destinationTag` field of a payment-details reply. A freshly drawn tag is a
   * JavaScript number; a tag read back from the store is the string the store returned.
   */
  datatype TagValue = TagNumber(n: nat) | TagString(s: string)

  /** How a tag reads once interpolated into a template literal or a store key. */
  function TagText(t: TagValue): string {
    match t
    case TagNumber(n) => Text.NatToDecimal(n)
    case TagString(s) => s
  }

  /** The reply to a `paymentDetails` message: where to pay, and the tag to pay under. */
  datatype PaymentDetails = PaymentDetails(ppEmail: string, destinationTag: TagValue)
}
