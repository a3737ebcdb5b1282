/**
 * The boundary with the ledger SDK. Nothing behind it is modelled: every
 * query, every submission and every subscription is an oracle whose answer
 * is given to the model as a value of one of these types.
 */
module HederaSdk {
  import opened Wrappers

  /** A testnet client whose operator (paying and signing account) is set. */
  datatype Client = Client(operatorAccountId: string, operatorKey: string)

  /** What a `catch` clause receives: an `Error` (with its message) or any other thrown value. */
  datatype Thrown = ErrorObject(message: string) | OtherValue {

    /** `err instanceof Error ? err.message : fallback` */
    function MessageOr(fallback: string): string {
      if ErrorObject? then message else fallback
    }
  }

  /** The part of a transaction receipt the wallet reads. */
  datatype Receipt = Receipt(
    status: string,
    tokenId: Option<string>,
    topicId: Option<string>,
    topicSequenceNumber: Option<int>)

  /** One signed amount of a transfer transaction (tinybars for HBAR, token units for tokens). */
  datatype TransferLeg = TransferLeg(accountId: string, amount: int)

  /** A built (frozen) transaction, as handed to the network. */
  datatype Transaction =
    | HbarTransfer(hbarLegs: seq<TransferLeg>)
    | TokenTransfer(tokenId: string, tokenLegs: seq<TransferLeg>)
    | TokenCreate(name: string, symbol: string, decimals: int, initialSupply: int,
                  treasuryAccountId: string, adminKey: string, supplyKey: string)
    | TokenAssociate(accountId: string, tokenIds: seq<string>)
    | TopicCreate(memo: string, submitKey: Option<string>)
    | TopicMessageSubmit(topicId: string, message: string)

  /**
   * What freezing, executing and awaiting the receipt of one transaction
   * produce: the response's transaction id with its receipt, or a value
   * thrown anywhere along the way.
   */
  datatype Submission = Executed(transactionId: string, receipt: Receipt) | Failed(thrown: Thrown)

  /** One token relationship of an account, as the account-info query reports it. */
  datatype TokenRelationship = TokenRelationship(balance: Option<string>, decimals: Option<int>)

  /** One `[tokenId, relationship]` pair of the relationship map's entries; the relationship may be missing. */
  datatype RelationshipEntry = RelationshipEntry(tokenId: string, relationship: Option<TokenRelationship>)

  /**
   * A balance query followed by an account-info query: the HBAR balance
   * as text and the token relationships (absent when the info carries
   * none), or the value thrown by either query.
   */
  datatype AccountQuery =
    | Answered(hbars: string, tokenRelationships: Option<seq<RelationshipEntry>>)
    | QueryFailed(thrown: Thrown)
}
