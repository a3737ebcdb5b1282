/** The wallet's records: the account, its token balances, transaction results and topic messages. */
module HederaTypes {
  import opened Wrappers
  import opened HederaSdk

  datatype TokenBalance = TokenBalance(
    tokenId: string,
    balance: string,
    name: Option<string>,
    symbol: Option<string>,
    decimals: Option<int>)

  /** The session record: credentials plus the last known balance and token holdings. */
  datatype HederaAccount = HederaAccount(
    accountId: string,
    privateKey: string,
    balance: string,
    tokens: seq<TokenBalance>)

  /** The fields every operation's result carries. */
  datatype TransactionResult = TransactionResult(
    success: bool,
    transactionId: string,
    message: string,
    receipt: Option<Receipt>)

  datatype TokenCreationResult = TokenCreationResult(result: TransactionResult, tokenId: Option<string>)

  datatype TopicCreationResult = TopicCreationResult(result: TransactionResult, topicId: Option<string>)

  datatype TopicMessageResult = TopicMessageResult(result: TransactionResult, sequenceNumber: Option<int>)

  /** A topic message as the message view keeps it (contents decoded, timestamps rendered as text). */
  datatype TopicMessage = TopicMessage(
    sequenceNumber: int,
    contents: string,
    timestamp: string,
    consensusTimestamp: string)
}
