/**
 * The wallet-session hook: the session state (account, client, loading
 * flag, last error), the session record persisted under one fixed storage
 * key, and the operations that build, submit and classify transactions.
 * Every network call is an oracle given to the operation as a parameter.
 */
module HederaAccountHook {
  import opened Wrappers
  import opened HederaSdk
  import opened HederaTypes

  /** The storage key of the persisted session record. */
  const StorageKey: string := "hedera_account"

  /** What every mutating operation throws when there is no client or no account. */
  const NotInitialized: string := "Client not initialized"

  /** What client initialisation throws when the SDK rejects the account id or the key. */
  const InvalidCredentials: string := "Invalid credentials"

  const ConnectFallback: string := "Failed to connect account"
  const RefreshFallback: string := "Failed to refresh account"

  /** The receipt status string of an accepted transaction. */
  const SuccessStatus: string := "SUCCESS"

  // ---------------------------------------------------------------------
  // Token relationships to token balances
  // ---------------------------------------------------------------------

  /** `relationship?.balance?.toString() || '0'` */
  function RelationshipBalance(rel: Option<TokenRelationship>): (b: string)
    ensures b != ""
    ensures rel.None? || rel.value.balance.None? || rel.value.balance.value == "" ==> b == "0"
    ensures rel.Some? && rel.value.balance.Some? && rel.value.balance.value != "" ==> b == rel.value.balance.value
  {
    if rel.Some? && rel.value.balance.Some? && rel.value.balance.value != "" then rel.value.balance.value else "0"
  }

  /** `relationship?.decimals || 0` */
  function RelationshipDecimals(rel: Option<TokenRelationship>): (d: int)
    ensures rel.None? || rel.value.decimals.None? ==> d == 0
    ensures rel.Some? && rel.value.decimals.Some? ==> d == rel.value.decimals.value
  {
    if rel.Some? && rel.value.decimals.Some? then rel.value.decimals.value else 0
  }

  /** The balance of one relationship entry: the entry's token id, no name or symbol, defaulted balance and decimals. */
  function TokenBalanceOf(entry: RelationshipEntry): (t: TokenBalance)
    ensures t.tokenId == entry.tokenId && t.name.None? && t.symbol.None?
    ensures t.balance == RelationshipBalance(entry.relationship) && t.balance != ""
    ensures t.decimals == Some(RelationshipDecimals(entry.relationship))
  {
    TokenBalance(entry.tokenId, RelationshipBalance(entry.relationship), None, None,
                 Some(RelationshipDecimals(entry.relationship)))
  }

  /**
   * The token list of an account snapshot: one balance per relationship
   * entry, in entry order, keyed by the entry's token id; name and symbol
   * are left unset and the decimals are always present.
   */
  function TokensOf(relationships: Option<seq<RelationshipEntry>>): (tokens: seq<TokenBalance>)
    ensures relationships.None? ==> tokens == []
    ensures relationships.Some? ==> |tokens| == |relationships.value|
    ensures relationships.Some? ==> forall i :: 0 <= i < |tokens| ==> tokens[i].tokenId == relationships.value[i].tokenId
    ensures forall i :: 0 <= i < |tokens| ==>
      tokens[i].name.None? && tokens[i].symbol.None? && tokens[i].decimals.Some? && tokens[i].balance != ""
    ensures relationships.Some? ==> forall i :: 0 <= i < |tokens| ==>
      tokens[i].balance == RelationshipBalance(relationships.value[i].relationship) &&
      tokens[i].decimals == Some(RelationshipDecimals(relationships.value[i].relationship))
  {
    match relationships
    case None => []
    case Some(entries) => seq(|entries|, i requires 0 <= i < |entries| => TokenBalanceOf(entries[i]))
  }

  /** Distinct relationship keys give distinct token ids: a token is listed at most once. */
  lemma TokenIdsUnique(entries: seq<RelationshipEntry>)
    requires forall i, j :: 0 <= i < j < |entries| ==> entries[i].tokenId != entries[j].tokenId
    ensures var tokens := TokensOf(Some(entries));
      forall i, j :: 0 <= i < j < |tokens| ==> tokens[i].tokenId != tokens[j].tokenId
  {
  }

  // ---------------------------------------------------------------------
  // Building transactions
  // ---------------------------------------------------------------------

  function NetAmount(legs: seq<TransferLeg>): int {
    if legs == [] then 0 else legs[0].amount + NetAmount(legs[1..])
  }

  /** The two legs of a transfer: the sender is debited what the recipient is credited. */
  function TransferLegs(sender: string, recipient: string, amount: int): (legs: seq<TransferLeg>)
    ensures |legs| == 2
    ensures legs[0].accountId == sender && legs[1].accountId == recipient
    ensures legs[1].amount == amount && legs[0].amount == -legs[1].amount
    ensures NetAmount(legs) == 0
  {
    var legs := [TransferLeg(sender, -amount), TransferLeg(recipient, amount)];
    assert NetAmount(legs[1..]) == amount by {
      assert legs[1..][1..] == [];
    }
    legs
  }

  /** An HBAR transfer debiting the session account and crediting the recipient by the same amount. */
  function SendHbarTransaction(account: HederaAccount, recipientId: string, tinybars: int): (tx: Transaction)
    ensures tx.HbarTransfer? && |tx.hbarLegs| == 2 && NetAmount(tx.hbarLegs) == 0
    ensures tx.hbarLegs[0] == TransferLeg(account.accountId, -tinybars)
    ensures tx.hbarLegs[1] == TransferLeg(recipientId, tinybars)
  {
    HbarTransfer(TransferLegs(account.accountId, recipientId, tinybars))
  }

  /** Decimals 0, the session account as treasury, the session key as admin and supply key. */
  function CreateTokenTransaction(account: HederaAccount, name: string, symbol: string, supply: int): (tx: Transaction)
    ensures tx.TokenCreate? && tx.name == name && tx.symbol == symbol && tx.initialSupply == supply
    ensures tx.decimals == 0 && tx.treasuryAccountId == account.accountId
    ensures tx.adminKey == account.privateKey && tx.supplyKey == account.privateKey
  {
    TokenCreate(name, symbol, 0, supply, account.accountId, account.privateKey, account.privateKey)
  }

  /** Associates exactly the one token with the session account. */
  function AssociateTokenTransaction(account: HederaAccount, tokenId: string): (tx: Transaction)
    ensures tx.TokenAssociate? && tx.accountId == account.accountId && tx.tokenIds == [tokenId]
  {
    TokenAssociate(account.accountId, [tokenId])
  }

  /** A transfer of one token debiting the session account and crediting the recipient by the same amount. */
  function SendTokenTransaction(account: HederaAccount, recipientId: string, tokenId: string, amount: int): (tx: Transaction)
    ensures tx.TokenTransfer? && tx.tokenId == tokenId && |tx.tokenLegs| == 2 && NetAmount(tx.tokenLegs) == 0
    ensures tx.tokenLegs[0] == TransferLeg(account.accountId, -amount)
    ensures tx.tokenLegs[1] == TransferLeg(recipientId, amount)
  {
    TokenTransfer(tokenId, TransferLegs(account.accountId, recipientId, amount))
  }

  /** A private topic restricts submission to the session key. */
  function CreateTopicTransaction(account: HederaAccount, memo: string, isPrivate: bool): (tx: Transaction)
    ensures tx.TopicCreate? && tx.memo == memo
    ensures tx.submitKey.Some? <==> isPrivate
    ensures isPrivate ==> tx.submitKey == Some(account.privateKey)
  {
    TopicCreate(memo, if isPrivate then Some(account.privateKey) else None)
  }

  function SendTopicMessageTransaction(topicId: string, message: string): (tx: Transaction)
    ensures tx.TopicMessageSubmit? && tx.topicId == topicId && tx.message == message
  {
    TopicMessageSubmit(topicId, message)
  }

  // ---------------------------------------------------------------------
  // Classifying the outcome
  // ---------------------------------------------------------------------

  datatype Operation =
    | SendHbarOp | CreateTokenOp | AssociateTokenOp | SendTokenOp | CreateTopicOp | SendTopicMessageOp
  {
    function SuccessText(): string {
      match this
      case SendHbarOp => "HBAR sent successfully"
      case CreateTokenOp => "Token created successfully"
      case AssociateTokenOp => "Token associated successfully"
      case SendTokenOp => "Token sent successfully"
      case CreateTopicOp => "Topic created successfully"
      case SendTopicMessageOp => "Message sent successfully"
    }

    function FailureText(): string {
      match this
      case SendHbarOp => "Transaction failed"
      case CreateTokenOp => "Token creation failed"
      case AssociateTokenOp => "Token association failed"
      case SendTokenOp => "Token transfer failed"
      case CreateTopicOp => "Topic creation failed"
      case SendTopicMessageOp => "Message sending failed"
    }

    /** The message used when the thrown value is not an `Error`. */
    function FallbackErrorText(): string {
      match this
      case SendHbarOp => "Failed to send HBAR"
      case CreateTokenOp => "Failed to create token"
      case AssociateTokenOp => "Failed to associate token"
      case SendTokenOp => "Failed to send token"
      case CreateTopicOp => "Failed to create topic"
      case SendTopicMessageOp => "Failed to send message"
    }

    /** The HBAR and token operations refresh the account once the receipt is in; the topic operations do not. */
    predicate RefreshesAccount() {
      !(CreateTopicOp? || SendTopicMessageOp?)
    }
  }

  /**
   * The result record of one submission: success exactly when the receipt
   * status is "SUCCESS"; a throw anywhere in the pipeline becomes a failed
   * result with an empty transaction id.
   */
  function Classify(op: Operation, sub: Submission): (r: TransactionResult)
    ensures r.success <==> sub.Executed? && sub.receipt.status == SuccessStatus
    ensures sub.Executed? ==>
      r.transactionId == sub.transactionId && r.receipt == Some(sub.receipt) &&
      r.message == (if r.success then op.SuccessText() else op.FailureText())
    ensures sub.Failed? ==>
      r.transactionId == "" && r.receipt.None? && r.message == sub.thrown.MessageOr(op.FallbackErrorText())
  {
    match sub
    case Executed(id, receipt) =>
      var ok := receipt.status == SuccessStatus;
      TransactionResult(ok, id, if ok then op.SuccessText() else op.FailureText(), Some(receipt))
    case Failed(thrown) =>
      TransactionResult(false, "", thrown.MessageOr(op.FallbackErrorText()), None)
  }

  /** For an executed transaction the message alone tells success from failure. */
  lemma ExecutedMessageTellsOutcome(op: Operation, sub: Submission)
    requires sub.Executed?
    ensures Classify(op, sub).message == op.SuccessText() <==> Classify(op, sub).success
  {
  }

  /** The token creation record: the classification, and the receipt's token id when the transaction executed. */
  function TokenCreationOf(sub: Submission): (r: TokenCreationResult)
    ensures r.result == Classify(CreateTokenOp, sub)
    ensures sub.Executed? ==> r.tokenId == sub.receipt.tokenId
    ensures sub.Failed? ==> r.tokenId.None?
  {
    TokenCreationResult(Classify(CreateTokenOp, sub), if sub.Executed? then sub.receipt.tokenId else None)
  }

  /** The topic creation record: the classification, and the receipt's topic id when the transaction executed. */
  function TopicCreationOf(sub: Submission): (r: TopicCreationResult)
    ensures r.result == Classify(CreateTopicOp, sub)
    ensures sub.Executed? ==> r.topicId == sub.receipt.topicId
    ensures sub.Failed? ==> r.topicId.None?
  {
    TopicCreationResult(Classify(CreateTopicOp, sub), if sub.Executed? then sub.receipt.topicId else None)
  }

  /** The message submission record: the classification, and the receipt's sequence number when the transaction executed. */
  function TopicMessageOf(sub: Submission): (r: TopicMessageResult)
    ensures r.result == Classify(SendTopicMessageOp, sub)
    ensures sub.Executed? ==> r.sequenceNumber == sub.receipt.topicSequenceNumber
    ensures sub.Failed? ==> r.sequenceNumber.None?
  {
    TopicMessageResult(Classify(SendTopicMessageOp, sub),
                       if sub.Executed? then sub.receipt.topicSequenceNumber else None)
  }

  // ---------------------------------------------------------------------
  // The session state machine
  // ---------------------------------------------------------------------

  /** What the storage holds under a key: a serialised session record, or text that does not parse. */
  datatype StoredItem = Serialized(account: HederaAccount) | Unparseable(text: string)

  /** The hook's state together with the storage it shares with every other hook instance. */
  datatype HookView = HookView(
    account: Option<HederaAccount>,
    client: Option<Client>,
    isLoading: bool,
    error: Option<string>,
    storage: map<string, StoredItem>)

  datatype ConnectOutcome = ConnectOutcome(connected: bool, view: HookView)

  function InitialView(storage: map<string, StoredItem>): HookView {
    HookView(None, None, false, None, storage)
  }

  function ClientFor(accountId: string, privateKey: string): Client {
    Client(accountId, privateKey)
  }

  /** The session record that loading the storage would parse, if any. */
  function StoredSession(storage: map<string, StoredItem>): Option<HederaAccount> {
    if StorageKey in storage && storage[StorageKey].Serialized? then Some(storage[StorageKey].account) else None
  }

  /** `saveAccount`: the account and the persisted record become `a`; nothing else changes. */
  function AfterSave(v: HookView, a: HederaAccount): (w: HookView)
    ensures w.account == Some(a) && StoredSession(w.storage) == Some(a)
    ensures w.client == v.client && w.isLoading == v.isLoading && w.error == v.error
    ensures w.storage - {StorageKey} == v.storage - {StorageKey}
  {
    v.(account := Some(a), storage := v.storage[StorageKey := Serialized(a)])
  }

  /** `clearAccount`: no account, no client, no error, no persisted record; other keys untouched. */
  function AfterClear(v: HookView): (w: HookView)
    ensures w.account.None? && w.client.None? && w.error.None?
    ensures StorageKey !in w.storage && w.storage - {StorageKey} == v.storage - {StorageKey}
    ensures w.isLoading == v.isLoading
  {
    v.(account := None, client := None, storage := v.storage - {StorageKey}, error := None)
  }

  /**
   * The mount-time load. A record that parses becomes the account, and a
   * client is built from its credentials; when the SDK rejects them the
   * record is removed, but the account has already been set. Text that does
   * not parse is removed. An absent or empty entry changes nothing.
   * `accepts` tells whether the SDK parses an account id and a key; it
   * depends on those two strings alone.
   */
  function AfterLoad(v: HookView, accepts: (string, string) -> bool): (w: HookView)
    ensures StoredSession(v.storage).Some? ==>
      var a := StoredSession(v.storage).value;
      w.account == Some(a) &&
      (accepts(a.accountId, a.privateKey) ==>
        w.client == Some(ClientFor(a.accountId, a.privateKey)) && w.storage == v.storage) &&
      (!accepts(a.accountId, a.privateKey) ==> w.client == v.client && w.storage == v.storage - {StorageKey})
    ensures StorageKey in v.storage && v.storage[StorageKey].Unparseable? && v.storage[StorageKey].text != "" ==>
      w == v.(storage := v.storage - {StorageKey})
    ensures StorageKey !in v.storage || v.storage[StorageKey] == Unparseable("") ==> w == v
    ensures w.isLoading == v.isLoading && w.error == v.error
    ensures w.storage - {StorageKey} == v.storage - {StorageKey}
  {
    if StorageKey !in v.storage then v
    else
      match v.storage[StorageKey]
      case Unparseable(text) =>
        if text == "" then v else v.(storage := v.storage - {StorageKey})
      case Serialized(a) =>
        if accepts(a.accountId, a.privateKey) then v.(account := Some(a), client := Some(ClientFor(a.accountId, a.privateKey)))
        else v.(account := Some(a), storage := v.storage - {StorageKey})
  }

  /**
   * `refreshAccountInfo`. Without an account or a client nothing happens
   * (the loading flag included). Otherwise the loading flag ends false; a
   * successful query replaces the balance and the tokens and keeps the
   * credentials, and a failed one keeps the account and records the error.
   */
  function AfterRefresh(v: HookView, answer: AccountQuery): (w: HookView)
    ensures v.account.None? || v.client.None? ==> w == v
    ensures v.account.Some? && v.client.Some? ==>
      !w.isLoading && w.client == v.client && w.account.Some? &&
      w.account.value.accountId == v.account.value.accountId &&
      w.account.value.privateKey == v.account.value.privateKey
    ensures v.account.Some? && v.client.Some? && answer.Answered? ==>
      w.account.value.balance == answer.hbars &&
      w.account.value.tokens == TokensOf(answer.tokenRelationships) &&
      StoredSession(w.storage) == w.account && w.error == v.error
    ensures v.account.Some? && v.client.Some? && answer.QueryFailed? ==>
      w.account == v.account && w.storage == v.storage &&
      w.error == Some(answer.thrown.MessageOr(RefreshFallback))
    ensures w.storage - {StorageKey} == v.storage - {StorageKey}
  {
    if v.account.None? || v.client.None? then v
    else
      match answer
      case QueryFailed(thrown) =>
        v.(isLoading := false, error := Some(thrown.MessageOr(RefreshFallback)))
      case Answered(hbars, relationships) =>
        var updated := v.account.value.(balance := hbars, tokens := TokensOf(relationships));
        AfterSave(v, updated).(isLoading := false)
  }

  /**
   * `connectAccount`. It connects exactly when the SDK accepts the
   * credentials and both account queries answer; then the account and the
   * persisted record are the fresh snapshot and the client is the one built
   * from the credentials. Otherwise the account and the record are kept and
   * the error is set; a client built before a failing query stays installed.
   */
  function AfterConnect(v: HookView, accountId: string, privateKey: string,
                        accepts: (string, string) -> bool, answer: AccountQuery): (r: ConnectOutcome)
    ensures r.connected <==> accepts(accountId, privateKey) && answer.Answered?
    ensures !r.view.isLoading
    ensures r.connected ==>
      var snapshot := HederaAccount(accountId, privateKey, answer.hbars, TokensOf(answer.tokenRelationships));
      r.view.account == Some(snapshot) && StoredSession(r.view.storage) == Some(snapshot) &&
      r.view.client == Some(ClientFor(accountId, privateKey)) && r.view.error.None?
    ensures !r.connected ==>
      r.view.account == v.account && r.view.storage == v.storage && r.view.error.Some? &&
      r.view.client == (if accepts(accountId, privateKey) then Some(ClientFor(accountId, privateKey)) else v.client)
    ensures !accepts(accountId, privateKey) ==> r.view.error == Some(InvalidCredentials)
    ensures accepts(accountId, privateKey) && answer.QueryFailed? ==>
      r.view.error == Some(answer.thrown.MessageOr(ConnectFallback))
    ensures r.view.storage - {StorageKey} == v.storage - {StorageKey}
  {
    var started := v.(isLoading := true, error := None);
    if !accepts(accountId, privateKey) then
      ConnectOutcome(false, started.(error := Some(InvalidCredentials), isLoading := false))
    else
      var withClient := started.(client := Some(ClientFor(accountId, privateKey)));
      match answer
      case QueryFailed(thrown) =>
        ConnectOutcome(false, withClient.(error := Some(thrown.MessageOr(ConnectFallback)), isLoading := false))
      case Answered(hbars, relationships) =>
        var snapshot := HederaAccount(accountId, privateKey, hbars, TokensOf(relationships));
        ConnectOutcome(true, AfterSave(withClient, snapshot).(isLoading := false))
  }

  /**
   * The state after an operation's receipt. The topic operations and a
   * submission that threw leave the state as it was; the HBAR and token
   * operations refresh the account once they executed, whatever the
   * receipt's status. Either way the client, the credentials and every
   * other storage key are kept.
   */
  function AfterReceipt(v: HookView, op: Operation, sub: Submission, refresh: AccountQuery): (w: HookView)
    ensures !op.RefreshesAccount() ==> w == v
    ensures sub.Failed? ==> w == v
    ensures op.RefreshesAccount() && sub.Executed? ==> w == AfterRefresh(v, refresh)
    ensures w.client == v.client && w.storage - {StorageKey} == v.storage - {StorageKey}
    ensures w.account.Some? <==> v.account.Some?
    ensures w.account.Some? ==>
      w.account.value.accountId == v.account.value.accountId &&
      w.account.value.privateKey == v.account.value.privateKey
  {
    if op.RefreshesAccount() && sub.Executed? then AfterRefresh(v, refresh) else v
  }

  /** The post-receipt refresh does not depend on the receipt's status. */
  lemma RefreshIgnoresStatus(v: HookView, op: Operation, id: string, r1: Receipt, r2: Receipt, refresh: AccountQuery)
    ensures AfterReceipt(v, op, Executed(id, r1), refresh) == AfterReceipt(v, op, Executed(id, r2), refresh)
  {
  }

  /**
   * A saved session is what the next mount loads; it reloads with a client
   * for its credentials exactly when the SDK accepts them.
   */
  lemma SaveThenLoad(v: HookView, a: HederaAccount, accepts: (string, string) -> bool)
    ensures var saved := AfterSave(v, a).storage;
      var reloaded := AfterLoad(InitialView(saved), accepts);
      reloaded.account == Some(a) &&
      (accepts(a.accountId, a.privateKey) ==>
        reloaded.client == Some(ClientFor(a.accountId, a.privateKey)) && reloaded.storage == saved) &&
      (!accepts(a.accountId, a.privateKey) ==> reloaded.client.None? && StorageKey !in reloaded.storage)
  {
  }

  /** The record a successful connect stores reloads, on the next mount, with the client of the connection. */
  lemma ConnectThenLoad(v: HookView, accountId: string, privateKey: string,
                        accepts: (string, string) -> bool, answer: AccountQuery)
    requires AfterConnect(v, accountId, privateKey, accepts, answer).connected
    ensures var connected := AfterConnect(v, accountId, privateKey, accepts, answer).view;
      var reloaded := AfterLoad(InitialView(connected.storage), accepts);
      reloaded.account == connected.account && reloaded.client == connected.client &&
      reloaded.client == Some(ClientFor(accountId, privateKey))
  {
  }

  /** Clearing twice is clearing once. */
  lemma ClearIsIdempotent(v: HookView)
    ensures AfterClear(AfterClear(v)) == AfterClear(v)
  {
  }

  /** After a clear, the next mount finds no session. */
  lemma ClearThenLoadFindsNoSession(v: HookView, accepts: (string, string) -> bool)
    ensures var reloaded := AfterLoad(InitialView(AfterClear(v).storage), accepts);
      reloaded.account.None? && reloaded.client.None?
  {
  }

  /** A refresh keeps the credentials and installs the persisted record as the account. */
  lemma RefreshThenLoad(v: HookView, hbars: string, relationships: Option<seq<RelationshipEntry>>,
                        accepts: (string, string) -> bool)
    requires v.account.Some? && v.client.Some?
    ensures var w := AfterRefresh(v, Answered(hbars, relationships));
      AfterLoad(InitialView(w.storage), accepts).account == w.account
  {
  }

  // ---------------------------------------------------------------------
  // The hook as an object
  // ---------------------------------------------------------------------

  /** The browser's local storage, shared by every hook instance. */
  class LocalStorage {
    var items: map<string, StoredItem>

    constructor (items: map<string, StoredItem>)
      ensures this.items == items
    {
      this.items := items;
    }
  }

  class WalletSession {
    var account: Option<HederaAccount>
    var client: Option<Client>
    var isLoading: bool
    var error: Option<string>
    const storage: LocalStorage

    /** The hook's initial state, before its mount effect runs. */
    constructor (storage: LocalStorage)
      ensures this.storage == storage
      ensures View() == InitialView(storage.items)
    {
      account, client, isLoading, error := None, None, false, None;
      this.storage := storage;
    }

    function View(): HookView
      reads this, storage
    {
      HookView(account, client, isLoading, error, storage.items)
    }

    /** The guard of every mutating operation. */
    predicate HasSession()
      reads this
    {
      client.Some? && account.Some?
    }

    /** The mount effect. `accepts`: whether the SDK parses an account id and a key. */
    method LoadStoredAccount(accepts: (string, string) -> bool)
      modifies this, storage
      ensures View() == AfterLoad(old(View()), accepts)
    {
      if StorageKey in storage.items {
        match storage.items[StorageKey]
        case Unparseable(text) =>
          if text != "" {
            storage.items := storage.items - {StorageKey};
          }
        case Serialized(a) =>
          account := Some(a);
          if accepts(a.accountId, a.privateKey) {
            client := Some(ClientFor(a.accountId, a.privateKey));
          } else {
            storage.items := storage.items - {StorageKey};
          }
      }
    }

    method SaveAccount(a: HederaAccount)
      modifies this, storage
      ensures View() == AfterSave(old(View()), a)
    {
      account := Some(a);
      storage.items := storage.items[StorageKey := Serialized(a)];
    }

    method ClearAccount()
      modifies this, storage
      ensures View() == AfterClear(old(View()))
    {
      account := None;
      client := None;
      storage.items := storage.items - {StorageKey};
      error := None;
    }

    /** `accepts`: whether the SDK parses an account id and a key; `answer`: the two account queries. */
    method ConnectAccount(accountId: string, privateKey: string, accepts: (string, string) -> bool, answer: AccountQuery)
      returns (connected: bool)
      modifies this, storage
      ensures ConnectOutcome(connected, View()) == AfterConnect(old(View()), accountId, privateKey, accepts, answer)
    {
      isLoading := true;
      error := None;
      if !accepts(accountId, privateKey) {
        error := Some(InvalidCredentials);
        isLoading := false;
        return false;
      }
      var newClient := ClientFor(accountId, privateKey);
      client := Some(newClient);
      match answer
      case QueryFailed(thrown) =>
        error := Some(thrown.MessageOr(ConnectFallback));
        isLoading := false;
        connected := false;
      case Answered(hbars, relationships) =>
        SaveAccount(HederaAccount(accountId, privateKey, hbars, TokensOf(relationships)));
        client := Some(newClient);
        isLoading := false;
        connected := true;
    }

    method RefreshAccountInfo(answer: AccountQuery)
      modifies this, storage
      ensures View() == AfterRefresh(old(View()), answer)
    {
      if account.None? || client.None? {
        return;
      }
      isLoading := true;
      match answer {
        case QueryFailed(thrown) =>
          error := Some(thrown.MessageOr(RefreshFallback));
        case Answered(hbars, relationships) =>
          SaveAccount(account.value.(balance := hbars, tokens := TokensOf(relationships)));
      }
      isLoading := false;
    }

    /** `tinybars`: the amount already converted to the HBAR sub-unit. */
    method SendHbar(recipientId: string, tinybars: int, network: Transaction -> Submission, refresh: AccountQuery)
      returns (r: Result<TransactionResult>)
      modifies this, storage
      ensures !old(HasSession()) ==> r == Threw(NotInitialized) && View() == old(View())
      ensures old(HasSession()) ==>
        var sub := network(SendHbarTransaction(old(account).value, recipientId, tinybars));
        r == Returned(Classify(SendHbarOp, sub)) && View() == AfterReceipt(old(View()), SendHbarOp, sub, refresh)
    {
      if client.None? || account.None? {
        return Threw(NotInitialized);
      }
      var sub := network(SendHbarTransaction(account.value, recipientId, tinybars));
      if sub.Executed? {
        RefreshAccountInfo(refresh);
      }
      r := Returned(Classify(SendHbarOp, sub));
    }

    /** `supply`: the initial supply already parsed to an integer. */
    method CreateToken(name: string, symbol: string, supply: int, network: Transaction -> Submission, refresh: AccountQuery)
      returns (r: Result<TokenCreationResult>)
      modifies this, storage
      ensures !old(HasSession()) ==> r == Threw(NotInitialized) && View() == old(View())
      ensures old(HasSession()) ==>
        var sub := network(CreateTokenTransaction(old(account).value, name, symbol, supply));
        r == Returned(TokenCreationOf(sub)) && View() == AfterReceipt(old(View()), CreateTokenOp, sub, refresh)
    {
      if client.None? || account.None? {
        return Threw(NotInitialized);
      }
      var sub := network(CreateTokenTransaction(account.value, name, symbol, supply));
      if sub.Executed? {
        RefreshAccountInfo(refresh);
      }
      r := Returned(TokenCreationOf(sub));
    }

    method AssociateToken(tokenId: string, network: Transaction -> Submission, refresh: AccountQuery)
      returns (r: Result<TransactionResult>)
      modifies this, storage
      ensures !old(HasSession()) ==> r == Threw(NotInitialized) && View() == old(View())
      ensures old(HasSession()) ==>
        var sub := network(AssociateTokenTransaction(old(account).value, tokenId));
        r == Returned(Classify(AssociateTokenOp, sub)) && View() == AfterReceipt(old(View()), AssociateTokenOp, sub, refresh)
    {
      if client.None? || account.None? {
        return Threw(NotInitialized);
      }
      var sub := network(AssociateTokenTransaction(account.value, tokenId));
      if sub.Executed? {
        RefreshAccountInfo(refresh);
      }
      r := Returned(Classify(AssociateTokenOp, sub));
    }

    /** `amount`: the token amount already parsed to an integer. */
    method SendToken(recipientId: string, tokenId: string, amount: int, network: Transaction -> Submission, refresh: AccountQuery)
      returns (r: Result<TransactionResult>)
      modifies this, storage
      ensures !old(HasSession()) ==> r == Threw(NotInitialized) && View() == old(View())
      ensures old(HasSession()) ==>
        var sub := network(SendTokenTransaction(old(account).value, recipientId, tokenId, amount));
        r == Returned(Classify(SendTokenOp, sub)) && View() == AfterReceipt(old(View()), SendTokenOp, sub, refresh)
    {
      if client.None? || account.None? {
        return Threw(NotInitialized);
      }
      var sub := network(SendTokenTransaction(account.value, recipientId, tokenId, amount));
      if sub.Executed? {
        RefreshAccountInfo(refresh);
      }
      r := Returned(Classify(SendTokenOp, sub));
    }

    /** Changes no state: there is no refresh after a topic creation. */
    method CreateTopic(memo: string, isPrivate: bool, network: Transaction -> Submission)
      returns (r: Result<TopicCreationResult>)
      ensures !HasSession() ==> r == Threw(NotInitialized)
      ensures HasSession() ==>
        r == Returned(TopicCreationOf(network(CreateTopicTransaction(account.value, memo, isPrivate))))
    {
      if client.None? || account.None? {
        return Threw(NotInitialized);
      }
      var sub := network(CreateTopicTransaction(account.value, memo, isPrivate));
      r := Returned(TopicCreationOf(sub));
    }

    /** Changes no state: there is no refresh after a message submission. */
    method SendTopicMessage(topicId: string, message: string, network: Transaction -> Submission)
      returns (r: Result<TopicMessageResult>)
      ensures !HasSession() ==> r == Threw(NotInitialized)
      ensures HasSession() ==>
        r == Returned(TopicMessageOf(network(SendTopicMessageTransaction(topicId, message))))
    {
      if client.None? || account.None? {
        return Threw(NotInitialized);
      }
      var sub := network(SendTopicMessageTransaction(topicId, message));
      r := Returned(TopicMessageOf(sub));
    }
  }
}
