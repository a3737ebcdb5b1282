# Hedera wallet: session hook and topic-message log

This project models the two pieces of logic in a small Hedera testnet wallet web app. The rest of the app is presentation around them.

- **The wallet-session hook**, `useHederaAccount`. It holds a session made of an account snapshot, an SDK client, a loading flag and the last error. One session record is persisted in local storage under the key `hedera_account`. Five session operations drive this state: connect, save, clear, the load on mount and refresh.
- **Six mutating operations**: send HBAR, create token, associate token, send token, create topic and send topic message. Each one guards on the session, builds a transaction and submits it. It then classifies the receipt by its status string and turns any exception into a failure record.
- **The topic-message panel**, `MessageManager`. It keeps a log of consensus messages for one topic:
  - a backfill fetch collects the topic's history for a fixed window, then replaces the log with the collection sorted by sequence number;
  - a live subscription appends every message and re-sorts the log;
  - the send form, the subscribe button and the automatic fetch are guarded on a topic id and a client.

Every call into the Hedera SDK is an oracle:
- a submitted transaction becomes the parameter `network: Transaction -> Submission`, which yields either an executed transaction with its receipt or a thrown value;
- an account query yields an answer or a failure;
- client construction is a function `accepts(accountId, privateKey)` telling whether the SDK parses the pair, so the same credentials get the same answer on every call;
- a query subscription yields whether subscribing throws.

Messages that are delivered and timers that expire are methods the environment calls, one sequential step each.

Files:
- `wrappers.dfy`: `Option` and `Result`. A `Result` models an async function whose promise resolves or rejects.
- `hedera_sdk.dfy`: the oracle boundary, covering clients, thrown values, receipts, transactions, submissions and account-query answers.
- `hedera_types.dfy`: the app's records: `HederaAccount`, `TokenBalance`, `TransactionResult` and its three extensions, and `TopicMessage`.
- `topic_log.dfy`: the sort by sequence number and the live update, with their lemmas. JavaScript's `Array.prototype.sort` is stable, so the sort is a stable insertion sort. It is proved sorted, a permutation and stable, and it is characterised as the one sorted arrangement that keeps each sequence number's arrival order.
- `hedera_account_hook.dfy`: the hook. It has two layers:
  - pure transitions over a `HookView` snapshot (`AfterSave`, `AfterClear`, `AfterLoad`, `AfterRefresh`, `AfterConnect`, `AfterReceipt`), which carry the properties;
  - the class `WalletSession` with `LocalStorage`, whose methods are proved to take the state to exactly those transitions.
- `message_manager.dfy`: the class `MessageManager` over a `ManagerView` snapshot. Each backfill fetch that has not finished keeps its own buffer in `openFetches`. The buffers form a queue, because every fetch waits the same 3000 ms window. Live subscriptions are recorded in `liveTopics`, and none is ever cancelled.

Four behaviours of the code that are easy to overlook, all modelled as written:
- The log is not deduplicated: a message whose sequence number is already in the log is kept beside the earlier entry (`TopicLog.DuplicateDeliveryIsKept`).
- `refreshAccountInfo` returns before touching `isLoading` when there is no account or no client, so the flag ends false on every path except that early return.
- `connectAccount` installs the new client inside `initializeClient`, before the account queries run: a query that then fails leaves that client installed, while `account` and the stored record stay unchanged.
- On mount, `setAccount` runs before `initializeClient`: a stored record whose credentials the SDK rejects still becomes the account, while the record itself is removed from storage.

## Model

| member | source | states |
|---|---|---|
| TopicLog.SortBySequenceNumber | src/components/wallet/MessageManager.tsx:85 | the sort keeps the log's length; its order, contents and stability are stated by the three lemmas below |
| TopicLog.InsertBySequenceNumber | src/components/wallet/MessageManager.tsx:117 | one ordered insertion grows the log by exactly one; order, contents and stability are stated by the Insert lemmas |
| TopicLog.SortIsSorted | src/components/wallet/MessageManager.tsx:85 | the log a fetch installs is in non-decreasing sequence-number order |
| TopicLog.SortIsPermutation | src/components/wallet/MessageManager.tsx:85 | the installed log holds exactly the collected messages, as a multiset |
| TopicLog.SortIsStable | src/components/wallet/MessageManager.tsx:85 | messages sharing a sequence number keep their arrival order (the sort is stable) |
| TopicLog.SortCharacterisation | src/components/wallet/MessageManager.tsx:85 | a log is the sort of the collection iff it is sorted and agrees with the collection on every sequence number's subsequence |
| TopicLog.SortedLogsAgreeingPerNumberAreEqual | src/components/wallet/MessageManager.tsx:85 | two sorted logs with the same per-sequence-number subsequences are equal |
| TopicLog.SortOfSortedIsIdentity | src/components/wallet/MessageManager.tsx:85 | sorting an already sorted log leaves it unchanged |
| TopicLog.SortIsIdempotent | src/components/wallet/MessageManager.tsx:85 | sorting twice is sorting once |
| TopicLog.ArrivalOrderIrrelevantForDistinctNumbers | src/components/wallet/MessageManager.tsx:72-85 | when sequence numbers are distinct, the log after a fetch depends only on which messages arrived, not on their order |
| TopicLog.OutOfOrderArrivalsAreOrdered | src/components/wallet/MessageManager.tsx:72-85 | arrivals numbered 3, 1, 2 give the log 1, 2, 3 |
| TopicLog.InsertKeepsSorted | src/components/wallet/MessageManager.tsx:117 | inserting one message into a sorted log keeps it sorted |
| TopicLog.InsertIsPermutation | src/components/wallet/MessageManager.tsx:117 | inserting adds exactly the one message |
| TopicLog.InsertIsStable | src/components/wallet/MessageManager.tsx:117 | an inserted message comes after every earlier message with its sequence number |
| TopicLog.LiveUpdate | src/components/wallet/MessageManager.tsx:117 | a live message grows the log by exactly one, keeps every earlier entry (multiset plus the new message), leaves it sorted, puts the new message last among its sequence number and leaves every other number's entries untouched |
| TopicLog.LiveUpdateOfSortedLogInserts | src/components/wallet/MessageManager.tsx:117 | on a sorted log, appending and re-sorting equals a single ordered insertion |
| TopicLog.DuplicateDeliveryIsKept | src/components/wallet/MessageManager.tsx:117 | a live message whose sequence number is already in the log is kept beside the earlier entry: that number then has at least two entries |
| HederaAccountHook.RelationshipBalance | src/hooks/useHederaAccount.ts:79 | a missing relationship, a missing balance or an empty balance text gives "0"; otherwise the balance text; never empty |
| HederaAccountHook.RelationshipDecimals | src/hooks/useHederaAccount.ts:82 | missing decimals give 0 |
| HederaAccountHook.TokenBalanceOf | src/hooks/useHederaAccount.ts:77-83 | one entry's balance: the entry's token id, no name or symbol, the defaulted balance and the defaulted decimals |
| HederaAccountHook.TokensOf | src/hooks/useHederaAccount.ts:76-83 | no relationships give the empty list; otherwise one balance per entry, in entry order, with the entry's token id, defaulted balance and decimals, no name and no symbol |
| HederaAccountHook.TokenIdsUnique | src/hooks/useHederaAccount.ts:76-77 | distinct relationship keys give a token list without repeated ids |
| HederaAccountHook.TransferLegs | src/hooks/useHederaAccount.ts:165-167 | exactly two legs: the sender is debited -x and the recipient credited +x, netting to zero (the token transfer at 264-266 uses the same legs) |
| HederaAccountHook.SendHbarTransaction | src/hooks/useHederaAccount.ts:165-168 | an HBAR transfer of two legs: the session account at -x, the recipient at +x, netting to zero |
| HederaAccountHook.CreateTokenTransaction | src/hooks/useHederaAccount.ts:196-204 | a token with the given name, symbol and supply, 0 decimals, the session account as treasury and the session key as admin and supply key |
| HederaAccountHook.AssociateTokenTransaction | src/hooks/useHederaAccount.ts:233-236 | associates exactly the one token with the session account |
| HederaAccountHook.SendTokenTransaction | src/hooks/useHederaAccount.ts:264-267 | a transfer of the given token in two legs: the session account at -x, the recipient at +x, netting to zero |
| HederaAccountHook.CreateTopicTransaction | src/hooks/useHederaAccount.ts:295-302 | a topic with the given memo; it has a submit key exactly when private, and that key is the session key |
| HederaAccountHook.SendTopicMessageTransaction | src/hooks/useHederaAccount.ts:329-332 | a submission of exactly the given message to the given topic |
| HederaAccountHook.Classify | src/hooks/useHederaAccount.ts:175-187 | success exactly when the receipt status is "SUCCESS"; the message is then the operation's success text, else its failure text; a throw gives success false, an empty transaction id, no receipt and the error's message or the operation's fallback |
| HederaAccountHook.ExecutedMessageTellsOutcome | src/hooks/useHederaAccount.ts:175-180 | for an executed transaction, the message equals the success text iff the result is a success |
| HederaAccountHook.TokenCreationOf | src/hooks/useHederaAccount.ts:211-217 | the classification of the submission, with the receipt's token id when it executed and none when it threw |
| HederaAccountHook.TopicCreationOf | src/hooks/useHederaAccount.ts:307-313 | the classification, with the receipt's topic id when it executed and none when it threw |
| HederaAccountHook.TopicMessageOf | src/hooks/useHederaAccount.ts:337-343 | the classification, with the receipt's sequence number when it executed and none when it threw |
| HederaAccountHook.AfterSave | src/hooks/useHederaAccount.ts:100-103 | the account and the persisted record both become the saved account; flags, client and other keys unchanged |
| HederaAccountHook.AfterClear | src/hooks/useHederaAccount.ts:105-110 | no account, no client, no error, the key removed, other keys and the loading flag unchanged |
| HederaAccountHook.AfterLoad | src/hooks/useHederaAccount.ts:27-41 | a parseable record becomes the account and, when the SDK accepts its id and key, the client for them; rejected credentials remove the record; unparseable non-empty text is removed; an absent or empty entry changes nothing; other keys, the loading flag and the error are kept |
| HederaAccountHook.AfterRefresh | src/hooks/useHederaAccount.ts:58-98 | a no-op without account or client; otherwise loading ends false and id, key and client are kept; success replaces only balance and tokens and persists them; failure keeps account and storage and sets the error; other storage keys are never touched |
| HederaAccountHook.AfterConnect | src/hooks/useHederaAccount.ts:112-156 | connects iff the credentials are accepted and both queries answer; on success account and record equal the fresh snapshot and the client is built from the credentials; on failure account and record are unchanged and the error is set ("Invalid credentials" or the query's message); loading ends false |
| HederaAccountHook.AfterReceipt | src/hooks/useHederaAccount.ts:170-173 | the topic operations and a throw leave the state unchanged; the HBAR and token operations refresh after an executed submission, whatever the status; client, credentials and other storage keys are always kept |
| HederaAccountHook.RefreshIgnoresStatus | src/hooks/useHederaAccount.ts:170-173 | the post-receipt refresh does not depend on the receipt's status |
| HederaAccountHook.SaveThenLoad | src/hooks/useHederaAccount.ts:100-103 | a saved record becomes the account on the next mount, whatever the SDK answers; it comes with a client for its credentials and stays stored exactly when the SDK accepts them |
| HederaAccountHook.ConnectThenLoad | src/hooks/useHederaAccount.ts:140-148 | the record a successful connect stores reloads on the next mount as the same account with the same client |
| HederaAccountHook.ClearIsIdempotent | src/hooks/useHederaAccount.ts:105-110 | clearing twice is clearing once |
| HederaAccountHook.ClearThenLoadFindsNoSession | src/hooks/useHederaAccount.ts:105-110 | after a clear the next mount finds neither account nor client |
| HederaAccountHook.RefreshThenLoad | src/hooks/useHederaAccount.ts:85-91 | the refreshed account is the persisted record |
| HederaAccountHook.WalletSession.constructor | src/hooks/useHederaAccount.ts:21-25 | no account, no client, not loading, no error |
| HederaAccountHook.WalletSession.LoadStoredAccount | src/hooks/useHederaAccount.ts:27-41 | the state after mount is `AfterLoad` of the state before |
| HederaAccountHook.WalletSession.SaveAccount | src/hooks/useHederaAccount.ts:100-103 | the state becomes `AfterSave` |
| HederaAccountHook.WalletSession.ClearAccount | src/hooks/useHederaAccount.ts:105-110 | the state becomes `AfterClear` |
| HederaAccountHook.WalletSession.ConnectAccount | src/hooks/useHederaAccount.ts:112-156 | the returned flag and the new state are `AfterConnect` of the old state |
| HederaAccountHook.WalletSession.RefreshAccountInfo | src/hooks/useHederaAccount.ts:58-98 | the state becomes `AfterRefresh` |
| HederaAccountHook.WalletSession.SendHbar | src/hooks/useHederaAccount.ts:159-188 | without a session: throws "Client not initialized" and changes nothing; otherwise returns the classification of the submitted two-leg transfer, whatever the refresh does, and the state becomes `AfterReceipt` |
| HederaAccountHook.WalletSession.CreateToken | src/hooks/useHederaAccount.ts:190-225 | the same guard; submits a token with decimals 0, the account as treasury and the key as admin and supply key; returns the classification and the receipt's token id; refreshes after execution |
| HederaAccountHook.WalletSession.AssociateToken | src/hooks/useHederaAccount.ts:227-256 | the same guard; associates exactly the one token with the session account; classification and refresh as above |
| HederaAccountHook.WalletSession.SendToken | src/hooks/useHederaAccount.ts:258-287 | the same guard; submits equal and opposite token legs; classification and refresh as above |
| HederaAccountHook.WalletSession.CreateTopic | src/hooks/useHederaAccount.ts:289-321 | the same guard; a private topic carries the session key as submit key; returns the classification and the receipt's topic id; changes no state |
| HederaAccountHook.WalletSession.SendTopicMessage | src/hooks/useHederaAccount.ts:323-351 | the same guard; returns the classification and the receipt's sequence number; changes no state |
| MessageManagerComponent.AfterFetch | src/components/wallet/MessageManager.tsx:63-98 | without a topic id or a client nothing happens; otherwise the loading flag is true exactly when the query did not throw, and a new empty collection opens; the log, the inputs, the send flag, the subscriptions and the scheduled re-fetches are never touched by the start of a fetch |
| MessageManagerComponent.NoticeFor | src/components/wallet/MessageManager.tsx:33-57 | the "Message Sent" notice appears exactly when there was a session and the receipt said "SUCCESS"; a missing session shows "Client not initialized"; otherwise the result's message |
| MessageManagerComponent.SendFailureDescribesCause | src/components/wallet/MessageManager.tsx:45-57 | a failed send shows "Message sending failed" for an executed transaction and the thrown message, or "Failed to send message", for a throw |
| MessageManagerComponent.MessageManager.constructor | src/components/wallet/MessageManager.tsx:15-21 | empty inputs, empty log, all flags false |
| MessageManagerComponent.MessageManager.FetchMessages | src/components/wallet/MessageManager.tsx:63-98 | the state becomes `AfterFetch` |
| MessageManagerComponent.MessageManager.DeliverBackfillMessage | src/components/wallet/MessageManager.tsx:74-81 | the message is appended to that fetch's own buffer and nothing else changes |
| MessageManagerComponent.MessageManager.CollectionWindowElapsed | src/components/wallet/MessageManager.tsx:84-87 | the log is replaced by the oldest collection, sorted, a permutation of it and stable per sequence number; the loading flag is cleared |
| MessageManagerComponent.MessageManager.Backfill | src/components/wallet/MessageManager.tsx:72-87 | after one whole fetch the log is the sorted permutation of exactly the messages delivered, whatever it held before |
| MessageManagerComponent.MessageManager.SubscribeToTopic | src/components/wallet/MessageManager.tsx:100-139 | without a topic id or a client nothing happens; otherwise subscribed exactly when subscribing did not throw, and a live subscription is opened |
| MessageManagerComponent.MessageManager.DeliverLiveMessage | src/components/wallet/MessageManager.tsx:109-117 | the log becomes `LiveUpdate` of the old log: one longer, sorted, with every earlier entry kept |
| MessageManagerComponent.MessageManager.HandleSendMessage | src/components/wallet/MessageManager.tsx:23-61 | an empty topic id or message sends nothing and changes nothing; otherwise the notice is `NoticeFor` the submission, the loading flag ends false, and a success clears the message and schedules one re-fetch |
| MessageManagerComponent.MessageManager.RefetchDelayElapsed | src/components/wallet/MessageManager.tsx:44 | a scheduled re-fetch runs `AfterFetch` |
| MessageManagerComponent.MessageManager.DependenciesChanged | src/components/wallet/MessageManager.tsx:141-145 | the fetch starts exactly when there is a topic id and a client and no subscription; otherwise nothing changes |
| MessageManagerComponent.MessageManager.EditTopicId | src/components/wallet/MessageManager.tsx:164 | the topic id is replaced, and a changed value re-runs the automatic-fetch effect |
| MessageManagerComponent.MessageManager.EditMessage | src/components/wallet/MessageManager.tsx:175 | only the message input changes |
| MessageManagerComponent.BackfillThenLiveStaysSorted | src/components/wallet/MessageManager.tsx:117 | a live message after a completed fetch gives a sorted permutation of the collection plus the new message |

## Left out

- The Hedera SDK: client construction, key parsing, account queries, `freezeWith`, `execute`, `getReceipt` and `TopicMessageQuery.subscribe`. Each is replaced by an oracle parameter, as described above.
- Floating-point conversion of HBAR amounts, `parseFloat(amount) * 100000000`: `SendHbar` takes the tinybar amount as a given integer. `parseInt` of supplies and token amounts is likewise taken as given integers.
- `JSON.stringify` and `JSON.parse`: a stored item is either a serialised record or unparseable text. The only text that is falsy is the empty string, and mount skips it.
- `TextDecoder`, `Date` and ISO timestamp formatting: a `TopicMessage` is taken as delivered, already decoded.
- Timers and asynchrony. The 3000 ms collection window and the 2000 ms re-fetch delay are methods the environment calls. Callback deliveries are steps, and React's batched `setState` is collapsed into one sequential step per event.
- Stale closures. A re-fetch scheduled by a slow send reads the current topic id and client, not those captured when it was scheduled.
- A backfill subscription is never cancelled, so it can go on delivering after its window. There are two effects here:
  - after the window, the sort in place has turned its buffer into the very array the log holds, so later deliveries would also change the log;
  - the model freezes each buffer when its window elapses.
  `DeliverBackfillMessage` only reaches fetches that are still open.
- Errors that a subscription reports asynchronously through its error handler (`null` here): only a synchronous throw from subscribing is modelled.
- Toasts, apart from the send handler's notice. `console.error` calls are also left out.
- Each component calls `useHederaAccount()` itself and gets its own state over the shared local storage. This model has one `WalletSession` per panel. The session that other components drive is not part of this model.
- The presentation components (Dashboard, AccountOverview, ConnectionForm, SendHbar, TokenManager, CreateToken, AssociateToken, TopicManager), the clipboard and `window.open`.
