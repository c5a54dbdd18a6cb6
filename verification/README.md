# NFT ledger contracts of the VR Genesis Frame, in Dafny

The VR Genesis Frame mints placed 3D objects as NFTs. Its on-chain logic is four
small ink! contracts. This project models each one as a pure state machine and
proves the ledger-consistency invariant they rely on. The four contracts are:

- `SubstrateAssetHubNft` (contracts/substrate/AssetHubNFT.rs). The Asset Hub
  collection. It keeps owners, rich metadata, balances, owned-token lists,
  per-token approvals and an admin. It also has a simulated XCM send
  (`initiate_xcm_transfer`) and receive (`receive_xcm_nft`).
- `AssetHubNft` (lib.rs). The simple Asset Hub collection: owners, URIs,
  balances and owned-token lists. Only the owner may transfer.
- `UniqueNetworkNft` (contracts/UniqueNetworkNFT.rs). Owners, metadata and
  balances, with no owned-token lists. Only the owner may transfer.
- `MinimalNft` (contracts/minimal_nft/minimal_nft/lib.rs). Owners and URIs
  under a `u32` counter that falls back to id 1 on overflow.

`Ledger` (ledger.dfy) holds what these contracts share:

- the default-valued storage reads (`unwrap_or(0)`, `unwrap_or_default()`);
- the four storage updates the contracts repeat: credit, debit, push, and
  retain-then-store;
- the invariant, with lemmas showing it survives issuing a fresh id and
  reassigning an existing one. The invariant says an account's balance is the
  number of ids it owns, and its owned-token list is a duplicate-free
  enumeration of exactly those ids.

Each contract's storage is an immutable datatype of finite maps. Each message is
a pure function from the state and its arguments to `Reply(state, ret)`. The
caller and the block timestamp are explicit parameters. A refused call returns
`false` (or `0`) together with the unchanged state. The three counter-based
contracts each have a `Valid` predicate with:

- one preservation lemma per message;
- a `Step`/`Run` interpretation of message sequences;
- an inductive lemma that every state reachable from the constructor is `Valid`.

`MinimalNft` has only one message, so its `Run` folds `mint` over a sequence of
(caller, URI) pairs and there is no `Step`. Its reachable invariant is the weaker
`Sound`, because the counter falls back to 1 at `u32::MAX`. Its exact-range `Valid`
is proved only for runs of at most `u32::MAX` mints from deployment.

The contracts' unit tests are stated as lemmas.

## Model

| member | source | states |
|---|---|---|
| Ledger.Credit | contracts/substrate/AssetHubNFT.rs:197-198 | `entry(a).or_insert(0) += 1` raises `a`'s balance by one, counting a missing entry as 0, and leaves every other balance alone |
| Ledger.Debit | contracts/substrate/AssetHubNFT.rs:247-249 | the guarded `*balance -= 1` lowers `a`'s balance by one only when `a` has an entry; with no entry the map is unchanged; other balances are untouched |
| Ledger.Push | contracts/substrate/AssetHubNFT.rs:201-203 | `a`'s owned list, empty when absent, gets the id appended at the end; other lists are untouched |
| Ledger.Unlist | contracts/substrate/AssetHubNFT.rs:241-244 | `a`'s list, when present, becomes the list with the id retained out; other lists are untouched |
| Ledger.Retain | contracts/substrate/AssetHubNFT.rs:242 | retaining with the predicate `t != id` keeps exactly the elements different from the id; it is the identity when the id is absent; it keeps a list duplicate-free; on a duplicate-free list holding the id it shortens the list by exactly one |
| Ledger.RetainDropsOne | contracts/substrate/AssetHubNFT.rs:242 | on a duplicate-free list holding the id, retaining removes exactly the id's one position and keeps every other element in its original order |
| Ledger.ListLengthIsBalance | contracts/substrate/AssetHubNFT.rs:91-94 | when balances and owned lists both agree with the owner map, an account's balance equals the length of its owned list |
| Ledger.ListsDisjoint | contracts/substrate/AssetHubNFT.rs:93-94 | when owned lists agree with the owner map, no id is listed for two different accounts |
| Ledger.IssueKeepsBalances | contracts/substrate/AssetHubNFT.rs:193-198 | recording an unused id for `to` and crediting `to` keeps every balance equal to the number of ids owned |
| Ledger.MoveKeepsBalances | contracts/substrate/AssetHubNFT.rs:246-260 | reassigning an existing id, debiting the old owner and crediting the new one, keeps every balance equal to the number of ids owned; this includes a transfer to oneself |
| Ledger.IssueKeepsLists | contracts/substrate/AssetHubNFT.rs:193-203 | recording an unused id and appending it to the new owner's list keeps every list a duplicate-free enumeration of the owner's ids |
| Ledger.MoveKeepsLists | contracts/substrate/AssetHubNFT.rs:240-260 | retaining the id out of the old owner's list and appending it to the new owner's keeps every list a duplicate-free enumeration of the owner's ids |
| SubstrateAssetHubNft.New | contracts/substrate/AssetHubNFT.rs:108-121 | the constructor yields counter 1, the deployer as admin, zero balances, empty lists, no owners, URIs or approvals, and a valid ledger |
| SubstrateAssetHubNft.Issue | contracts/substrate/AssetHubNFT.rs:193-206 | the shared mint bookkeeping returns the old counter and increments it; the id gets owner `to` and the given metadata; `to`'s balance rises by one and its list gains the id at the end; every other id, account and approval is unchanged |
| SubstrateAssetHubNft.Reassign | contracts/substrate/AssetHubNFT.rs:240-260 | the shared move bookkeeping sets the owner of the id to `to`; other owners, metadata, approvals, counter and admin are unchanged |
| SubstrateAssetHubNft.MintToken | contracts/substrate/AssetHubNFT.rs:167-223 | `mint_token` returns the old counter and increments it; the id is owned by `owner` with the given URI; its metadata has the caller as creator, the block time, no origin chain and status NotStarted; the owner's balance rises by one and its list gains the id; everything else is unchanged |
| SubstrateAssetHubNft.Transfer | contracts/substrate/AssetHubNFT.rs:227-273 | `transfer` succeeds exactly when the token exists and the caller is its owner or its approved account; on failure the state is unchanged; on success `to` owns the token, its approval is cleared, and other tokens, other approvals and all metadata are unchanged |
| SubstrateAssetHubNft.Approve | contracts/substrate/AssetHubNFT.rs:277-297 | `approve` succeeds exactly when the caller owns the token; on failure nothing changes; on success `is_approved(op, id)` holds exactly for `op == to`; nothing but that approval changes |
| SubstrateAssetHubNft.InitiateXcmTransfer | contracts/substrate/AssetHubNFT.rs:302-364 | the XCM send succeeds exactly when the caller is admin and the token exists; on failure nothing changes; on success the admin owns the token and its status is InProgress with the rest of its metadata kept; approvals, the counter and other tokens are unchanged |
| SubstrateAssetHubNft.ReceiveXcmNft | contracts/substrate/AssetHubNFT.rs:369-430 | a non-admin caller gets 0 and an unchanged state; for the admin a fresh id is returned and the counter is incremented; the token is owned by `to`; its metadata records the admin as creator, the origin chain and status Completed; `to`'s balance and list grow by that id; other accounts and ids are unchanged; approvals and admin are unchanged, so the received token has no approved operator |
| SubstrateAssetHubNft.IssueKeepsValid | contracts/substrate/AssetHubNFT.rs:193-206 | in a valid ledger the counter id has no owner or metadata yet, and issuing it keeps the ledger valid |
| SubstrateAssetHubNft.ReassignKeepsValid | contracts/substrate/AssetHubNFT.rs:240-260 | reassigning an existing token keeps the ledger valid |
| SubstrateAssetHubNft.MintKeepsValid | contracts/substrate/AssetHubNFT.rs:176-206 | `mint_token` on a valid ledger never overwrites an existing token's owner or URI, never returns 0, and keeps the ledger valid |
| SubstrateAssetHubNft.TransferKeepsValid | contracts/substrate/AssetHubNFT.rs:240-263 | `transfer` keeps the ledger valid |
| SubstrateAssetHubNft.ApproveKeepsValid | contracts/substrate/AssetHubNFT.rs:281-287 | `approve` keeps the ledger valid (approvals only ever name existing tokens) |
| SubstrateAssetHubNft.XcmTransferKeepsValid | contracts/substrate/AssetHubNFT.rs:322-360 | the XCM send keeps the ledger valid |
| SubstrateAssetHubNft.ReceiveKeepsValid | contracts/substrate/AssetHubNFT.rs:381-413 | the XCM receive keeps the ledger valid, and on a valid ledger its result is 0 exactly when the caller is not the admin |
| SubstrateAssetHubNft.UnmintedIsAbsent | contracts/substrate/AssetHubNFT.rs:143-157 | in a valid ledger, id 0 and ids at or above the counter have no owner, URI, metadata or approval |
| SubstrateAssetHubNft.ReassignEffects | contracts/substrate/AssetHubNFT.rs:240-260 | on a valid ledger the old owner's balance is at least 1, so the debit never underflows; moving a token to a different account lowers the old owner's balance by one and raises the new owner's by one; the old owner's list loses exactly that id and the new owner's list gains it at the end; a move to oneself keeps the balance and moves the id to the end of the list; other accounts are untouched |
| SubstrateAssetHubNft.TransferEffects | contracts/substrate/AssetHubNFT.rs:240-272 | the old owner's balance is at least 1 before the debit; a successful `transfer` between different accounts lowers the old owner's balance by one and raises `to`'s by one; the old owner's list becomes the old list with the id retained out, and `to`'s list gains the id at the end; a transfer to the owner itself keeps the balance and moves the id to the end of the list; all other accounts are untouched |
| SubstrateAssetHubNft.XcmTransferEffects | contracts/substrate/AssetHubNFT.rs:344-360 | a successful XCM send from another owner lowers that owner's balance by one and raises the admin's by one; the owner's list becomes the old list with the id retained out, and the admin's list gains the id at the end; a send of a token the admin already holds keeps its balance and moves the id to the end of its list; all other accounts are untouched |
| SubstrateAssetHubNft.XcmKeepsStaleApproval | contracts/substrate/AssetHubNFT.rs:322-363 | the XCM send does not clear approvals, so an account approved before the send can still transfer the token out of the admin's custody |
| SubstrateAssetHubNft.StepKeepsValid | contracts/substrate/AssetHubNFT.rs:165-430 | every message keeps the ledger valid, keeps the admin, and never lowers the counter |
| SubstrateAssetHubNft.RunKeepsValid | contracts/substrate/AssetHubNFT.rs:165-430 | any sequence of messages keeps the ledger valid and the admin fixed |
| SubstrateAssetHubNft.ReachableBalanceIsListLength | contracts/substrate/AssetHubNFT.rs:135-163 | in every state reachable from the constructor, the ledger is valid, the deployer is admin, and `balance_of(a)` equals the length of `tokens_of_owner(a)` |
| SubstrateAssetHubNft.MintingWorks | contracts/substrate/AssetHubNFT.rs:440-469 | the unit test `minting_works`: after one mint Alice owns the token, her balance is 1, the URI is stored, and her list is exactly that id |
| SubstrateAssetHubNft.TransferWorks | contracts/substrate/AssetHubNFT.rs:472-508 | the unit test `transfer_works`: after Alice mints and transfers to Bob, Bob owns the token; balances are 0 and 1; Alice's list is empty and Bob's is the id |
| SubstrateAssetHubNft.XcmOperationsWork | contracts/substrate/AssetHubNFT.rs:511-558 | the unit test `xcm_operations_work`: the XCM send puts the token with the admin; the XCM receive gives Charlie a token with origin chain 2004 and status Completed |
| AssetHubNft.New | lib.rs:43-53 | the constructor yields counter 1, zero balances, empty lists, no owners or URIs, and a valid ledger |
| AssetHubNft.Mint | lib.rs:93-120 | `mint` performs no caller check; it returns the old counter and increments it; the id is owned by `to` with the given URI; `to`'s balance rises by one and its list gains the id at the end; everything else is unchanged |
| AssetHubNft.Transfer | lib.rs:124-167 | `transfer` succeeds exactly when the caller owns the token; on failure nothing changes; on success `to` owns it, other owners are unchanged and URIs and the counter are kept |
| AssetHubNft.MintKeepsValid | lib.rs:94-110 | on a valid ledger `mint` never overwrites an existing owner or URI, and keeps the ledger valid |
| AssetHubNft.TransferKeepsValid | lib.rs:137-157 | `transfer` keeps the ledger valid |
| AssetHubNft.UnmintedIsAbsent | lib.rs:73-89 | in a valid ledger, id 0 and ids at or above the counter have no owner and no URI |
| AssetHubNft.TransferEffects | lib.rs:137-157 | the caller's balance is at least 1 before the debit; a successful transfer between different accounts lowers the caller's balance by one and raises `to`'s by one; the caller's list loses exactly the id and `to`'s list gains it at the end; a transfer to oneself keeps the balance and moves the id to the end of the list; other accounts are untouched |
| AssetHubNft.RunKeepsValid | lib.rs:91-167 | any sequence of mints and transfers keeps the ledger valid |
| AssetHubNft.ReachableBalanceIsListLength | lib.rs:67-83 | in every state reachable from the constructor, `balance_of(a)` equals the length of `tokens_of_owner(a)`, and no id is listed for two accounts |
| UniqueNetworkNft.New | contracts/UniqueNetworkNFT.rs:63-72 | the constructor yields counter 1, zero balances, no owners or URIs, and a valid ledger |
| UniqueNetworkNft.MintToken | contracts/UniqueNetworkNFT.rs:106-145 | `mint_token` returns the old counter and increments it; the id is owned by `owner` with the given URI; its metadata records the caller and the block time; `owner`'s balance rises by one; everything else is unchanged |
| UniqueNetworkNft.Transfer | contracts/UniqueNetworkNFT.rs:149-180 | `transfer` succeeds exactly when the caller owns the token, with no approvals involved; on failure nothing changes; on success `to` owns it, other owners are unchanged and metadata is kept |
| UniqueNetworkNft.MintKeepsValid | contracts/UniqueNetworkNFT.rs:121-129 | on a valid ledger `mint_token` never overwrites an existing token, and keeps every balance equal to the number of ids owned |
| UniqueNetworkNft.TransferKeepsValid | contracts/UniqueNetworkNFT.rs:161-170 | `transfer` keeps every balance equal to the number of ids owned |
| UniqueNetworkNft.TransferEffects | contracts/UniqueNetworkNFT.rs:161-167 | the caller's balance is at least 1 before the debit; a successful transfer between different accounts lowers the caller's balance by one and raises `to`'s by one; other balances are untouched |
| UniqueNetworkNft.RunKeepsValid | contracts/UniqueNetworkNFT.rs:104-180 | any sequence of mints and transfers keeps the ledger valid |
| UniqueNetworkNft.ReachableUnmintedIsAbsent | contracts/UniqueNetworkNFT.rs:88-102 | in every reachable state, id 0 and ids at or above the counter have no owner and no URI |
| UniqueNetworkNft.MintingWorks | contracts/UniqueNetworkNFT.rs:193-211 | the unit test `minting_works`: Alice owns the minted token, her balance is 1, and the URI is stored |
| UniqueNetworkNft.TransferWorks | contracts/UniqueNetworkNFT.rs:214-236 | the unit test `transfer_works`: after the transfer Bob owns the token, and the balances are 0 and 1 |
| MinimalNft.CheckedAdd | contracts/minimal_nft/minimal_nft/lib.rs:54 | `u32::checked_add` gives the sum exactly when it fits in 32 bits and `None` otherwise |
| MinimalNft.New | contracts/minimal_nft/minimal_nft/lib.rs:42-48 | the constructor yields token count 0 and no owners or URIs |
| MinimalNft.Mint | contracts/minimal_nft/minimal_nft/lib.rs:52-67 | `mint` returns count + 1 below `u32::MAX` and 1 at `u32::MAX`; the caller owns that id with the given URI; `total_supply` becomes the id; other ids are unchanged |
| MinimalNft.MintKeepsValid | contracts/minimal_nft/minimal_nft/lib.rs:54-58 | below `u32::MAX` the new id was unused, and the minted ids stay exactly 1 through the count, each with an owner and a URI |
| MinimalNft.MintKeepsSound | contracts/minimal_nft/minimal_nft/lib.rs:54-58 | every mint, the overflowing one included, keeps owners and URIs together, keeps ids within 1 through `u32::MAX`, and keeps every id up to the count minted |
| MinimalNft.MintAtMaxOverwritesTokenOne | contracts/minimal_nft/minimal_nft/lib.rs:54-58 | at `u32::MAX` the mint returns 1 and takes over token 1, which already had an owner; the supply drops to 1 while token 2 stays minted, so the exact-range invariant breaks |
| MinimalNft.RunKeepsInvariants | contracts/minimal_nft/minimal_nft/lib.rs:52-67 | any sequence of mints keeps the weak invariant; without overflow it also keeps the minted ids exactly 1 through the count, with the count grown by the number of mints |
| MinimalNft.ReachableIsSound | contracts/minimal_nft/minimal_nft/lib.rs:69-85 | after at most `u32::MAX` mints from deployment, `total_supply` is the number of mints, and `owner_of`/`token_uri` are defined exactly for ids 1 through that number |
| MinimalNft.MintingWorks | contracts/minimal_nft/minimal_nft/lib.rs:98-111 | the unit test `minting_works`: the first mint returns 1, the supply becomes 1, and the caller owns the token with the given URI |

## Left out

- Events (`emit_event`) are dropped. They are host I/O and change no storage.
- The parameters that only feed events are accepted and ignored: `name` of `mint_token` and `receive_xcm_nft`, and `dest_para_id` and `dest_account` of `initiate_xcm_transfer`.
- The `name` and `symbol` getters are not modelled; they only read fields. The fields are kept in the state.
- `is_approved`, `balance_of`, `owner_of`, `token_uri`, `token_metadata`, `tokens_of_owner` and `total_supply` are plain query functions with no contract of their own. What they return is stated through the contracts of the messages and lemmas above.
- ink! storage plumbing (`StorageHashMap`, `Mapping`, SCALE encoding, storage layout) becomes Dafny maps. The `env()` host calls become parameters: `caller` and the block timestamp `now`.
- `AccountId` is an abstract identifier. Its 32-byte encoding plays no role in any contract.
- Token ids, counters and balances in `SubstrateAssetHubNft`, `AssetHubNft` and `UniqueNetworkNft` are unbounded integers. The `u32` overflow of `next_token_id += 1` and of `balance += 1` is not modelled. Nor is the underflow of `balance -= 1`: the `TransferEffects` lemmas and `SubstrateAssetHubNft.ReassignEffects` show the debit only ever runs on a balance of at least 1.
- Real XCM (pallet_xcm messages, fees, finality) is not modelled. The contract itself only simulates the send and receive, and the model follows that simulation.
- The browser front end, wallet, IPFS upload and relay service are not part of this model.
