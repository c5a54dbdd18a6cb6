/** The cross-chain NFT collection for Polkadot Asset Hub (contracts/substrate/AssetHubNFT.rs).

    Storage is a token counter starting at 1, maps from token id to owner, to
    metadata and to an approved operator, and maps from account to balance and
    to the list of owned ids, plus an admin fixed at construction. Minting is
    open to every caller; transfer is open to the owner and the approved
    account; the XCM send and receive are simulated and open only to the admin.
    Every message is a pure function of the state, the caller and (where the
    contract reads it) the block timestamp.
 */
module SubstrateAssetHubNft {
  import opened Ledger

  datatype XcmStatus = NotStarted | InProgress | Completed | Failed

  datatype NftMetadata = NftMetadata(
    metadataUri: string,
    creator: AccountId,
    createdAt: nat,
    modelType: string,
    originChainId: Option<nat>,
    xcmStatus: XcmStatus,
    properties: string)

  datatype Contract = Contract(
    nextTokenId: TokenId,
    tokenOwner: map<TokenId, AccountId>,
    tokenMetadata: map<TokenId, NftMetadata>,
    balances: map<AccountId, int>,
    ownedTokens: map<AccountId, seq<TokenId>>,
    approvals: map<TokenId, AccountId>,
    name: string,
    symbol: string,
    admin: AccountId)

  /** The ledger-consistency invariant: ids are allocated from 1 below the counter, every
      token has metadata, approvals name existing tokens, and balances and owned lists
      agree with the owner map. */
  ghost predicate Valid(s: Contract)
  {
    && s.nextTokenId >= 1
    && (forall id :: id in s.tokenOwner ==> 1 <= id < s.nextTokenId)
    && s.tokenMetadata.Keys == s.tokenOwner.Keys
    && s.approvals.Keys <= s.tokenOwner.Keys
    && BalancesMatch(s.tokenOwner, s.balances)
    && ListsMatch(s.tokenOwner, s.ownedTokens)
  }

  // Queries

  function BalanceOf(s: Contract, owner: AccountId): int
  {
    Balance(s.balances, owner)
  }

  function OwnerOf(s: Contract, id: TokenId): Option<AccountId>
  {
    Get(s.tokenOwner, id)
  }

  function TokenUri(s: Contract, id: TokenId): Option<string>
  {
    if id in s.tokenMetadata then Some(s.tokenMetadata[id].metadataUri) else None
  }

  function TokenMetadata(s: Contract, id: TokenId): Option<NftMetadata>
  {
    Get(s.tokenMetadata, id)
  }

  function TokensOfOwner(s: Contract, owner: AccountId): seq<TokenId>
  {
    ListOf(s.ownedTokens, owner)
  }

  function IsApproved(s: Contract, operator: AccountId, id: TokenId): bool
  {
    id in s.approvals && s.approvals[id] == operator
  }

  // Messages

  /** The constructor: an empty collection whose admin is the deploying account. */
  function New(caller: AccountId, name: string, symbol: string): (c: Contract)
    ensures c.nextTokenId == 1 && c.admin == caller
    ensures forall a :: BalanceOf(c, a) == 0 && TokensOfOwner(c, a) == []
    ensures forall id :: OwnerOf(c, id) == None && TokenUri(c, id) == None
    ensures forall op, id :: !IsApproved(c, op, id)
    ensures Valid(c)
  {
    Contract(1, map[], map[], map[], map[], map[], name, symbol, caller)
  }

  /** Record the token `s.nextTokenId` as owned by `to` with the given metadata
      (the storage updates `mint_token` and `receive_xcm_nft` share). */
  function Issue(s: Contract, to: AccountId, metadata: NftMetadata): (r: Reply<Contract, TokenId>)
    ensures r.ret == s.nextTokenId && r.state.nextTokenId == s.nextTokenId + 1
    ensures OwnerOf(r.state, r.ret) == Some(to) && TokenMetadata(r.state, r.ret) == Some(metadata)
    ensures BalanceOf(r.state, to) == BalanceOf(s, to) + 1
    ensures TokensOfOwner(r.state, to) == TokensOfOwner(s, to) + [r.ret]
    ensures forall a :: a != to ==> BalanceOf(r.state, a) == BalanceOf(s, a) && TokensOfOwner(r.state, a) == TokensOfOwner(s, a)
    ensures forall id :: id != r.ret ==> OwnerOf(r.state, id) == OwnerOf(s, id) && TokenMetadata(r.state, id) == TokenMetadata(s, id)
    ensures r.state.approvals == s.approvals && r.state.admin == s.admin
  {
    var id := s.nextTokenId;
    Reply(s.(tokenOwner := s.tokenOwner[id := to],
             tokenMetadata := s.tokenMetadata[id := metadata],
             balances := Credit(s.balances, to),
             ownedTokens := Push(s.ownedTokens, to, id),
             nextTokenId := id + 1),
          id)
  }

  /** Hand the existing token `id` from its owner to `to`: drop it from the owner's list,
      debit the owner, credit `to`, append it to `to`'s list and record the new owner
      (the storage updates `transfer` and `initiate_xcm_transfer` share). */
  function Reassign(s: Contract, id: TokenId, to: AccountId): (r: Contract)
    requires id in s.tokenOwner
    ensures OwnerOf(r, id) == Some(to)
    ensures forall other :: other != id ==> OwnerOf(r, other) == OwnerOf(s, other)
    ensures r.tokenMetadata == s.tokenMetadata && r.approvals == s.approvals
    ensures r.nextTokenId == s.nextTokenId && r.admin == s.admin
  {
    var from := s.tokenOwner[id];
    s.(ownedTokens := Push(Unlist(s.ownedTokens, from, id), to, id),
       balances := Credit(Debit(s.balances, from), to),
       tokenOwner := s.tokenOwner[id := to])
  }

  /** `mint_token`: anyone may mint; the caller is recorded as creator. */
  function MintToken(s: Contract, caller: AccountId, now: nat, owner: AccountId, metadataUri: string,
                     name: string, modelType: string, properties: string): (r: Reply<Contract, TokenId>)
    ensures r.ret == s.nextTokenId && r.state.nextTokenId == s.nextTokenId + 1
    ensures OwnerOf(r.state, r.ret) == Some(owner) && TokenUri(r.state, r.ret) == Some(metadataUri)
    ensures TokenMetadata(r.state, r.ret) == Some(NftMetadata(metadataUri, caller, now, modelType, None, NotStarted, properties))
    ensures BalanceOf(r.state, owner) == BalanceOf(s, owner) + 1
    ensures TokensOfOwner(r.state, owner) == TokensOfOwner(s, owner) + [r.ret]
    ensures forall a :: a != owner ==> BalanceOf(r.state, a) == BalanceOf(s, a) && TokensOfOwner(r.state, a) == TokensOfOwner(s, a)
    ensures forall id :: id != r.ret ==> OwnerOf(r.state, id) == OwnerOf(s, id) && TokenMetadata(r.state, id) == TokenMetadata(s, id)
    ensures r.state.approvals == s.approvals && r.state.admin == s.admin
  {
    Issue(s, owner, NftMetadata(metadataUri, caller, now, modelType, None, NotStarted, properties))
  }

  /** `transfer`: allowed to the owner and to the approved account; clears the approval. */
  function Transfer(s: Contract, caller: AccountId, to: AccountId, id: TokenId): (r: Reply<Contract, bool>)
    ensures r.ret <==> id in s.tokenOwner && (s.tokenOwner[id] == caller || IsApproved(s, caller, id))
    ensures !r.ret ==> r.state == s
    ensures r.ret ==> OwnerOf(r.state, id) == Some(to) && forall op :: !IsApproved(r.state, op, id)
    ensures forall other :: other != id ==> OwnerOf(r.state, other) == OwnerOf(s, other)
    ensures forall other, op :: other != id ==> IsApproved(r.state, op, other) == IsApproved(s, op, other)
    ensures r.state.tokenMetadata == s.tokenMetadata && r.state.nextTokenId == s.nextTokenId && r.state.admin == s.admin
  {
    if id !in s.tokenOwner then Reply(s, false)
    else
      var owner := s.tokenOwner[id];
      if owner != caller && !IsApproved(s, caller, id) then Reply(s, false)
      else
        var moved := Reassign(s, id, to);
        var r := moved.(approvals := moved.approvals - {id});
        Reply(r, true)
  }

  /** `approve`: only the current owner may name an operator for a token. */
  function Approve(s: Contract, caller: AccountId, to: AccountId, id: TokenId): (r: Reply<Contract, bool>)
    ensures r.ret <==> OwnerOf(s, id) == Some(caller)
    ensures !r.ret ==> r.state == s
    ensures r.ret ==> forall op :: IsApproved(r.state, op, id) <==> op == to
    ensures forall other, op :: other != id ==> IsApproved(r.state, op, other) == IsApproved(s, op, other)
    ensures r.state.(approvals := s.approvals) == s
  {
    if id in s.tokenOwner && s.tokenOwner[id] == caller then
      Reply(s.(approvals := s.approvals[id := to]), true)
    else
      Reply(s, false)
  }

  /** `initiate_xcm_transfer`: admin only; marks the token in progress and, in place of a
      real cross-chain send, moves it into the admin's custody. The destination parachain
      and account only feed the event, which is not modelled. */
  function InitiateXcmTransfer(s: Contract, caller: AccountId, id: TokenId, destParaId: nat,
                               destAccount: seq<bv8>): (r: Reply<Contract, bool>)
    ensures r.ret <==> caller == s.admin && id in s.tokenOwner
    ensures !r.ret ==> r.state == s
    ensures r.ret ==> OwnerOf(r.state, id) == Some(s.admin)
    ensures r.ret && id in s.tokenMetadata ==>
      TokenMetadata(r.state, id) == Some(s.tokenMetadata[id].(xcmStatus := InProgress))
    ensures forall other :: other != id ==>
      OwnerOf(r.state, other) == OwnerOf(s, other) && TokenMetadata(r.state, other) == TokenMetadata(s, other)
    ensures r.state.approvals == s.approvals && r.state.nextTokenId == s.nextTokenId && r.state.admin == s.admin
  {
    if caller != s.admin then Reply(s, false)
    else if id !in s.tokenOwner then Reply(s, false)
    else
      var metadata :=
        if id in s.tokenMetadata then s.tokenMetadata[id := s.tokenMetadata[id].(xcmStatus := InProgress)]
        else s.tokenMetadata;
      Reply(Reassign(s.(tokenMetadata := metadata), id, s.admin), true)
  }

  /** `receive_xcm_nft`: admin only; mints a token arriving from `originChainId` to `to`,
      with the admin as creator. A refused call returns 0, an id never allocated. */
  function ReceiveXcmNft(s: Contract, caller: AccountId, now: nat, to: AccountId, metadataUri: string,
                         name: string, modelType: string, properties: string, originChainId: nat): (r: Reply<Contract, TokenId>)
    ensures caller != s.admin ==> r == Reply(s, 0)
    ensures caller == s.admin ==>
      && r.ret == s.nextTokenId && r.state.nextTokenId == s.nextTokenId + 1
      && OwnerOf(r.state, r.ret) == Some(to)
      && TokenMetadata(r.state, r.ret) == Some(NftMetadata(metadataUri, s.admin, now, modelType, Some(originChainId), Completed, properties))
      && BalanceOf(r.state, to) == BalanceOf(s, to) + 1
      && TokensOfOwner(r.state, to) == TokensOfOwner(s, to) + [r.ret]
      && (forall a :: a != to ==> BalanceOf(r.state, a) == BalanceOf(s, a) && TokensOfOwner(r.state, a) == TokensOfOwner(s, a))
      && (forall id :: id != r.ret ==> OwnerOf(r.state, id) == OwnerOf(s, id) && TokenMetadata(r.state, id) == TokenMetadata(s, id))
      && r.state.approvals == s.approvals && r.state.admin == s.admin
  {
    if caller != s.admin then Reply(s, 0)
    else Issue(s, to, NftMetadata(metadataUri, s.admin, now, modelType, Some(originChainId), Completed, properties))
  }

  // The invariant

  /** A fresh id is never in use in a consistent ledger, and issuing it keeps the ledger consistent. */
  lemma IssueKeepsValid(s: Contract, to: AccountId, metadata: NftMetadata)
    requires Valid(s)
    ensures OwnerOf(s, s.nextTokenId) == None && TokenMetadata(s, s.nextTokenId) == None
    ensures Valid(Issue(s, to, metadata).state)
  {
    var id := s.nextTokenId;
    assert id !in s.tokenOwner;
    IssueKeepsBalances(s.tokenOwner, s.balances, id, to);
    IssueKeepsLists(s.tokenOwner, s.ownedTokens, id, to);
  }

  /** Reassigning a token keeps the ledger consistent. */
  lemma ReassignKeepsValid(s: Contract, id: TokenId, to: AccountId)
    requires Valid(s) && id in s.tokenOwner
    ensures Valid(Reassign(s, id, to))
  {
    MoveKeepsBalances(s.tokenOwner, s.balances, id, to);
    MoveKeepsLists(s.tokenOwner, s.ownedTokens, id, to);
  }

  /** `mint_token` never reuses an id and keeps the ledger consistent. */
  lemma MintKeepsValid(s: Contract, caller: AccountId, now: nat, owner: AccountId, metadataUri: string,
                       name: string, modelType: string, properties: string)
    requires Valid(s)
    ensures var r := MintToken(s, caller, now, owner, metadataUri, name, modelType, properties);
      OwnerOf(s, r.ret) == None && TokenUri(s, r.ret) == None && r.ret != 0 && Valid(r.state)
  {
    IssueKeepsValid(s, owner, NftMetadata(metadataUri, caller, now, modelType, None, NotStarted, properties));
  }

  /** Every `transfer` call, accepted or refused, keeps the ledger consistent. */
  lemma TransferKeepsValid(s: Contract, caller: AccountId, to: AccountId, id: TokenId)
    requires Valid(s)
    ensures Valid(Transfer(s, caller, to, id).state)
  {
    if Transfer(s, caller, to, id).ret {
      ReassignKeepsValid(s, id, to);
    }
  }

  /** `approve` keeps the ledger consistent: it only ever names an existing token. */
  lemma ApproveKeepsValid(s: Contract, caller: AccountId, to: AccountId, id: TokenId)
    requires Valid(s)
    ensures Valid(Approve(s, caller, to, id).state)
  {
  }

  /** Every `initiate_xcm_transfer` call, accepted or refused, keeps the ledger consistent. */
  lemma XcmTransferKeepsValid(s: Contract, caller: AccountId, id: TokenId, destParaId: nat, destAccount: seq<bv8>)
    requires Valid(s)
    ensures Valid(InitiateXcmTransfer(s, caller, id, destParaId, destAccount).state)
  {
    if caller == s.admin && id in s.tokenOwner {
      var marked := s.(tokenMetadata := s.tokenMetadata[id := s.tokenMetadata[id].(xcmStatus := InProgress)]);
      assert Valid(marked);
      ReassignKeepsValid(marked, id, s.admin);
    }
  }

  /** `receive_xcm_nft` keeps the ledger consistent, and its result is 0 exactly when it refuses. */
  lemma ReceiveKeepsValid(s: Contract, caller: AccountId, now: nat, to: AccountId, metadataUri: string,
                          name: string, modelType: string, properties: string, originChainId: nat)
    requires Valid(s)
    ensures var r := ReceiveXcmNft(s, caller, now, to, metadataUri, name, modelType, properties, originChainId);
      Valid(r.state) && (r.ret == 0 <==> caller != s.admin)
  {
    if caller == s.admin {
      IssueKeepsValid(s, to, NftMetadata(metadataUri, s.admin, now, modelType, Some(originChainId), Completed, properties));
    }
  }

  /** Ids never allocated (0, and the counter and above) have no owner, metadata or approval. */
  lemma UnmintedIsAbsent(s: Contract, id: TokenId)
    requires Valid(s) && (id == 0 || id >= s.nextTokenId)
    ensures OwnerOf(s, id) == None && TokenUri(s, id) == None && TokenMetadata(s, id) == None
    ensures forall op :: !IsApproved(s, op, id)
  {
  }

  // What a successful transfer does to balances and owned lists

  /** A successful `transfer` or XCM send moves one unit of balance and the id's list entry
      from the old owner to the new one; every other account is untouched. */
  lemma ReassignEffects(s: Contract, id: TokenId, to: AccountId)
    requires Valid(s) && id in s.tokenOwner
    ensures var r := Reassign(s, id, to); var from := s.tokenOwner[id];
      && BalanceOf(s, from) >= 1
      && (from != to ==> BalanceOf(r, from) == BalanceOf(s, from) - 1 && BalanceOf(r, to) == BalanceOf(s, to) + 1)
      && (from == to ==> BalanceOf(r, to) == BalanceOf(s, to) && TokensOfOwner(r, to) == Retain(TokensOfOwner(s, to), id) + [id])
      && (from != to ==> TokensOfOwner(r, from) == Retain(TokensOfOwner(s, from), id)
                         && TokensOfOwner(r, to) == TokensOfOwner(s, to) + [id])
      && id !in Retain(TokensOfOwner(s, from), id)
      && |Retain(TokensOfOwner(s, from), id)| == |TokensOfOwner(s, from)| - 1
      && (forall a :: a != from && a != to ==> BalanceOf(r, a) == BalanceOf(s, a) && TokensOfOwner(r, a) == TokensOfOwner(s, a))
  {
    var from := s.tokenOwner[id];
    assert id in OwnedBy(s.tokenOwner, from);
    assert from in s.balances by {
      assert Balance(s.balances, from) == |OwnedBy(s.tokenOwner, from)| > 0;
    }
    assert id in TokensOfOwner(s, from);
  }

  /** A successful `transfer` debits a positive balance of the old owner, credits `to`, and
      moves the id from the old owner's list to the end of `to`'s. */
  lemma TransferEffects(s: Contract, caller: AccountId, to: AccountId, id: TokenId)
    requires Valid(s)
    requires Transfer(s, caller, to, id).ret
    ensures var r := Transfer(s, caller, to, id).state; var from := s.tokenOwner[id];
      && BalanceOf(s, from) >= 1
      && (from != to ==> BalanceOf(r, from) == BalanceOf(s, from) - 1 && BalanceOf(r, to) == BalanceOf(s, to) + 1)
      && (from == to ==> BalanceOf(r, to) == BalanceOf(s, to) && TokensOfOwner(r, to) == Retain(TokensOfOwner(s, to), id) + [id])
      && (from != to ==> TokensOfOwner(r, from) == Retain(TokensOfOwner(s, from), id)
                         && TokensOfOwner(r, to) == TokensOfOwner(s, to) + [id])
      && (forall a :: a != from && a != to ==> BalanceOf(r, a) == BalanceOf(s, a) && TokensOfOwner(r, a) == TokensOfOwner(s, a))
  {
    var r := Transfer(s, caller, to, id).state;
    var moved := Reassign(s, id, to);
    assert r.balances == moved.balances && r.ownedTokens == moved.ownedTokens;
    ReassignEffects(s, id, to);
  }

  /** A successful XCM send moves the token's balance unit and list entry into the admin's
      custody; a token the admin already holds only moves to the end of its list. */
  lemma XcmTransferEffects(s: Contract, id: TokenId, destParaId: nat, destAccount: seq<bv8>)
    requires Valid(s) && id in s.tokenOwner
    ensures var r := InitiateXcmTransfer(s, s.admin, id, destParaId, destAccount).state; var from := s.tokenOwner[id];
      && (from != s.admin ==> BalanceOf(r, from) == BalanceOf(s, from) - 1 && BalanceOf(r, s.admin) == BalanceOf(s, s.admin) + 1)
      && (from == s.admin ==> BalanceOf(r, from) == BalanceOf(s, from)
                              && TokensOfOwner(r, from) == Retain(TokensOfOwner(s, from), id) + [id])
      && (from != s.admin ==> TokensOfOwner(r, from) == Retain(TokensOfOwner(s, from), id)
                              && TokensOfOwner(r, s.admin) == TokensOfOwner(s, s.admin) + [id])
      && (forall a :: a != from && a != s.admin ==> BalanceOf(r, a) == BalanceOf(s, a) && TokensOfOwner(r, a) == TokensOfOwner(s, a))
  {
    var marked := s.(tokenMetadata := s.tokenMetadata[id := s.tokenMetadata[id].(xcmStatus := InProgress)]);
    assert Valid(marked);
    assert InitiateXcmTransfer(s, s.admin, id, destParaId, destAccount).state == Reassign(marked, id, s.admin);
    ReassignEffects(marked, id, s.admin);
  }

  /** The simulated XCM send leaves approvals alone, so an account approved before the send
      can still move the token out of the admin's custody afterwards. */
  lemma XcmKeepsStaleApproval(s: Contract, op: AccountId, to: AccountId, id: TokenId, destParaId: nat, destAccount: seq<bv8>)
    requires Valid(s) && IsApproved(s, op, id)
    ensures var sent := InitiateXcmTransfer(s, s.admin, id, destParaId, destAccount);
      sent.ret && OwnerOf(sent.state, id) == Some(s.admin) && Transfer(sent.state, op, to, id).ret
  {
  }

  // Every reachable state is consistent

  datatype Message =
    | MintTokenMsg(caller: AccountId, now: nat, owner: AccountId, metadataUri: string, name: string, modelType: string, properties: string)
    | TransferMsg(caller: AccountId, to: AccountId, id: TokenId)
    | ApproveMsg(caller: AccountId, to: AccountId, id: TokenId)
    | InitiateXcmTransferMsg(caller: AccountId, id: TokenId, destParaId: nat, destAccount: seq<bv8>)
    | ReceiveXcmNftMsg(caller: AccountId, now: nat, to: AccountId, metadataUri: string, name: string, modelType: string, properties: string, originChainId: nat)

  function Step(s: Contract, m: Message): Contract
  {
    match m
    case MintTokenMsg(caller, now, owner, uri, name, modelType, properties) =>
      MintToken(s, caller, now, owner, uri, name, modelType, properties).state
    case TransferMsg(caller, to, id) => Transfer(s, caller, to, id).state
    case ApproveMsg(caller, to, id) => Approve(s, caller, to, id).state
    case InitiateXcmTransferMsg(caller, id, destParaId, destAccount) =>
      InitiateXcmTransfer(s, caller, id, destParaId, destAccount).state
    case ReceiveXcmNftMsg(caller, now, to, uri, name, modelType, properties, origin) =>
      ReceiveXcmNft(s, caller, now, to, uri, name, modelType, properties, origin).state
  }

  function Run(s: Contract, ms: seq<Message>): Contract
    decreases |ms|
  {
    if |ms| == 0 then s else Run(Step(s, ms[0]), ms[1..])
  }

  lemma StepKeepsValid(s: Contract, m: Message)
    requires Valid(s)
    ensures Valid(Step(s, m)) && Step(s, m).admin == s.admin && Step(s, m).nextTokenId >= s.nextTokenId
  {
    match m
    case MintTokenMsg(caller, now, owner, uri, name, modelType, properties) =>
      MintKeepsValid(s, caller, now, owner, uri, name, modelType, properties);
    case TransferMsg(caller, to, id) => TransferKeepsValid(s, caller, to, id);
    case ApproveMsg(caller, to, id) => ApproveKeepsValid(s, caller, to, id);
    case InitiateXcmTransferMsg(caller, id, destParaId, destAccount) =>
      XcmTransferKeepsValid(s, caller, id, destParaId, destAccount);
    case ReceiveXcmNftMsg(caller, now, to, uri, name, modelType, properties, origin) =>
      ReceiveKeepsValid(s, caller, now, to, uri, name, modelType, properties, origin);
  }

  /** Any sequence of messages keeps the ledger consistent and the admin fixed. */
  lemma {:induction false} RunKeepsValid(s: Contract, ms: seq<Message>)
    requires Valid(s)
    ensures Valid(Run(s, ms)) && Run(s, ms).admin == s.admin
    decreases |ms|
  {
    if |ms| > 0 {
      StepKeepsValid(s, ms[0]);
      RunKeepsValid(Step(s, ms[0]), ms[1..]);
    }
  }

  /** In every state reachable from deployment, balances are the owned-list lengths. */
  lemma ReachableBalanceIsListLength(deployer: AccountId, name: string, symbol: string, ms: seq<Message>, a: AccountId)
    ensures var s := Run(New(deployer, name, symbol), ms);
      Valid(s) && s.admin == deployer && BalanceOf(s, a) == |TokensOfOwner(s, a)|
  {
    var s := Run(New(deployer, name, symbol), ms);
    RunKeepsValid(New(deployer, name, symbol), ms);
    ListLengthIsBalance(s.tokenOwner, s.balances, s.ownedTokens, a);
  }

  // The contract's unit tests, as lemmas

  const Alice := AccountId(1)
  const Bob := AccountId(2)
  const Charlie := AccountId(3)
  /** The 3D-model properties the unit tests pass. */
  const Cube := "{\"color\":\"#ff0000\",\"size\":1.0}"
  const Sphere := "{\"color\":\"#0000ff\",\"radius\":0.5}"

  lemma MintingWorks(deployer: AccountId, now: nat)
    ensures var r := MintToken(New(deployer, "VR Genesis Asset Hub NFT", "VRAH"), deployer, now,
                               Alice, "ipfs://QmMetadata", "3D Cube", "box", Cube);
      && OwnerOf(r.state, r.ret) == Some(Alice)
      && BalanceOf(r.state, Alice) == 1
      && TokenUri(r.state, r.ret) == Some("ipfs://QmMetadata")
      && TokensOfOwner(r.state, Alice) == [r.ret]
  {
  }

  lemma TransferWorks(now: nat)
    ensures var m := MintToken(New(Alice, "VR Genesis Asset Hub NFT", "VRAH"), Alice, now,
                               Alice, "ipfs://QmMetadata", "3D Cube", "box", Cube);
      var t := Transfer(m.state, Alice, Bob, m.ret);
      && t.ret
      && OwnerOf(t.state, m.ret) == Some(Bob)
      && BalanceOf(t.state, Alice) == 0 && BalanceOf(t.state, Bob) == 1
      && TokensOfOwner(t.state, Alice) == [] && TokensOfOwner(t.state, Bob) == [m.ret]
  {
    var s := New(Alice, "VR Genesis Asset Hub NFT", "VRAH");
    var m := MintToken(s, Alice, now, Alice, "ipfs://QmMetadata", "3D Cube", "box", Cube);
    assert TokensOfOwner(m.state, Alice) == [1];
    assert Retain([1], 1) == [];
  }

  lemma XcmOperationsWork(now: nat)
    ensures var m := MintToken(New(Alice, "VR Genesis Asset Hub NFT", "VRAH"), Alice, now,
                               Bob, "ipfs://QmMetadata", "3D Cube", "box", Cube);
      var x := InitiateXcmTransfer(m.state, Alice, m.ret, 2004, seq(32, _ => 0));
      var v := ReceiveXcmNft(x.state, Alice, now, Charlie, "ipfs://QmOtherChainMetadata",
                             "Imported Sphere", "sphere", Sphere, 2004);
      && OwnerOf(m.state, m.ret) == Some(Bob)
      && x.ret && OwnerOf(x.state, m.ret) == Some(Alice)
      && OwnerOf(v.state, v.ret) == Some(Charlie)
      && v.state.tokenMetadata[v.ret].originChainId == Some(2004)
      && v.state.tokenMetadata[v.ret].xcmStatus == Completed
  {
  }
}
