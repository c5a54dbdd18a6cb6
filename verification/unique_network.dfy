/** The VR Genesis NFT collection for Unique Network (contracts/UniqueNetworkNFT.rs).

    Storage is a token counter starting at 1 and maps from token id to owner and
    to metadata, and from account to balance; there are no owned-token lists
    and no approvals. Minting is open to every caller, who is recorded as the
    creator; only the current owner may transfer.
 */
module UniqueNetworkNft {
  import opened Ledger

  datatype NftMetadata = NftMetadata(metadataUri: string, creator: AccountId, createdAt: nat)

  datatype Contract = Contract(
    nextTokenId: TokenId,
    tokenOwner: map<TokenId, AccountId>,
    tokenMetadata: map<TokenId, NftMetadata>,
    balances: map<AccountId, int>,
    name: string,
    symbol: string)

  /** Ids are allocated from 1 below the counter, every token has metadata, and every
      balance is the number of tokens owned. */
  ghost predicate Valid(s: Contract)
  {
    && s.nextTokenId >= 1
    && (forall id :: id in s.tokenOwner ==> 1 <= id < s.nextTokenId)
    && s.tokenMetadata.Keys == s.tokenOwner.Keys
    && BalancesMatch(s.tokenOwner, s.balances)
  }

  // Queries

  function BalanceOf(s: Contract, owner: AccountId): int
  {
    Balance(s.balances, owner)
  }

  function OwnerOf(s: Contract, id: TokenId): Option<AccountId>
  {
    Get(s.tokenOwner, id)
  }

  function TokenUri(s: Contract, id: TokenId): Option<string>
  {
    if id in s.tokenMetadata then Some(s.tokenMetadata[id].metadataUri) else None
  }

  // Messages

  /** The constructor: an empty collection. */
  function New(name: string, symbol: string): (c: Contract)
    ensures c.nextTokenId == 1
    ensures forall a :: BalanceOf(c, a) == 0
    ensures forall id :: OwnerOf(c, id) == None && TokenUri(c, id) == None
    ensures Valid(c)
  {
    Contract(1, map[], map[], map[], name, symbol)
  }

  /** `mint_token`: open to every caller; the caller and block time go into the metadata. */
  function MintToken(s: Contract, caller: AccountId, now: nat, owner: AccountId, metadataUri: string): (r: Reply<Contract, TokenId>)
    ensures r.ret == s.nextTokenId && r.state.nextTokenId == s.nextTokenId + 1
    ensures OwnerOf(r.state, r.ret) == Some(owner) && TokenUri(r.state, r.ret) == Some(metadataUri)
    ensures r.ret in r.state.tokenMetadata && r.state.tokenMetadata[r.ret] == NftMetadata(metadataUri, caller, now)
    ensures BalanceOf(r.state, owner) == BalanceOf(s, owner) + 1
    ensures forall a :: a != owner ==> BalanceOf(r.state, a) == BalanceOf(s, a)
    ensures forall id :: id != r.ret ==> OwnerOf(r.state, id) == OwnerOf(s, id) && TokenUri(r.state, id) == TokenUri(s, id)
  {
    var id := s.nextTokenId;
    Reply(s.(tokenOwner := s.tokenOwner[id := owner],
             tokenMetadata := s.tokenMetadata[id := NftMetadata(metadataUri, caller, now)],
             balances := Credit(s.balances, owner),
             nextTokenId := id + 1),
          id)
  }

  /** `transfer`: only the current owner may move a token; approvals play no part. */
  function Transfer(s: Contract, caller: AccountId, to: AccountId, id: TokenId): (r: Reply<Contract, bool>)
    ensures r.ret <==> OwnerOf(s, id) == Some(caller)
    ensures !r.ret ==> r.state == s
    ensures r.ret ==> OwnerOf(r.state, id) == Some(to)
    ensures forall other :: other != id ==> OwnerOf(r.state, other) == OwnerOf(s, other)
    ensures r.state.tokenMetadata == s.tokenMetadata && r.state.nextTokenId == s.nextTokenId
  {
    if id !in s.tokenOwner then Reply(s, false)
    else if s.tokenOwner[id] != caller then Reply(s, false)
    else
      Reply(s.(balances := Credit(Debit(s.balances, caller), to),
               tokenOwner := s.tokenOwner[id := to]),
            true)
  }

  // The invariant

  /** `mint_token` never overwrites an existing token and keeps balances consistent. */
  lemma MintKeepsValid(s: Contract, caller: AccountId, now: nat, owner: AccountId, metadataUri: string)
    requires Valid(s)
    ensures var r := MintToken(s, caller, now, owner, metadataUri);
      OwnerOf(s, r.ret) == None && TokenUri(s, r.ret) == None && Valid(r.state)
  {
    assert s.nextTokenId !in s.tokenOwner;
    IssueKeepsBalances(s.tokenOwner, s.balances, s.nextTokenId, owner);
  }

  lemma TransferKeepsValid(s: Contract, caller: AccountId, to: AccountId, id: TokenId)
    requires Valid(s)
    ensures Valid(Transfer(s, caller, to, id).state)
  {
    if Transfer(s, caller, to, id).ret {
      MoveKeepsBalances(s.tokenOwner, s.balances, id, to);
    }
  }

  /** A successful `transfer` moves one unit of balance from the caller to `to`. */
  lemma TransferEffects(s: Contract, caller: AccountId, to: AccountId, id: TokenId)
    requires Valid(s)
    requires Transfer(s, caller, to, id).ret
    ensures var r := Transfer(s, caller, to, id).state;
      && BalanceOf(s, caller) >= 1
      && (caller != to ==> BalanceOf(r, caller) == BalanceOf(s, caller) - 1 && BalanceOf(r, to) == BalanceOf(s, to) + 1)
      && (caller == to ==> BalanceOf(r, to) == BalanceOf(s, to))
      && (forall a :: a != caller && a != to ==> BalanceOf(r, a) == BalanceOf(s, a))
  {
    assert id in OwnedBy(s.tokenOwner, caller);
    assert caller in s.balances by {
      assert Balance(s.balances, caller) == |OwnedBy(s.tokenOwner, caller)| > 0;
    }
  }

  // Every reachable state is consistent

  datatype Message =
    | MintTokenMsg(caller: AccountId, now: nat, owner: AccountId, metadataUri: string)
    | TransferMsg(caller: AccountId, to: AccountId, id: TokenId)

  function Step(s: Contract, m: Message): Contract
  {
    match m
    case MintTokenMsg(caller, now, owner, uri) => MintToken(s, caller, now, owner, uri).state
    case TransferMsg(caller, to, id) => Transfer(s, caller, to, id).state
  }

  function Run(s: Contract, ms: seq<Message>): Contract
    decreases |ms|
  {
    if |ms| == 0 then s else Run(Step(s, ms[0]), ms[1..])
  }

  /** Any sequence of messages keeps balances consistent with ownership. */
  lemma {:induction false} RunKeepsValid(s: Contract, ms: seq<Message>)
    requires Valid(s)
    ensures Valid(Run(s, ms))
    decreases |ms|
  {
    if |ms| > 0 {
      match ms[0] {
        case MintTokenMsg(caller, now, owner, uri) => MintKeepsValid(s, caller, now, owner, uri);
        case TransferMsg(caller, to, id) => TransferKeepsValid(s, caller, to, id);
      }
      RunKeepsValid(Step(s, ms[0]), ms[1..]);
    }
  }

  /** Ids at or above the counter have no owner and no URI in any reachable state. */
  lemma ReachableUnmintedIsAbsent(name: string, symbol: string, ms: seq<Message>, id: TokenId)
    ensures var s := Run(New(name, symbol), ms);
      (id == 0 || id >= s.nextTokenId) ==> OwnerOf(s, id) == None && TokenUri(s, id) == None
  {
    RunKeepsValid(New(name, symbol), ms);
  }

  // The contract's unit tests, as lemmas

  const Alice := AccountId(1)
  const Bob := AccountId(2)

  lemma MintingWorks(caller: AccountId, now: nat)
    ensures var r := MintToken(New("VR Genesis NFT", "VRGNFT"), caller, now, Alice, "ipfs://QmMetadata");
      && OwnerOf(r.state, r.ret) == Some(Alice)
      && BalanceOf(r.state, Alice) == 1
      && TokenUri(r.state, r.ret) == Some("ipfs://QmMetadata")
  {
  }

  lemma TransferWorks(now: nat)
    ensures var m := MintToken(New("VR Genesis NFT", "VRGNFT"), Alice, now, Alice, "ipfs://QmMetadata");
      var t := Transfer(m.state, Alice, Bob, m.ret);
      && t.ret
      && OwnerOf(t.state, m.ret) == Some(Bob)
      && BalanceOf(t.state, Alice) == 0 && BalanceOf(t.state, Bob) == 1
  {
  }
}
