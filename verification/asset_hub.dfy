/** The simple Asset Hub NFT collection (lib.rs).

    Storage is a token counter starting at 1, maps from token id to owner and to
    URI, and maps from account to balance and to the list of owned ids. Minting
    performs no caller check; only the current owner may transfer.
 */
module AssetHubNft {
  import opened Ledger

  datatype Contract = Contract(
    nextTokenId: TokenId,
    tokenOwner: map<TokenId, AccountId>,
    tokenUri: map<TokenId, string>,
    balances: map<AccountId, int>,
    ownedTokens: map<AccountId, seq<TokenId>>,
    name: string,
    symbol: string)

  /** Ids are allocated from 1 below the counter, every token has a URI, and balances and
      owned lists agree with the owner map. */
  ghost predicate Valid(s: Contract)
  {
    && s.nextTokenId >= 1
    && (forall id :: id in s.tokenOwner ==> 1 <= id < s.nextTokenId)
    && s.tokenUri.Keys == s.tokenOwner.Keys
    && BalancesMatch(s.tokenOwner, s.balances)
    && ListsMatch(s.tokenOwner, s.ownedTokens)
  }

  // Queries

  function BalanceOf(s: Contract, owner: AccountId): int
  {
    Balance(s.balances, owner)
  }

  function OwnerOf(s: Contract, id: TokenId): Option<AccountId>
  {
    Get(s.tokenOwner, id)
  }

  function TokensOfOwner(s: Contract, owner: AccountId): seq<TokenId>
  {
    ListOf(s.ownedTokens, owner)
  }

  function TokenUri(s: Contract, id: TokenId): Option<string>
  {
    Get(s.tokenUri, id)
  }

  // Messages

  /** The constructor: an empty collection. */
  function New(name: string, symbol: string): (c: Contract)
    ensures c.nextTokenId == 1
    ensures forall a :: BalanceOf(c, a) == 0 && TokensOfOwner(c, a) == []
    ensures forall id :: OwnerOf(c, id) == None && TokenUri(c, id) == None
    ensures Valid(c)
  {
    Contract(1, map[], map[], map[], map[], name, symbol)
  }

  /** `mint`: open to every caller, so the caller is not a parameter. */
  function Mint(s: Contract, to: AccountId, uri: string): (r: Reply<Contract, TokenId>)
    ensures r.ret == s.nextTokenId && r.state.nextTokenId == s.nextTokenId + 1
    ensures OwnerOf(r.state, r.ret) == Some(to) && TokenUri(r.state, r.ret) == Some(uri)
    ensures BalanceOf(r.state, to) == BalanceOf(s, to) + 1
    ensures TokensOfOwner(r.state, to) == TokensOfOwner(s, to) + [r.ret]
    ensures forall a :: a != to ==> BalanceOf(r.state, a) == BalanceOf(s, a) && TokensOfOwner(r.state, a) == TokensOfOwner(s, a)
    ensures forall id :: id != r.ret ==> OwnerOf(r.state, id) == OwnerOf(s, id) && TokenUri(r.state, id) == TokenUri(s, id)
  {
    var id := s.nextTokenId;
    Reply(s.(tokenOwner := s.tokenOwner[id := to],
             tokenUri := s.tokenUri[id := uri],
             balances := Credit(s.balances, to),
             ownedTokens := Push(s.ownedTokens, to, id),
             nextTokenId := id + 1),
          id)
  }

  /** `transfer`: only the current owner may move a token. */
  function Transfer(s: Contract, caller: AccountId, to: AccountId, id: TokenId): (r: Reply<Contract, bool>)
    ensures r.ret <==> OwnerOf(s, id) == Some(caller)
    ensures !r.ret ==> r.state == s
    ensures r.ret ==> OwnerOf(r.state, id) == Some(to)
    ensures forall other :: other != id ==> OwnerOf(r.state, other) == OwnerOf(s, other)
    ensures r.state.tokenUri == s.tokenUri && r.state.nextTokenId == s.nextTokenId
  {
    if id !in s.tokenOwner then Reply(s, false)
    else
      var owner := s.tokenOwner[id];
      if owner != caller then Reply(s, false)
      else
        Reply(s.(ownedTokens := Push(Unlist(s.ownedTokens, owner, id), to, id),
                 balances := Credit(Debit(s.balances, owner), to),
                 tokenOwner := s.tokenOwner[id := to]),
              true)
  }

  // The invariant

  /** `mint` never overwrites an existing token and keeps the ledger consistent. */
  lemma MintKeepsValid(s: Contract, to: AccountId, uri: string)
    requires Valid(s)
    ensures var r := Mint(s, to, uri);
      OwnerOf(s, r.ret) == None && TokenUri(s, r.ret) == None && Valid(r.state)
  {
    assert s.nextTokenId !in s.tokenOwner;
    IssueKeepsBalances(s.tokenOwner, s.balances, s.nextTokenId, to);
    IssueKeepsLists(s.tokenOwner, s.ownedTokens, s.nextTokenId, to);
  }

  lemma TransferKeepsValid(s: Contract, caller: AccountId, to: AccountId, id: TokenId)
    requires Valid(s)
    ensures Valid(Transfer(s, caller, to, id).state)
  {
    if Transfer(s, caller, to, id).ret {
      MoveKeepsBalances(s.tokenOwner, s.balances, id, to);
      MoveKeepsLists(s.tokenOwner, s.ownedTokens, id, to);
    }
  }

  /** Ids never allocated (0, and the counter and above) have no owner and no URI. */
  lemma UnmintedIsAbsent(s: Contract, id: TokenId)
    requires Valid(s) && (id == 0 || id >= s.nextTokenId)
    ensures OwnerOf(s, id) == None && TokenUri(s, id) == None
  {
  }

  /** A successful `transfer` moves one unit of balance and the id's list entry from the
      caller to `to`; every other account is untouched. */
  lemma TransferEffects(s: Contract, caller: AccountId, to: AccountId, id: TokenId)
    requires Valid(s)
    requires Transfer(s, caller, to, id).ret
    ensures var r := Transfer(s, caller, to, id).state;
      && BalanceOf(s, caller) >= 1
      && (caller != to ==> BalanceOf(r, caller) == BalanceOf(s, caller) - 1 && BalanceOf(r, to) == BalanceOf(s, to) + 1)
      && (caller == to ==> BalanceOf(r, to) == BalanceOf(s, to) && TokensOfOwner(r, to) == Retain(TokensOfOwner(s, to), id) + [id])
      && (caller != to ==> TokensOfOwner(r, caller) == Retain(TokensOfOwner(s, caller), id)
                           && TokensOfOwner(r, to) == TokensOfOwner(s, to) + [id])
      && id !in Retain(TokensOfOwner(s, caller), id)
      && |Retain(TokensOfOwner(s, caller), id)| == |TokensOfOwner(s, caller)| - 1
      && (forall a :: a != caller && a != to ==> BalanceOf(r, a) == BalanceOf(s, a) && TokensOfOwner(r, a) == TokensOfOwner(s, a))
  {
    assert id in OwnedBy(s.tokenOwner, caller);
    assert caller in s.balances by {
      assert Balance(s.balances, caller) == |OwnedBy(s.tokenOwner, caller)| > 0;
    }
    assert id in TokensOfOwner(s, caller);
  }

  // Every reachable state is consistent

  datatype Message =
    | MintMsg(to: AccountId, uri: string)
    | TransferMsg(caller: AccountId, to: AccountId, id: TokenId)

  function Step(s: Contract, m: Message): Contract
  {
    match m
    case MintMsg(to, uri) => Mint(s, to, uri).state
    case TransferMsg(caller, to, id) => Transfer(s, caller, to, id).state
  }

  function Run(s: Contract, ms: seq<Message>): Contract
    decreases |ms|
  {
    if |ms| == 0 then s else Run(Step(s, ms[0]), ms[1..])
  }

  /** Any sequence of messages keeps the ledger consistent. */
  lemma {:induction false} RunKeepsValid(s: Contract, ms: seq<Message>)
    requires Valid(s)
    ensures Valid(Run(s, ms))
    decreases |ms|
  {
    if |ms| > 0 {
      match ms[0] {
        case MintMsg(to, uri) => MintKeepsValid(s, to, uri);
        case TransferMsg(caller, to, id) => TransferKeepsValid(s, caller, to, id);
      }
      RunKeepsValid(Step(s, ms[0]), ms[1..]);
    }
  }

  /** In every state reachable from deployment, balances are the owned-list lengths
      and no id is listed for two accounts. */
  lemma ReachableBalanceIsListLength(name: string, symbol: string, ms: seq<Message>, a: AccountId, b: AccountId, id: TokenId)
    ensures var s := Run(New(name, symbol), ms);
      && Valid(s)
      && BalanceOf(s, a) == |TokensOfOwner(s, a)|
      && (a != b ==> !(id in TokensOfOwner(s, a) && id in TokensOfOwner(s, b)))
  {
    var s := Run(New(name, symbol), ms);
    RunKeepsValid(New(name, symbol), ms);
    ListLengthIsBalance(s.tokenOwner, s.balances, s.ownedTokens, a);
    if a != b {
      ListsDisjoint(s.tokenOwner, s.ownedTokens, a, b, id);
    }
  }
}
