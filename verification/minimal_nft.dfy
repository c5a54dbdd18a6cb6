/** The minimal NFT contract (contracts/minimal_nft/minimal_nft/lib.rs).

    Storage is a `u32` token count and maps from token id to owner and to URI.
    Minting takes the next id with `checked_add(1)` and, when the count is
    already `u32::MAX`, falls back to id 1, overwriting whatever token 1 was.
    There are no balances and no transfers.
 */
module MinimalNft {
  import opened Ledger

  const U32_MAX: int := 0xFFFF_FFFF

  type u32 = x: int | 0 <= x <= U32_MAX

  datatype Contract = Contract(
    tokenCount: u32,
    tokenOwner: map<TokenId, AccountId>,
    tokenUri: map<TokenId, string>)

  /** `u32::checked_add`: the sum when it fits in 32 bits, `None` on overflow. */
  function CheckedAdd(a: u32, b: u32): (r: Option<u32>)
    ensures r.Some? <==> a + b <= U32_MAX
    ensures r.Some? ==> r.value == a + b
  {
    if a + b <= U32_MAX then Some(a + b) else None
  }

  /** The ids minted while the counter never wrapped: exactly 1 through the count,
      each with both an owner and a URI. */
  ghost predicate Valid(s: Contract)
  {
    && s.tokenUri.Keys == s.tokenOwner.Keys
    && (forall id :: id in s.tokenOwner <==> 1 <= id <= s.tokenCount)
  }

  /** What holds in every reachable state, wrapped or not: owners and URIs go together,
      ids lie in 1 through `u32::MAX`, and every id up to the count is minted. */
  ghost predicate Sound(s: Contract)
  {
    && s.tokenUri.Keys == s.tokenOwner.Keys
    && (forall id :: id in s.tokenOwner ==> 1 <= id <= U32_MAX)
    && (forall id :: 1 <= id <= s.tokenCount ==> id in s.tokenOwner)
  }

  // Queries

  function OwnerOf(s: Contract, id: TokenId): Option<AccountId>
  {
    Get(s.tokenOwner, id)
  }

  function TokenUri(s: Contract, id: TokenId): Option<string>
  {
    Get(s.tokenUri, id)
  }

  function TotalSupply(s: Contract): u32
  {
    s.tokenCount
  }

  // Messages

  /** The constructor: no tokens. */
  function New(): (c: Contract)
    ensures TotalSupply(c) == 0
    ensures forall id :: OwnerOf(c, id) == None && TokenUri(c, id) == None
    ensures Valid(c)
  {
    Contract(0, map[], map[])
  }

  /** `mint`: the caller receives the next id, or id 1 once the count cannot grow. */
  function Mint(s: Contract, caller: AccountId, uri: string): (r: Reply<Contract, u32>)
    ensures s.tokenCount < U32_MAX ==> r.ret == s.tokenCount + 1
    ensures s.tokenCount == U32_MAX ==> r.ret == 1
    ensures OwnerOf(r.state, r.ret) == Some(caller) && TokenUri(r.state, r.ret) == Some(uri)
    ensures TotalSupply(r.state) == r.ret
    ensures forall id :: id != r.ret ==> OwnerOf(r.state, id) == OwnerOf(s, id) && TokenUri(r.state, id) == TokenUri(s, id)
  {
    var id := match CheckedAdd(s.tokenCount, 1) case Some(next) => next case None => 1;
    Reply(Contract(id, s.tokenOwner[id := caller], s.tokenUri[id := uri]), id)
  }

  // Invariants

  /** Below `u32::MAX`, minting allocates a fresh id and keeps the minted ids exactly 1 through the count. */
  lemma MintKeepsValid(s: Contract, caller: AccountId, uri: string)
    requires Valid(s) && s.tokenCount < U32_MAX
    ensures var r := Mint(s, caller, uri);
      OwnerOf(s, r.ret) == None && TokenUri(s, r.ret) == None && Valid(r.state)
  {
  }

  /** Every mint, including one at the wrap, keeps the weaker invariant. */
  lemma MintKeepsSound(s: Contract, caller: AccountId, uri: string)
    requires Sound(s)
    ensures Sound(Mint(s, caller, uri).state)
  {
  }

  /** At `u32::MAX` the counter falls back to 1: the mint takes over token 1, which
      already had an owner, and the supply drops to 1 while tokens 2 and up stay minted. */
  lemma MintAtMaxOverwritesTokenOne(s: Contract, caller: AccountId, uri: string)
    requires Valid(s) && s.tokenCount == U32_MAX
    ensures var r := Mint(s, caller, uri);
      && r.ret == 1
      && OwnerOf(s, 1).Some?
      && OwnerOf(r.state, 1) == Some(caller) && TokenUri(r.state, 1) == Some(uri)
      && TotalSupply(r.state) == 1
      && OwnerOf(r.state, 2) == OwnerOf(s, 2) && OwnerOf(r.state, 2).Some?
      && !Valid(r.state)
  {
    var r := Mint(s, caller, uri);
    assert 2 in r.state.tokenOwner;
  }

  // Every reachable state is sound

  function Run(s: Contract, ms: seq<(AccountId, string)>): Contract
    decreases |ms|
  {
    if |ms| == 0 then s else Run(Mint(s, ms[0].0, ms[0].1).state, ms[1..])
  }

  /** Minting any sequence keeps the weaker invariant; with fewer than `u32::MAX` mints from
      deployment, the minted ids are exactly 1 through the number of mints. */
  lemma {:induction false} RunKeepsInvariants(s: Contract, ms: seq<(AccountId, string)>)
    requires Sound(s)
    ensures Sound(Run(s, ms))
    ensures Valid(s) && s.tokenCount + |ms| <= U32_MAX ==>
      Valid(Run(s, ms)) && TotalSupply(Run(s, ms)) == s.tokenCount + |ms|
    decreases |ms|
  {
    if |ms| > 0 {
      MintKeepsSound(s, ms[0].0, ms[0].1);
      if Valid(s) && s.tokenCount < U32_MAX {
        MintKeepsValid(s, ms[0].0, ms[0].1);
      }
      RunKeepsInvariants(Mint(s, ms[0].0, ms[0].1).state, ms[1..]);
    }
  }

  lemma ReachableIsSound(ms: seq<(AccountId, string)>, id: TokenId)
    ensures Sound(Run(New(), ms))
    ensures |ms| <= U32_MAX ==>
      var s := Run(New(), ms);
      TotalSupply(s) == |ms| && (OwnerOf(s, id).Some? <==> 1 <= id <= |ms|) && (TokenUri(s, id).Some? <==> 1 <= id <= |ms|)
  {
    RunKeepsInvariants(New(), ms);
  }

  // The contract's unit test, as a lemma

  lemma MintingWorks(alice: AccountId)
    ensures var r := Mint(New(), alice, "ipfs://test");
      && r.ret == 1
      && TotalSupply(r.state) == 1
      && OwnerOf(r.state, r.ret) == Some(alice)
      && TokenUri(r.state, r.ret) == Some("ipfs://test")
  {
  }
}
