/** Bookkeeping shared by the NFT ledger contracts.

    Every contract keeps a map from token id to owner and a map from account to
    balance; three of them also keep, per account, the list of owned token ids.
    This module defines the default-valued storage lookups those contracts use,
    the storage updates they perform when a token is issued or changes hands,
    and the consistency the contracts rely on:

    - the balance of an account is the number of token ids it owns;
    - the owned-token list of an account is a duplicate-free enumeration of
      exactly those ids.

    The preservation lemmas at the end are the two moves every contract makes:
    issuing a fresh id, and reassigning an existing id to a new owner.
 */
module Ledger {

  /** An on-chain account (a 32-byte public key); only its identity matters here. */
  datatype AccountId = AccountId(key: nat)

  /** Token ids are `u32` on chain; the counter-based contracts never wrap here. */
  type TokenId = nat

  datatype Option<+T> = None | Some(value: T)

  /** The state a contract message leaves behind, and the value it returns. */
  datatype Reply<+S, +R> = Reply(state: S, ret: R)

  /** A storage read: `map.get(&k)`. */
  function Get<K, V>(m: map<K, V>, k: K): Option<V>
  {
    if k in m then Some(m[k]) else None
  }

  /** `balances.get(&a).unwrap_or(0)`: accounts never credited have balance 0. */
  function Balance(balances: map<AccountId, int>, a: AccountId): int
  {
    if a in balances then balances[a] else 0
  }

  /** `owned_tokens.get(&a).unwrap_or_default()`: the empty list when absent. */
  function ListOf(lists: map<AccountId, seq<TokenId>>, a: AccountId): seq<TokenId>
  {
    if a in lists then lists[a] else []
  }

  /** Add one to `a`'s balance, creating the entry at 0 first if it is absent. */
  function Credit(balances: map<AccountId, int>, a: AccountId): (r: map<AccountId, int>)
    ensures Balance(r, a) == Balance(balances, a) + 1
    ensures forall b :: b != a ==> Balance(r, b) == Balance(balances, b)
  {
    balances[a := Balance(balances, a) + 1]
  }

  /** Subtract one from `a`'s balance only if `a` has an entry; otherwise do nothing. */
  function Debit(balances: map<AccountId, int>, a: AccountId): (r: map<AccountId, int>)
    ensures a in balances ==> Balance(r, a) == Balance(balances, a) - 1
    ensures a !in balances ==> r == balances
    ensures forall b :: b != a ==> Balance(r, b) == Balance(balances, b)
  {
    if a in balances then balances[a := balances[a] - 1] else balances
  }

  /** Append `id` to `a`'s list, starting from the empty list if `a` has none. */
  function Push(lists: map<AccountId, seq<TokenId>>, a: AccountId, id: TokenId): (r: map<AccountId, seq<TokenId>>)
    ensures ListOf(r, a) == ListOf(lists, a) + [id]
    ensures forall b :: b != a ==> ListOf(r, b) == ListOf(lists, b)
  {
    lists[a := ListOf(lists, a) + [id]]
  }

  /** Drop every occurrence of `id` from `a`'s list, only if `a` has a list. */
  function Unlist(lists: map<AccountId, seq<TokenId>>, a: AccountId, id: TokenId): (r: map<AccountId, seq<TokenId>>)
    ensures ListOf(r, a) == Retain(ListOf(lists, a), id)
    ensures forall b :: b != a ==> ListOf(r, b) == ListOf(lists, b)
  {
    if a in lists then lists[a := Retain(lists[a], id)] else lists
  }

  /** No id occurs twice. */
  predicate NoDup(xs: seq<TokenId>)
  {
    forall i, j | 0 <= i < j < |xs| :: xs[i] != xs[j]
  }

  /** The distinct ids of a list. */
  function Elems(xs: seq<TokenId>): set<TokenId>
  {
    set x | x in xs
  }

  /** `xs.retain(|&t| t != x)`: keep, in order, every element different from `x`. */
  function Retain(xs: seq<TokenId>, x: TokenId): (r: seq<TokenId>)
    ensures forall y :: y in r <==> y in xs && y != x
    ensures x !in xs ==> r == xs
    ensures NoDup(xs) ==> NoDup(r)
    ensures NoDup(xs) && x in xs ==> |r| == |xs| - 1
  {
    if |xs| == 0 then []
    else if xs[0] == x then Retain(xs[1..], x)
    else
      var rest := Retain(xs[1..], x);
      assert NoDup(xs) ==> NoDup([xs[0]] + rest) by {
        if NoDup(xs) {
          NoDupTail(xs);
          NoDupCons(xs[0], rest);
        }
      }
      [xs[0]] + rest
  }

  /** Dropping the head of a duplicate-free list leaves a duplicate-free list without it. */
  lemma NoDupTail(xs: seq<TokenId>)
    requires NoDup(xs) && |xs| > 0
    ensures NoDup(xs[1..]) && xs[0] !in xs[1..]
  {
    var t := xs[1..];
    forall i, j | 0 <= i < j < |t| ensures t[i] != t[j] {
      assert t[i] == xs[i + 1] && t[j] == xs[j + 1];
    }
    forall k | 0 <= k < |t| ensures t[k] != xs[0] {
      assert t[k] == xs[k + 1];
    }
  }

  /** On a duplicate-free list holding `x`, retaining removes exactly the one position of `x`
      and keeps every other element in its order. */
  lemma {:induction false} RetainDropsOne(xs: seq<TokenId>, x: TokenId)
    requires NoDup(xs) && x in xs
    ensures exists k :: 0 <= k < |xs| && xs[k] == x && Retain(xs, x) == xs[..k] + xs[k + 1..]
  {
    NoDupTail(xs);
    if xs[0] == x {
      assert Retain(xs, x) == xs[..0] + xs[1..];
    } else {
      RetainDropsOne(xs[1..], x);
      var k :| 0 <= k < |xs[1..]| && xs[1..][k] == x && Retain(xs[1..], x) == xs[1..][..k] + xs[1..][k + 1..];
      ConsSplit(xs, k);
      assert Retain(xs, x) == xs[..k + 1] + xs[k + 2..];
    }
  }

  /** Dropping position `k` of the tail and putting the head back drops position `k + 1`. */
  lemma ConsSplit(xs: seq<TokenId>, k: nat)
    requires k + 1 < |xs|
    ensures [xs[0]] + (xs[1..][..k] + xs[1..][k + 1..]) == xs[..k + 1] + xs[k + 2..]
  {
    assert xs[..k + 1] == [xs[0]] + xs[1..][..k];
    assert xs[k + 2..] == xs[1..][k + 1..];
  }

  /** Putting a new id in front of a duplicate-free list keeps it duplicate-free. */
  lemma NoDupCons(h: TokenId, t: seq<TokenId>)
    requires NoDup(t) && h !in t
    ensures NoDup([h] + t)
  {
    var xs := [h] + t;
    forall i, j | 0 <= i < j < |xs| ensures xs[i] != xs[j] {
      assert xs[j] == t[j - 1];
      if i > 0 {
        assert xs[i] == t[i - 1];
      }
    }
  }

  /** The ids `owners` assigns to `a`. */
  function OwnedBy(owners: map<TokenId, AccountId>, a: AccountId): set<TokenId>
  {
    set id | id in owners && owners[id] == a
  }

  /** Every account's stored balance is the number of ids it owns. */
  ghost predicate BalancesMatch(owners: map<TokenId, AccountId>, balances: map<AccountId, int>)
  {
    forall a :: Balance(balances, a) == |OwnedBy(owners, a)|
  }

  /** Every account's owned-token list is a duplicate-free enumeration of exactly the ids it owns. */
  ghost predicate ListsMatch(owners: map<TokenId, AccountId>, lists: map<AccountId, seq<TokenId>>)
  {
    && (forall a :: NoDup(ListOf(lists, a)))
    && (forall a, id :: id in ListOf(lists, a) <==> id in owners && owners[id] == a)
  }

  /** A duplicate-free list is as long as its set of elements is large. */
  lemma {:induction false} NoDupCard(xs: seq<TokenId>)
    requires NoDup(xs)
    ensures |Elems(xs)| == |xs|
  {
    if |xs| > 0 {
      var t := xs[1..];
      NoDupTail(xs);
      NoDupCard(t);
      assert xs == [xs[0]] + t;
      assert Elems(xs) == {xs[0]} + Elems(t);
    }
  }

  /** Reassigning `id` to `to` adds it to `to`'s holdings and removes it from everyone else's. */
  lemma OwnedByAfterAssign(owners: map<TokenId, AccountId>, id: TokenId, to: AccountId, a: AccountId)
    ensures OwnedBy(owners[id := to], a) == if a == to then OwnedBy(owners, a) + {id} else OwnedBy(owners, a) - {id}
  {
  }

  /** When balances and lists both match ownership, the balance is the length of the owned list. */
  lemma ListLengthIsBalance(owners: map<TokenId, AccountId>, balances: map<AccountId, int>,
                            lists: map<AccountId, seq<TokenId>>, a: AccountId)
    requires BalancesMatch(owners, balances)
    requires ListsMatch(owners, lists)
    ensures Balance(balances, a) == |ListOf(lists, a)|
  {
    var xs := ListOf(lists, a);
    NoDupCard(xs);
    assert Elems(xs) == OwnedBy(owners, a);
  }

  /** Owned lists of two distinct accounts never share an id. */
  lemma ListsDisjoint(owners: map<TokenId, AccountId>, lists: map<AccountId, seq<TokenId>>,
                      a: AccountId, b: AccountId, id: TokenId)
    requires ListsMatch(owners, lists)
    requires a != b
    ensures !(id in ListOf(lists, a) && id in ListOf(lists, b))
  {
    if id in ListOf(lists, a) {
      assert owners[id] == a;
    }
  }

  /** Issuing a fresh id to `to` keeps balances matched. */
  lemma IssueKeepsBalances(owners: map<TokenId, AccountId>, balances: map<AccountId, int>,
                           id: TokenId, to: AccountId)
    requires BalancesMatch(owners, balances)
    requires id !in owners
    ensures BalancesMatch(owners[id := to], Credit(balances, to))
  {
    forall a ensures Balance(Credit(balances, to), a) == |OwnedBy(owners[id := to], a)| {
      OwnedByAfterAssign(owners, id, to, a);
      assert id !in OwnedBy(owners, a);
    }
  }

  /** Reassigning an existing id from its owner to `to`, debiting the old owner and then
      crediting `to`, keeps balances matched (also when `to` already owns it). */
  lemma MoveKeepsBalances(owners: map<TokenId, AccountId>, balances: map<AccountId, int>,
                          id: TokenId, to: AccountId)
    requires BalancesMatch(owners, balances)
    requires id in owners
    ensures BalancesMatch(owners[id := to], Credit(Debit(balances, owners[id]), to))
  {
    var from := owners[id];
    assert id in OwnedBy(owners, from);
    assert from in balances by {
      assert Balance(balances, from) == |OwnedBy(owners, from)| > 0;
    }
    var after := Credit(Debit(balances, from), to);
    forall a ensures Balance(after, a) == |OwnedBy(owners[id := to], a)| {
      OwnedByAfterAssign(owners, id, to, a);
      if a == to && a == from {
        assert OwnedBy(owners, a) + {id} == OwnedBy(owners, a);
      } else if a == to {
        assert id !in OwnedBy(owners, a);
      } else if a == from {
        assert |OwnedBy(owners, a) - {id}| == |OwnedBy(owners, a)| - 1;
      } else {
        assert id !in OwnedBy(owners, a);
      }
    }
  }

  /** Issuing a fresh id to `to` and appending it to `to`'s list keeps the lists matched. */
  lemma IssueKeepsLists(owners: map<TokenId, AccountId>, lists: map<AccountId, seq<TokenId>>,
                        id: TokenId, to: AccountId)
    requires ListsMatch(owners, lists)
    requires id !in owners
    ensures ListsMatch(owners[id := to], Push(lists, to, id))
  {
    var after := Push(lists, to, id);
    forall a ensures NoDup(ListOf(after, a)) {
      if a == to {
        var xs := ListOf(lists, to);
        assert id !in xs;
        assert ListOf(after, a) == xs + [id];
      }
    }
  }

  /** Reassigning an existing id to `to`, removing it from the old owner's list and appending
      it to `to`'s, keeps the lists matched (also when `to` already owns it). */
  lemma MoveKeepsLists(owners: map<TokenId, AccountId>, lists: map<AccountId, seq<TokenId>>,
                       id: TokenId, to: AccountId)
    requires ListsMatch(owners, lists)
    requires id in owners
    ensures ListsMatch(owners[id := to], Push(Unlist(lists, owners[id], id), to, id))
  {
    var from := owners[id];
    var mid := Unlist(lists, from, id);
    var after := Push(mid, to, id);
    forall a ensures NoDup(ListOf(after, a)) {
      if a == to {
        var xs := ListOf(mid, to);
        assert id !in xs;
        assert ListOf(after, a) == xs + [id];
      }
    }
  }
}
