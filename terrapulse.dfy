/**
 * The marketplace state machine of the TerraPulse canister: a store of users,
 * NFTs and marketplace listings, the four update operations that change it
 * (register, mint, list for sale, purchase) and the three read-only queries.
 *
 * The environment's contributions to each call (the caller principal, the
 * clock, the freshly generated NFT id and the transaction hash) are passed in
 * as parameters.
 */
module TerraPulse {
  import opened Types

  /** The authorisation gate: every principal except the anonymous one passes. */
  function EnsureAuthorized(principal: Principal): (r: Result<()>)
    ensures r.Err? <==> principal == ANONYMOUS
    ensures r.Err? ==> r.error == NotAuthorized
  {
    if principal == ANONYMOUS then Err(NotAuthorized) else Ok(())
  }

  /** Reward points for a purchase at `price`: one percent, rounded down. */
  function CalculateRewards(price: U64): (points: U64)
    ensures points * 100 <= price < points * 100 + 100
  {
    price / 100
  }

  /** Truncation at work: 250 earns 2 points and 99 earns none. */
  lemma RewardsTruncate()
    ensures CalculateRewards(250) == 2 && CalculateRewards(99) == 0
  {
  }

  /** The effect of `retain(|x| x != id)` on a list of NFT ids. */
  function Without(ids: seq<string>, id: string): (r: seq<string>)
    ensures forall x :: x in r <==> x in ids && x != id
    ensures |r| <= |ids|
  {
    if ids == [] then []
    else if ids[0] == id then Without(ids[1..], id)
    else [ids[0]] + Without(ids[1..], id)
  }

  /** Removal distributes over concatenation, so the kept ids stay in their order. */
  lemma {:induction false} WithoutAppend(a: seq<string>, b: seq<string>, id: string)
    ensures Without(a + b, id) == Without(a, id) + Without(b, id)
  {
    if a == [] {
      assert a + b == b;
    } else {
      assert (a + b)[0] == a[0];
      assert (a + b)[1..] == a[1..] + b;
      WithoutAppend(a[1..], b, id);
    }
  }

  /** Every occurrence of `id` goes, and every other id keeps its multiplicity. */
  lemma {:induction false} WithoutCounts(ids: seq<string>, id: string)
    ensures multiset(Without(ids, id)) == multiset(ids)[id := 0]
  {
    if ids != [] {
      WithoutCounts(ids[1..], id);
      assert ids == [ids[0]] + ids[1..];
    }
  }

  /** Removing an id that is not in the list leaves the list as it is. */
  lemma {:induction false} WithoutAbsent(ids: seq<string>, id: string)
    requires id !in ids
    ensures Without(ids, id) == ids
  {
    if ids != [] {
      WithoutAbsent(ids[1..], id);
    }
  }

  /** The buyer's profile after a purchase: the NFT is adopted and rewards are credited. */
  function Credit(profile: User, nftId: string, price: U64): User {
    profile.(adoptedNfts := profile.adoptedNfts + [nftId],
             rewardsPoints := profile.rewardsPoints + CalculateRewards(price))
  }

  /** The seller's profile after a sale: the NFT is no longer among the adopted ones. */
  function Release(profile: User, nftId: string): User {
    profile.(adoptedNfts := Without(profile.adoptedNfts, nftId))
  }

  /**
   * The users map after a sale of `nftId` from `seller` to `buyer` at `price`:
   * the buyer's record is updated first, then the seller's; a missing record
   * is skipped.
   */
  function RecordSale(users: map<Principal, User>, buyer: Principal, seller: Principal,
                      nftId: string, price: U64): (r: map<Principal, User>)
    ensures r.Keys == users.Keys
    ensures forall p :: p in users && p != buyer && p != seller ==> r[p] == users[p]
    ensures forall p :: p in users ==>
      r[p] == users[p].(adoptedNfts := r[p].adoptedNfts, rewardsPoints := r[p].rewardsPoints)
    ensures buyer in users ==>
      r[buyer].rewardsPoints == users[buyer].rewardsPoints + CalculateRewards(price)
    ensures buyer in users && buyer != seller ==>
      r[buyer].adoptedNfts == users[buyer].adoptedNfts + [nftId]
    ensures seller in users && seller != buyer ==>
      r[seller].rewardsPoints == users[seller].rewardsPoints
    ensures seller in users ==>
      r[seller].adoptedNfts == Without(users[seller].adoptedNfts, nftId)
    ensures buyer in users && buyer != seller ==> nftId in r[buyer].adoptedNfts
    ensures seller in users ==> nftId !in r[seller].adoptedNfts
  {
    var credited := if buyer in users then users[buyer := Credit(users[buyer], nftId, price)] else users;
    if seller in credited then
      WithoutAppend(users[seller].adoptedNfts, [nftId], nftId);
      credited[seller := Release(credited[seller], nftId)]
    else
      credited
  }

  /** A fresh NFT as minted by `caller`: owned, unlisted, with its mint record. */
  function Minted(caller: Principal, metadata: NFTMetadata, entityType: EntityType,
                  nftId: string, now: U64, txHash: string): NFT
  {
    NFT(nftId, entityType, metadata, Some(caller), None, now,
        [Transaction(Mint, ANONYMOUS, caller, 0, now, txHash)],
        ConservationData(LeastConcern, Unknown, [], [], now))
  }

  /** An NFT stored under `id` names that id and is owned by the recipient of its last transaction. */
  predicate Provenance(id: string, nft: NFT) {
    && nft.id == id
    && |nft.transactionHistory| > 0
    && nft.owner == Some(nft.transactionHistory[|nft.transactionHistory| - 1].to)
  }

  /** The canister's stable state: three maps, updated in place by the update calls. */
  class Canister {
    var users: map<Principal, User>
    var nfts: map<string, NFT>
    var listings: map<string, U64>

    /**
     * The invariant of the store: every record is filed under its own key, every
     * NFT has an owner recorded by its history, and a listing exists for an id
     * exactly when that NFT has a price, with the same value.
     */
    ghost predicate Valid()
      reads this
    {
      && (forall p :: p in users ==> users[p].principalId == p)
      && (forall id :: id in nfts ==> Provenance(id, nfts[id]))
      && (forall id :: id in listings <==> id in nfts && nfts[id].price.Some?)
      && (forall id :: id in listings ==> nfts[id].price == Some(listings[id]))
    }

    constructor ()
      ensures users == map[] && nfts == map[] && listings == map[]
      ensures Valid()
    {
      users, nfts, listings := map[], map[], map[];
    }

    method RegisterUser(caller: Principal, username: string, email: Option<string>, now: U64)
      returns (r: Result<Principal>)
      modifies this`users
      ensures caller == ANONYMOUS ==> r == Err(NotAuthorized) && users == old(users)
      ensures caller != ANONYMOUS && caller in old(users) ==>
        r == Err(InvalidOperation) && users == old(users)
      ensures caller != ANONYMOUS && caller !in old(users) ==>
        && r == Ok(caller)
        && users == old(users)[caller := User(caller, username, email, [], 0, now, now, None, [])]
      ensures old(Valid()) ==> Valid()
    {
      if caller == ANONYMOUS {
        return Err(NotAuthorized);
      }
      if caller in users {
        return Err(InvalidOperation);
      }
      var newUser := User(caller, username, email, [], 0, now, now, None, []);
      users := users[caller := newUser];
      r := Ok(caller);
    }

    method MintNft(caller: Principal, metadata: NFTMetadata, entityType: EntityType,
                   nftId: string, now: U64, txHash: string)
      returns (r: Result<string>)
      modifies this`nfts
      ensures caller == ANONYMOUS ==> r == Err(NotAuthorized) && nfts == old(nfts)
      ensures caller != ANONYMOUS ==>
        r == Ok(nftId) && nfts == old(nfts)[nftId := Minted(caller, metadata, entityType, nftId, now, txHash)]
      ensures r.Ok? ==>
        && nfts[nftId].owner == Some(caller)
        && nfts[nftId].price == None
        && nfts[nftId].transactionHistory == [Transaction(Mint, ANONYMOUS, caller, 0, now, txHash)]
        && nfts[nftId].conservationData.status == LeastConcern
        && nfts[nftId].conservationData.populationTrend == Unknown
      ensures old(Valid()) && nftId !in old(nfts) ==> Valid()
    {
      var authorized := EnsureAuthorized(caller);
      if authorized.Err? {
        return Err(authorized.error);
      }
      var nft := Minted(caller, metadata, entityType, nftId, now, txHash);
      nfts := nfts[nftId := nft];
      r := Ok(nftId);
    }

    method ListNftForSale(caller: Principal, nftId: string, price: U64) returns (r: Result<()>)
      modifies this`nfts, this`listings
      ensures caller == ANONYMOUS ==> r == Err(NotAuthorized)
      ensures caller != ANONYMOUS && nftId !in old(nfts) ==> r == Err(NFTNotFound)
      ensures caller != ANONYMOUS && nftId in old(nfts) && old(nfts)[nftId].owner != Some(caller) ==>
        r == Err(NotAuthorized)
      ensures r.Err? ==> nfts == old(nfts) && listings == old(listings)
      ensures caller != ANONYMOUS && nftId in old(nfts) && old(nfts)[nftId].owner == Some(caller) ==>
        && r == Ok(())
        && nfts == old(nfts)[nftId := old(nfts)[nftId].(price := Some(price))]
        && listings == old(listings)[nftId := price]
      ensures old(Valid()) ==> Valid()
    {
      r := EnsureAuthorized(caller);
      if r.Err? {
        return;
      }
      if nftId !in nfts {
        return Err(NFTNotFound);
      }
      var nft := nfts[nftId];
      if nft.owner != Some(caller) {
        return Err(NotAuthorized);
      }
      nfts := nfts[nftId := nft.(price := Some(price))];
      listings := listings[nftId := price];
      r := Ok(());
    }

    method PurchaseNft(buyer: Principal, nftId: string, now: U64, txHash: string) returns (r: Result<()>)
      modifies this
      ensures buyer == ANONYMOUS ==> r == Err(NotAuthorized)
      ensures buyer != ANONYMOUS && nftId !in old(nfts) ==> r == Err(NFTNotFound)
      ensures buyer != ANONYMOUS && nftId in old(nfts) && old(nfts)[nftId].price.None? ==>
        r == Err(InvalidOperation)
      ensures buyer != ANONYMOUS && nftId in old(nfts) && old(nfts)[nftId].price.Some?
              && old(nfts)[nftId].owner.None? ==>
        r == Err(SystemError)
      ensures buyer != ANONYMOUS && nftId in old(nfts) && old(nfts)[nftId].price.Some?
              && old(nfts)[nftId].owner.Some? ==>
        r == Ok(())
      ensures r.Err? ==> users == old(users) && nfts == old(nfts) && listings == old(listings)
      ensures r.Ok? ==>
        var sold := old(nfts)[nftId];
        var seller := sold.owner.value;
        var price := sold.price.value;
        && nfts == old(nfts)[nftId := sold.(owner := Some(buyer), price := None,
                                            transactionHistory := sold.transactionHistory
                                              + [Transaction(Sale, seller, buyer, price, now, txHash)])]
        && listings == old(listings) - {nftId}
        && users == RecordSale(old(users), buyer, seller, nftId, price)
      ensures r.Ok? ==> nftId !in listings && GetNft(nftId).Ok? && GetNft(nftId).value.owner == Some(buyer)
      ensures old(Valid()) ==> Valid() && r != Err(SystemError)
    {
      r := EnsureAuthorized(buyer);
      if r.Err? {
        return;
      }
      if nftId !in nfts {
        return Err(NFTNotFound);
      }
      var nft := nfts[nftId];
      if nft.price.None? {
        return Err(InvalidOperation);
      }
      var price := nft.price.value;
      if nft.owner.None? {
        return Err(SystemError);
      }
      var seller := nft.owner.value;
      var sale := Transaction(Sale, seller, buyer, price, now, txHash);
      nfts := nfts[nftId := nft.(owner := Some(buyer), price := None,
                                 transactionHistory := nft.transactionHistory + [sale])];
      listings := listings - {nftId};
      UpdateUserRecords(buyer, seller, nftId, price);
      r := Ok(());
    }

    /** Credits the buyer and releases the NFT from the seller's list, in that order. */
    method UpdateUserRecords(buyer: Principal, seller: Principal, nftId: string, price: U64)
      modifies this`users
      ensures users == RecordSale(old(users), buyer, seller, nftId, price)
    {
      if buyer in users {
        var profile := users[buyer];
        users := users[buyer := profile.(adoptedNfts := profile.adoptedNfts + [nftId],
                                         rewardsPoints := profile.rewardsPoints + CalculateRewards(price))];
      }
      if seller in users {
        var profile := users[seller];
        users := users[seller := profile.(adoptedNfts := Without(profile.adoptedNfts, nftId))];
      }
    }

    function GetNft(nftId: string): (r: Result<NFT>)
      reads this
      ensures r.Ok? <==> nftId in nfts
      ensures r.Ok? ==> r.value == nfts[nftId]
      ensures r.Err? ==> r.error == NFTNotFound
    {
      if nftId in nfts then Ok(nfts[nftId]) else Err(NFTNotFound)
    }

    function GetUserProfile(principalId: Principal): (r: Result<User>)
      reads this
      ensures r.Ok? <==> principalId in users
      ensures r.Ok? ==> r.value == users[principalId]
      ensures r.Err? ==> r.error == UserNotFound
    {
      if principalId in users then Ok(users[principalId]) else Err(UserNotFound)
    }

    /** Every listing exactly once, in an unspecified (hash-map) order. */
    method GetMarketplaceListings() returns (entries: seq<(string, U64)>)
      ensures |entries| == |listings|
      ensures forall i :: 0 <= i < |entries| ==>
        entries[i].0 in listings && listings[entries[i].0] == entries[i].1
      ensures forall id :: id in listings ==> (id, listings[id]) in entries
      ensures forall i, j :: 0 <= i < j < |entries| ==> entries[i].0 != entries[j].0
    {
      entries := [];
      var rest := listings.Keys;
      while rest != {}
        invariant rest <= listings.Keys
        invariant |entries| + |rest| == |listings.Keys|
        invariant forall i :: 0 <= i < |entries| ==>
          entries[i].0 in listings && entries[i].0 !in rest && listings[entries[i].0] == entries[i].1
        invariant forall id :: id in listings && id !in rest ==> (id, listings[id]) in entries
        invariant forall i, j :: 0 <= i < j < |entries| ==> entries[i].0 != entries[j].0
        decreases rest
      {
        var id :| id in rest;
        entries := entries + [(id, listings[id])];
        rest := rest - {id};
      }
    }
  }
}
