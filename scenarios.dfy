/**
 * Client walk-throughs of the canister: what a caller can conclude from the
 * operations' contracts alone, starting from the empty store.
 */
module Scenarios {
  import opened Types
  import opened TerraPulse

  /**
   * Seller `a` mints `x` and lists it at 500; buyer `b` purchases it. The
   * listing appears and then disappears, and the NFT changes hands with a sale
   * record. (User records play no part in this; SaleUserRecords follows them.)
   */
  method SaleWalkthrough(a: Principal, b: Principal, x: string, metadata: NFTMetadata,
                         entityType: EntityType, now: U64, mintHash: string, saleHash: string)
    returns (listedBefore: seq<(string, U64)>, listedAfter: seq<(string, U64)>, item: Result<NFT>)
    requires a != ANONYMOUS && b != ANONYMOUS && a != b
    ensures listedBefore == [(x, 500)]
    ensures listedAfter == []
    ensures item.Ok? && item.value.owner == Some(b) && item.value.price == None
    ensures item.value.transactionHistory ==
      [Transaction(Mint, ANONYMOUS, a, 0, now, mintHash), Transaction(Sale, a, b, 500, now, saleHash)]
  {
    var c := new Canister();
    var minted := c.MintNft(a, metadata, entityType, x, now, mintHash);
    var listed := c.ListNftForSale(a, x, 500);
    assert c.listings == map[x := 500];
    listedBefore := c.GetMarketplaceListings();
    var purchased := c.PurchaseNft(b, x, now, saleHash);
    assert purchased.Ok?;
    assert c.listings == map[];
    listedAfter := c.GetMarketplaceListings();
    item := c.GetNft(x);
  }

  /**
   * The same sale seen from the users: the seller no longer holds `x`, the
   * buyer holds it and is credited 500 / 100 = 5 points.
   */
  method SaleUserRecords(a: Principal, b: Principal, x: string, metadata: NFTMetadata,
                         entityType: EntityType, now: U64, mintHash: string, saleHash: string)
    returns (seller: Result<User>, buyer: Result<User>)
    requires a != ANONYMOUS && b != ANONYMOUS && a != b
    ensures seller.Ok? && x !in seller.value.adoptedNfts && seller.value.rewardsPoints == 0
    ensures buyer.Ok? && buyer.value.adoptedNfts == [x] && buyer.value.rewardsPoints == 5
  {
    var c := new Canister();
    var registeredA := c.RegisterUser(a, "seller", None, now);
    var registeredB := c.RegisterUser(b, "buyer", None, now);
    ghost var registered := c.users;
    assert a in registered && registered[a].rewardsPoints == 0;
    assert b in registered && registered[b].rewardsPoints == 0 && registered[b].adoptedNfts == [];
    var minted := c.MintNft(a, metadata, entityType, x, now, mintHash);
    var listed := c.ListNftForSale(a, x, 500);
    var purchased := c.PurchaseNft(b, x, now, saleHash);
    assert purchased.Ok?;
    assert c.users == RecordSale(registered, b, a, x, 500);
    seller := c.GetUserProfile(a);
    buyer := c.GetUserProfile(b);
  }

  /** Registering twice: the second call is refused and leaves the users unchanged. */
  method RegisterTwice(p: Principal, username: string, first: U64, second: U64)
    returns (r1: Result<Principal>, r2: Result<Principal>,
             afterFirst: map<Principal, User>, afterSecond: map<Principal, User>)
    requires p != ANONYMOUS
    ensures r1 == Ok(p) && r2 == Err(InvalidOperation)
    ensures afterSecond == afterFirst
    ensures p in afterFirst && afterFirst[p].createdAt == first
  {
    var c := new Canister();
    r1 := c.RegisterUser(p, username, None, first);
    afterFirst := c.users;
    r2 := c.RegisterUser(p, username, None, second);
    afterSecond := c.users;
  }

  /**
   * A purchase by a caller without a user record succeeds on the NFT, but no
   * record is created for the buyer and no reward is credited anywhere.
   */
  method UnregisteredBuyer(a: Principal, b: Principal, x: string, metadata: NFTMetadata,
                           entityType: EntityType, now: U64, mintHash: string, saleHash: string)
    returns (purchased: Result<()>, item: Result<NFT>, buyer: Result<User>)
    requires a != ANONYMOUS && b != ANONYMOUS && a != b
    ensures purchased == Ok(())
    ensures item.Ok? && item.value.owner == Some(b)
    ensures buyer == Err(UserNotFound)
  {
    var c := new Canister();
    var minted := c.MintNft(a, metadata, entityType, x, now, mintHash);
    var listed := c.ListNftForSale(a, x, 250);
    purchased := c.PurchaseNft(b, x, now, saleHash);
    item := c.GetNft(x);
    buyer := c.GetUserProfile(b);
  }

  /** A caller other than the owner cannot list, and nothing changes. */
  method NonOwnerCannotList(a: Principal, b: Principal, x: string, metadata: NFTMetadata,
                            entityType: EntityType, now: U64, mintHash: string, price: U64)
    returns (r: Result<()>, listed: seq<(string, U64)>, item: Result<NFT>)
    requires a != ANONYMOUS && a != b
    ensures r == Err(NotAuthorized)
    ensures listed == []
    ensures item.Ok? && item.value.price == None && item.value.owner == Some(a)
  {
    var c := new Canister();
    var minted := c.MintNft(a, metadata, entityType, x, now, mintHash);
    r := c.ListNftForSale(b, x, price);
    listed := c.GetMarketplaceListings();
    item := c.GetNft(x);
  }

  /**
   * Minting under an id that is already in use replaces the stored NFT: the
   * listing of the replaced NFT survives while the new one has no price, so
   * listing coherence no longer holds.
   */
  method MintCollision(a: Principal, b: Principal, x: string, metadata: NFTMetadata,
                       entityType: EntityType, now: U64, firstHash: string, secondHash: string)
    returns (listed: seq<(string, U64)>, item: Result<NFT>)
    requires a != ANONYMOUS && b != ANONYMOUS
    ensures listed == [(x, 5)]
    ensures item.Ok? && item.value.owner == Some(b) && item.value.price == None
  {
    var c := new Canister();
    var first := c.MintNft(a, metadata, entityType, x, now, firstHash);
    var sale := c.ListNftForSale(a, x, 5);
    var second := c.MintNft(b, metadata, entityType, x, now, secondHash);
    assert c.listings == map[x := 5];
    listed := c.GetMarketplaceListings();
    item := c.GetNft(x);
  }
}
