# TerraPulse marketplace canister, modelled in Dafny

TerraPulse is an Internet Computer canister that keeps a registry of users and
collectible records (NFTs for wildlife, eco-hotels and reserves) and a
marketplace on which their owners list them for sale. Its state is three maps:
users keyed by principal, NFTs keyed by id, and marketplace listings mapping an
NFT id to its asking price. Four update calls change that state:

- `register_user` creates a profile for the calling principal.
- `mint_nft` creates an NFT owned by the caller.
- `list_nft_for_sale` puts an owned NFT on the market.
- `purchase_nft` transfers a listed NFT to the caller. It records the sale and
  updates both parties' profiles.

Three queries read the state.

The model has three modules:

- `Types` (`types.dfy`): the records and the error type.
- `TerraPulse` (`terrapulse.dfy`): the pure rules, plus the class `Canister`
  whose three `map` fields are the canister's state.
  - The pure rules are the authorisation gate, the rewards rule, `retain` as
    `Without`, and the users-after-a-sale map `RecordSale`.
  - The update calls are methods that reassign those fields. Each method's
    postcondition gives the whole new state in terms of the old one, and gives
    each error case with its exact condition.
- `Scenarios` (`scenarios.dfy`): client methods. Each starts from an empty
  canister and shows what a caller can conclude from the contracts alone.

`Canister.Valid()` is the store's invariant:

- every user and NFT is filed under its own key;
- every NFT has an owner, and that owner is the recipient of the last
  transaction in its history;
- a listing exists for an id exactly when that NFT's price is `Some`, with the
  same value.

The constructor establishes `Valid()`. `RegisterUser`, `ListNftForSale` and
`PurchaseNft` preserve it. `MintNft` preserves it when the new id is not
already in use. Under `Valid()` a purchase never fails with `SystemError`.

The environment's inputs are method parameters:

- the caller principal (`ic_cdk::caller()`);
- the clock (`ic_cdk::api::time()`);
- the NFT id that `generate_unique_nft_id` would produce;
- the transaction hash that `generate_transaction_hash` would produce.

A principal is a byte sequence. The anonymous principal is the single byte
0x04.

Where documented intent and code differ, the model follows the code:

- A second registration fails with `InvalidOperation`, not a dedicated
  "already exists" error.
- A purchase whose buyer or seller has no user record still succeeds. The
  missing record is skipped, so an unregistered buyer earns no points
  (`Scenarios.UnregisteredBuyer`). The walk-through in which the buyer ends with
  5 points therefore registers the buyer first (`Scenarios.SaleUserRecords`).

## Model

| member | source | states |
|---|---|---|
| `TerraPulse.EnsureAuthorized` | src/terrapulse_backend/src/lib.rs:145-151 | fails exactly when the principal is anonymous, and then with `NotAuthorized` |
| `TerraPulse.CalculateRewards` | src/terrapulse_backend/src/lib.rs:192-195 | the points are the price divided by 100, rounded down: `points * 100 <= price < points * 100 + 100` |
| `TerraPulse.RewardsTruncate` | src/terrapulse_backend/src/lib.rs:192-195 | a price of 250 earns 2 points and a price of 99 earns 0 |
| `TerraPulse.Without` | src/terrapulse_backend/src/lib.rs:184-186 | `retain(id != nft_id)` keeps exactly the ids different from the removed one and never lengthens the list |
| `TerraPulse.WithoutAppend` | src/terrapulse_backend/src/lib.rs:185 | the removal distributes over concatenation, so the kept ids keep their relative order |
| `TerraPulse.WithoutCounts` | src/terrapulse_backend/src/lib.rs:185 | every occurrence of the removed id goes, and every other id keeps its multiplicity |
| `TerraPulse.WithoutAbsent` | src/terrapulse_backend/src/lib.rs:184-186 | removing an id that the list does not contain leaves the list unchanged |
| `TerraPulse.RecordSale` | src/terrapulse_backend/src/lib.rs:173-190 | the buyer's record, if present, gains the NFT id at the end and `price / 100` points. The seller's record, if present, loses every occurrence of the id; this runs after the buyer step, so a self-purchase leaves the id absent. Missing records are skipped, no other record changes, and only `adoptedNfts` and `rewardsPoints` change |
| `TerraPulse.Canister.constructor` | src/terrapulse_backend/src/state.rs:5-7 | the store starts with three empty maps and satisfies `Valid()` |
| `TerraPulse.Canister.RegisterUser` | src/terrapulse_backend/src/lib.rs:12-38 | an anonymous caller gets `NotAuthorized` and a registered one gets `InvalidOperation`, both with the users unchanged. Otherwise exactly one user is inserted under the caller, with no NFTs, 0 points, no contributions and both timestamps set to now, and the caller is returned. `Valid()` is preserved |
| `TerraPulse.Canister.MintNft` | src/terrapulse_backend/src/lib.rs:42-77 | an anonymous caller gets `NotAuthorized` with the NFTs unchanged. Otherwise the given id is returned and exactly that NFT is stored: owned by the caller, unlisted, with a single `Mint` record from anonymous to the caller at price 0, status `LeastConcern` and trend `Unknown`. Users and listings are untouched, and `Valid()` is preserved when the id is fresh |
| `TerraPulse.Canister.ListNftForSale` | src/terrapulse_backend/src/lib.rs:81-100 | an anonymous caller gets `NotAuthorized`, an unknown id `NFTNotFound`, and a caller who is not the owner `NotAuthorized`. Every error leaves NFTs and listings unchanged. On success only that NFT's price becomes `Some(price)` and `listings[id] = price`. `Valid()` is preserved |
| `TerraPulse.Canister.PurchaseNft` | src/terrapulse_backend/src/lib.rs:103-142 | the errors come in this order: `NotAuthorized` for an anonymous buyer, `NFTNotFound`, `InvalidOperation` when unpriced, `SystemError` when ownerless. Each leaves the whole store unchanged. On success the NFT is owned by the buyer and unpriced, and its history grows by exactly one `Sale` record from the old owner to the buyer at the listed price. The listing is removed and the users become `RecordSale`. `Valid()` is preserved, and under it `SystemError` cannot occur |
| `TerraPulse.Canister.UpdateUserRecords` | src/terrapulse_backend/src/lib.rs:173-190 | the in-place updates of the two profiles produce exactly `RecordSale` of the old users |
| `TerraPulse.Canister.GetNft` | src/terrapulse_backend/src/lib.rs:198-206 | returns the stored NFT exactly when the id is present, otherwise `NFTNotFound` |
| `TerraPulse.Canister.GetUserProfile` | src/terrapulse_backend/src/lib.rs:208-216 | returns the stored profile exactly when the principal is registered, otherwise `UserNotFound` |
| `TerraPulse.Canister.GetMarketplaceListings` | src/terrapulse_backend/src/lib.rs:218-226 | returns every listing entry exactly once and nothing else, as many entries as listings, in some order, without changing the store |
| `Scenarios.SaleWalkthrough` | src/terrapulse_backend/src/lib.rs:42-142 | mint, then list at 500: `(x, 500)` is the only listing. After the purchase there are no listings, the buyer owns `x`, its price is `None`, and its history is the mint record followed by the sale record |
| `Scenarios.SaleUserRecords` | src/terrapulse_backend/src/lib.rs:103-190 | after a sale at 500 between two registered users, the seller no longer holds the NFT, and the buyer holds exactly it and has 5 points |
| `Scenarios.RegisterTwice` | src/terrapulse_backend/src/lib.rs:18-37 | the first registration succeeds and the second returns `InvalidOperation` with the users map as the first call left it |
| `Scenarios.UnregisteredBuyer` | src/terrapulse_backend/src/lib.rs:173-190 | a buyer without a user record still completes the purchase and owns the NFT, but still has no profile |
| `Scenarios.NonOwnerCannotList` | src/terrapulse_backend/src/lib.rs:85-92 | a non-owner's listing attempt returns `NotAuthorized`, no listing appears, and the NFT stays unpriced and owned by the minter |
| `Scenarios.MintCollision` | src/terrapulse_backend/src/lib.rs:73-76 | minting again under a listed id replaces the NFT with an unpriced one while its listing survives |

## Left out

- Id and hash generation (src/terrapulse_backend/src/lib.rs:153-171) is left out. It is SHA-256 over the clock and the raw call arguments, hex-encoded. The generated id and the transaction hash are parameters, and a hash is an opaque string.
- `ic_cdk::caller()`, `ic_cdk::api::time()` and `arg_data_raw()` are left out. These are host calls, so their values are parameters. `register_user` reads the clock twice within one message, and the model uses one `now` for both.
- The async entry points, the `#[update]`/`#[query]` macros and the `thread_local!`/`RefCell` cells are host plumbing. They are left out; the store is the fields of one object and calls run one at a time.
- The Candid interface export and the `init`/`post_upgrade` hooks (src/terrapulse_backend/src/lib.rs:228-246) are left out. They do not touch the three maps.
- `Location`'s floating-point latitude and longitude and the free-form `attributes` map of `NFTMetadata` are left out. They are only carried along.
- `CONSERVATION_PROJECTS` is left out. Its record type is not defined in the modelled files, and no operation uses it.
- Error messages are left out. The variants are kept, including `InsufficientFunds`, which no operation returns.
- TerraPulse.RecordSale: `rewardsPoints` is an unbounded `nat`, so the overflow of the source's `u64` `+=` is not modelled.
- TerraPulse.Canister.UpdateUserRecords: the source returns a `Result` that is always `Ok`, so the model returns nothing.
- TerraPulse.Canister.MintNft: `Valid()` is promised only when the given id is not already in use. The source does not check for a collision. An existing NFT would be replaced, which can break listing coherence (`Scenarios.MintCollision`).
- TerraPulse.Canister.GetMarketplaceListings: the order of the entries is arbitrary. The hash map's iteration order is not modelled.
