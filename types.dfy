/**
 * Data model of the TerraPulse marketplace canister: the records stored in its
 * three maps (users, NFTs, listings) and the error type its operations return.
 */
module Types {

  /** Unsigned machine integers of the source, as bounded subsets of int. */
  type U64 = x: int | 0 <= x < 0x1_0000_0000_0000_0000
  type U8 = x: int | 0 <= x < 0x100

  /**
   * An Internet Computer principal is a short byte blob. The anonymous
   * principal, the identity of unauthenticated callers, is the single byte 0x04.
   */
  type Principal = seq<bv8>
  const ANONYMOUS: Principal := [0x04]

  datatype Option<T> = None | Some(value: T)

  /** The error variants of the canister; the messages they carry are left out. */
  datatype Error =
    | NotAuthorized
    | UserNotFound
    | NFTNotFound
    | InvalidOperation
    | InsufficientFunds
    | SystemError

  datatype Result<T> = Ok(value: T) | Err(error: Error)

  datatype Contribution = Contribution(
    amount: U64,
    projectId: string,
    timestamp: U64,
    transactionHash: string)

  datatype User = User(
    principalId: Principal,
    username: string,
    email: Option<string>,
    adoptedNfts: seq<string>,
    rewardsPoints: nat,
    createdAt: U64,
    lastLogin: U64,
    profileImage: Option<string>,
    conservationContributions: seq<Contribution>)

  datatype EntityType =
    | Wildlife(species: string, category: string)
    | Hotel(starRating: U8, ecoRating: U8)
    | Reserve(areaSize: U64, habitatType: string)

  datatype ConservationStatus =
    | LeastConcern
    | NearThreatened
    | Vulnerable
    | Endangered
    | CriticallyEndangered

  datatype PopulationTrend = Increasing | Stable | Decreasing | Unknown

  /** Where an entity is; the floating-point coordinates are not modelled. */
  datatype Location = Location(region: string, country: string)

  /** Descriptive metadata; the free-form attribute map is not modelled. */
  datatype NFTMetadata = NFTMetadata(
    name: string,
    description: string,
    imageUrl: string,
    conservationStatus: ConservationStatus,
    location: Location)

  datatype TransactionType = Mint | Transfer | Sale | Adoption

  datatype Transaction = Transaction(
    transactionType: TransactionType,
    from: Principal,
    to: Principal,
    price: U64,
    timestamp: U64,
    transactionHash: string)

  datatype ConservationData = ConservationData(
    status: ConservationStatus,
    populationTrend: PopulationTrend,
    threats: seq<string>,
    conservationActions: seq<string>,
    lastUpdated: U64)

  datatype NFT = NFT(
    id: string,
    entityType: EntityType,
    metadata: NFTMetadata,
    owner: Option<Principal>,
    price: Option<U64>,
    creationDate: U64,
    transactionHistory: seq<Transaction>,
    conservationData: ConservationData)
}
