/** Value types of the skill registry program: the Rust integer widths it uses,
    its four account records, the AuthType enum and its error codes. */
module Types {

  // ---------------------------------------------------------------------------
  // Integer widths. Arithmetic is done in `int` and range-checked explicitly.
  // ---------------------------------------------------------------------------

  newtype u8 = x: int | 0 <= x < 0x100
  newtype u16 = x: int | 0 <= x < 0x1_0000
  newtype u64 = x: int | 0 <= x < 0x1_0000_0000_0000_0000
  newtype i64 = x: int | -0x8000_0000_0000_0000 <= x < 0x8000_0000_0000_0000

  const U8_LIMIT: int := 0x100
  const U64_LIMIT: int := 0x1_0000_0000_0000_0000
  const U128_LIMIT: int := 0x1_0000_0000_0000_0000_0000_0000_0000_0000

  /** A Rust `String`; `.len()` counts UTF-8 bytes, so a string is its bytes. */
  type Bytes = seq<u8>

  /** An account address or wallet; only its identity matters here. */
  type Pubkey = nat

  // ---------------------------------------------------------------------------
  // Program constants (the `require!` limits and the `#[max_len]` bounds).
  // ---------------------------------------------------------------------------

  const MAX_FEE_BPS: int := 5000
  const BPS_DENOMINATOR: int := 10_000
  const MAX_AGENT_NAME_LEN: int := 32
  const MAX_URI_LEN: int := 200
  const MAX_SKILL_ID_LEN: int := 64
  const MAX_SKILL_NAME_LEN: int := 64
  const MAX_DESCRIPTION_LEN: int := 256
  const MIN_STARS: int := 1
  const MAX_STARS: int := 5

  /** The Solana runtime derives a program address only from seeds of at most
      32 bytes each. */
  const MAX_SEED_LEN: int := 32

  // ---------------------------------------------------------------------------
  // Account records
  // ---------------------------------------------------------------------------

  /** How a published skill authenticates; `NoAuth` is the program's `AuthType::None`. */
  datatype AuthType = NoAuth | Bearer | Cookie | ApiKey | OAuth | Custom

  /** The single marketplace account (PDA seeded by "marketplace"). */
  datatype Marketplace = Marketplace(
    authority: Pubkey,
    feeBps: u16,
    totalSkills: u64,
    totalPurchases: u64,
    totalVolumeUsdc: u64)

  /** An agent account (PDA seeded by "agent" and the owner's key). */
  datatype Agent = Agent(
    owner: Pubkey,
    name: Bytes,
    metadataUri: Bytes,
    skillsPublished: u64,
    skillsSold: u64,
    totalEarnings: u64,
    reputationScore: u8,
    totalRatings: u64,
    createdAt: i64)

  /** A skill account (PDA seeded by "skill" and the skill id). The `agent`
      field holds the owner key that the publisher's agent PDA is derived from. */
  datatype Skill = Skill(
    publisher: Pubkey,
    agent: Pubkey,
    skillId: Bytes,
    name: Bytes,
    description: Bytes,
    endpointCount: u16,
    authType: AuthType,
    priceUsdc: u64,
    metadataUri: Bytes,
    totalPurchases: u64,
    totalRevenue: u64,
    avgRating: u8,
    totalRatings: u64,
    isActive: bool,
    createdAt: i64,
    updatedAt: i64)

  /** The seeds of a purchase PDA: the buyer and the skill (named by its id,
      from which the skill PDA is derived). */
  datatype PurchaseKey = PurchaseKey(buyer: Pubkey, skill: Bytes)

  /** A purchase receipt; `rating` is 0 until the buyer rates, then 1..5. */
  datatype Purchase = Purchase(
    buyer: Pubkey,
    skill: Bytes,
    pricePaid: u64,
    feePaid: u64,
    purchasedAt: i64,
    rating: u8)

  /** One SPL token transfer the program asked the token program to make. */
  datatype Transfer = Transfer(source: Pubkey, destination: Pubkey, authority: Pubkey, amount: u64)

  // ---------------------------------------------------------------------------
  // Outcomes
  // ---------------------------------------------------------------------------

  /** The program's own `ErrorCode`. */
  datatype ErrorCode =
    | FeeTooHigh
    | NameTooLong
    | UriTooLong
    | SkillIdTooLong
    | DescriptionTooLong
    | PriceMustBePositive
    | SkillNotActive
    | InvalidRating
    | AlreadyRated
    | Unauthorized

  /** Why an instruction fails: one of the program's codes, an account that
      Anchor could not load, an `init` on an address that is already in use, a
      seed the runtime refuses to derive an address from, or a panic
      (`.unwrap()` of a failed checked operation, or an overflow). */
  datatype Error =
    | Program(code: ErrorCode)
    | AccountNotInitialized
    | AccountAlreadyInUse
    | SeedTooLong
    | Panicked

  /** The result of one instruction. A failed instruction reverts all its effects. */
  datatype Outcome = Ok | Err(error: Error)

  datatype Option<T> = None | Some(value: T)

  /** The result of a Rust `checked_*` operation. */
  datatype Checked<T> = Value(value: T) | Overflow
}
