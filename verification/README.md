# Skill registry: a Dafny model of the on-chain skill marketplace

The skill registry is a Solana program written with Anchor. Agents list API "skills" in it, and other agents buy them with USDC.

The program keeps four kinds of accounts:

- **Marketplace**: one account. It holds the fee in basis points, the skill and purchase counters and the USDC volume.
- **Agent**: one per wallet. It holds the agent's sales, earnings and reputation.
- **Skill**: one per skill id. It holds the price, an activity flag and rating statistics.
- **Purchase**: one receipt per buyer and skill. It holds a 0..5 star rating.

Seven instructions act on these accounts: `initialize_marketplace`, `register_agent`, `register_skill`, `purchase_skill`, `rate_skill`, `update_skill_price` and `deactivate_skill`.

The model has six modules, one file each.

- `types.dfy` (`Types`) holds the account records, the `AuthType` enum, the program's `ErrorCode` and the integer widths it uses. Widths are newtypes over `int`. Strings are byte sequences, because Rust's `.len()` counts bytes. Any failure of an instruction is an `Outcome`:
  - one of the program's error codes;
  - an account Anchor could not load;
  - an `init` on an address already in use;
  - a seed too long for the runtime to derive an address from;
  - a panic of a checked operation.
- `arith.dfy` (`Arith`) holds the two pieces of arithmetic:
  - the basis-point fee split of `purchase_skill`, with its u128 product and its `as u64` cast;
  - the truncating running average of `rate_skill`, with its `as u8` cast.

  Both are total functions that return `Overflow` where the program would panic.
- `ledger.dfy` (`Ledger`) holds the following.
  - All accounts as one value, `State`. The maps are keyed by the seeds that derive each PDA.
  - The successful effect of each instruction on that value.
  - The bookkeeping invariant `Consistent`. It says that every stored counter and total equals what the other accounts record:
    - skills per agent;
    - purchases and ratings per skill and per seller;
    - USDC paid per skill, per seller and in total.

    It also says three more things:
    - the fee is at most 50%;
    - every average is a star value: 0 while unrated, 1..5 afterwards;
    - every account sits under the address derived from its own fields.

    Its last part, `AveragesBelowMean`, bounds each skill's `avg_rating` and each agent's `reputation_score`. The stored value times the number of ratings is at most the stars on the rated receipts. The program calls these fields the "Average rating (1-5)" (lib.rs:265, :289), but the stored value is not the mean of the ratings given. Each rating truncates, and the loss is never made up:
    - ratings 3, 4 and 5 store 3, although their mean is 4;
    - once four ratings are stored, no rating raises the value;
    - a rating below the value lowers it by at least one star.

    So four 1-star ratings hold any skill or seller with at least four ratings at 1 for good. The model keeps this arithmetic as written; the bound above is what it does guarantee.
- `preservation.dfy` (`Preservation`) proves that every successful instruction keeps `Consistent`.
- `rules.dfy` (`Rules`) defines which outcome each instruction has, in the order Anchor and the handler check things:
  1. accounts that must exist;
  2. `init` accounts: their address must be derivable from their seeds, and must not be in use;
  3. the account constraints;
  4. the `require!`s;
  5. the checked arithmetic.

  It also proves what these rules guarantee across instructions: one agent per wallet, one purchase per buyer and skill, one rating per purchase, publisher-only edits, a fixed fee, and bounded statistics.
- `registry.dfy` (`Registry`) holds the class `SkillRegistry`.
  - Its fields are the four account collections plus a log of the SPL token transfers requested.
  - It has one method per instruction, plus the helper `RecordSale` that `PurchaseSkill` uses to apply a checked sale. Each instruction method checks in the program's order, then updates the fields in place.
  - Each instruction method ensures three things: its outcome is the one `Rules` gives; on an error nothing changed, because a failed transaction is reverted; and on success the accounts moved as `Ledger` says, with the invariant kept.

## Model

All source paths are relative to the repository root.

Some definitions have no row of their own, because a row names the member whose contract states the property:
- Each instruction method's row also stands for the definitions its contract is stated in.
  - The check order is given by `Rules.InitializeOutcome`, `Rules.RegisterAgentOutcome`, `Rules.RegisterSkillOutcome`, `Rules.PurchaseOutcome`, `Rules.RateOutcome`, `Rules.UpdatePriceOutcome` and `Rules.DeactivateOutcome`.
  - The effect is given by `Ledger.Initialized`, `Ledger.AgentRegistered`, `Ledger.SkillRegistered`, `Ledger.Purchased`, `Ledger.Rated`, `Ledger.PriceUpdated` and `Ledger.Deactivated`.
- The bookkeeping invariant `Ledger.Consistent` is stated by the `Preservation` rows and `Ledger.EmptyConsistent`.

| member | source | states |
|---|---|---|
| Arith.FeeSplit | solana-programs/skill-registry/programs/skill-registry/src/lib.rs:109-116 | The fee and the seller's amount add up to the price. For any fee up to 100% the split never panics and the fee is the floor of price * fee_bps / 10 000. |
| Arith.ProductBound | solana-programs/skill-registry/programs/skill-registry/src/lib.rs:111-112 | The u128 `checked_mul` of a u64 price by a u16 fee never overflows. |
| Arith.FloorWithinPrice | solana-programs/skill-registry/programs/skill-registry/src/lib.rs:113-115 | Up to 100%, the quotient is at most the price, so the `as u64` cast keeps it. The quotient is the floor of the exact fee. |
| Arith.FeeAtMostHalf | solana-programs/skill-registry/programs/skill-registry/src/lib.rs:17 | With fee_bps at most 5000 the split succeeds, the fee is at most half the price, and the seller gets at least as much as the treasury. |
| Arith.FeeChargedIff | solana-programs/skill-registry/programs/skill-registry/src/lib.rs:138-155 | The treasury transfer (fee > 0) happens exactly when price * fee_bps reaches 10 000. |
| Arith.RunningAverage | solana-programs/skill-registry/programs/skill-registry/src/lib.rs:199-210 | The step panics exactly when avg * n + rating or n + 1 leaves u64. Otherwise the count grows by one and the new average is the floor of (avg * n + rating) / (n + 1). |
| Arith.AverageStaysBetween | solana-programs/skill-registry/programs/skill-registry/src/lib.rs:201-203 | The new average lies between min(old average, rating) and max(old average, rating). |
| Arith.StarsKept | solana-programs/skill-registry/programs/skill-registry/src/lib.rs:203-210 | Rating 1..5 keeps an average at 0 while unrated and within 1..5 once rated, so the `as u8` cast never truncates. |
| Arith.AverageBelowSum | solana-programs/skill-registry/programs/skill-registry/src/lib.rs:199-210 | If the stored value times the count was at most the stars given so far, it stays so after the step, with the new rating added to the stars. |
| Arith.TruncationLosesStars | solana-programs/skill-registry/programs/skill-registry/src/lib.rs:199-210 | Ratings 3, 4 and 5, starting from an unrated skill, store 3 with a count of 3, although their mean is 4. |
| Arith.OneLowRatingSticks | solana-programs/skill-registry/programs/skill-registry/src/lib.rs:199-210 | After a thousand 5-star ratings, one 4 stores 4, and a further 5 keeps it at 4. |
| Arith.NoRiseAfterFour | solana-programs/skill-registry/programs/skill-registry/src/lib.rs:199-210 | Once at least four ratings are stored, no 1..5 rating raises the stored value. |
| Arith.LowerRatingDropsAStar | solana-programs/skill-registry/programs/skill-registry/src/lib.rs:199-210 | A rating below the stored value lowers it by at least one whole star. |
| Ledger.EmptyConsistent | solana-programs/skill-registry/programs/skill-registry/src/lib.rs:243-307 | Before any account exists, the bookkeeping invariant holds. |
| Preservation.InitializedConsistent | solana-programs/skill-registry/programs/skill-registry/src/lib.rs:13-29 | Creating the marketplace with a fee of at most 5000 bps and zeroed counters keeps the invariant. |
| Preservation.AgentRegisteredConsistent | solana-programs/skill-registry/programs/skill-registry/src/lib.rs:32-54 | Registering a new agent within the length limits, with all statistics at 0, keeps the invariant. |
| Preservation.SkillRegisteredConsistent | solana-programs/skill-registry/programs/skill-registry/src/lib.rs:57-102 | Adding a fresh, active, unsold skill with a positive price keeps the invariant. This includes the agent's skills_published and the marketplace's total_skills each growing by one. |
| Preservation.PurchasedConsistent | solana-programs/skill-registry/programs/skill-registry/src/lib.rs:105-189 | An unrated receipt at the current price and fee keeps the invariant. So do the skill, seller and marketplace counters, revenue, earnings and volume moving on by one sale. |
| Preservation.RatedConsistent | solana-programs/skill-registry/programs/skill-registry/src/lib.rs:192-214 | Recording a first 1..5 rating and folding it into the skill average and the seller reputation keeps the invariant. This includes both stored values staying at or below the mean of their ratings. |
| Preservation.PriceUpdatedConsistent | solana-programs/skill-registry/programs/skill-registry/src/lib.rs:217-226 | Changing only the price (to a positive one) and the update time keeps the invariant. |
| Preservation.DeactivatedConsistent | solana-programs/skill-registry/programs/skill-registry/src/lib.rs:229-236 | Clearing only the activity flag and the update time keeps the invariant. |
| Rules.SaleTransfers | solana-programs/skill-registry/programs/skill-registry/src/lib.rs:119-155 | A purchase makes one transfer, or two when the fee is positive. Each comes from the buyer's token account, with the buyer as authority. |
| Rules.SaleTransfersPayPrice | solana-programs/skill-registry/programs/skill-registry/src/lib.rs:109-155 | The transfers of a purchase add up to exactly the skill's price. The first is price − fee to the account passed as the seller's token account; any other is the fee to the account passed as the treasury's. |
| Rules.SelfRoutedSaleBooked | solana-programs/skill-registry/programs/skill-registry/src/lib.rs:434-442 | Because the seller and treasury token accounts are unchecked, a buyer can pass its own token account for both: every transfer then goes back to the buyer, yet the seller's earnings still grow by its share and the marketplace volume by the price. |
| Rules.SplitNeverPanics | solana-programs/skill-registry/programs/skill-registry/src/lib.rs:109-116 | In consistent accounts the fee split of any skill succeeds, and the fee is at most the seller's amount. |
| Rules.InitializeOnce | solana-programs/skill-registry/programs/skill-registry/src/lib.rs:328-341 | Once the marketplace exists, a second initialisation fails because its address is in use. |
| Rules.FeeFixed | solana-programs/skill-registry/programs/skill-registry/src/lib.rs:17-24 | No instruction after initialisation changes fee_bps. |
| Rules.RegisterAgentOnce | solana-programs/skill-registry/programs/skill-registry/src/lib.rs:346-358 | A second agent for the same owner fails, whatever name and URI are given. |
| Rules.RegisterSkillOnce | solana-programs/skill-registry/programs/skill-registry/src/lib.rs:383-389 | Once a skill id is registered, registering it again fails for every publisher with an agent. |
| Rules.SkillIdWithinSeedLimit | solana-programs/skill-registry/programs/skill-registry/src/lib.rs:383-389 | A registered skill id has at most 32 bytes, because the skill's address is derived from it. So the program's own 64-byte check never fails: no outcome is SkillIdTooLong. |
| Rules.PublisherCheckedBySeeds | solana-programs/skill-registry/programs/skill-registry/src/lib.rs:364-373 | In consistent accounts the agent's Unauthorized constraint never fires: the agent at the caller's seeds is the caller's. A caller without an agent is refused with AccountNotInitialized. |
| Rules.BuyerCheckedBySeeds | solana-programs/skill-registry/programs/skill-registry/src/lib.rs:450-458 | In consistent accounts the receipt's Unauthorized constraint never fires: the receipt at the caller's seeds names the caller as buyer. |
| Rules.PurchaseOnce | solana-programs/skill-registry/programs/skill-registry/src/lib.rs:420-426 | A second purchase of the same skill by the same buyer fails because the receipt address is in use. |
| Rules.RateOnce | solana-programs/skill-registry/programs/skill-registry/src/lib.rs:193-197 | After a successful rating the receipt holds 1..5 stars, and any second valid rating fails with AlreadyRated. |
| Rules.RateNeedsPurchase | solana-programs/skill-registry/programs/skill-registry/src/lib.rs:450-458 | Without a receipt for this buyer and skill, rating fails: a wallet can only rate what it bought. |
| Rules.OnlyPublisherEdits | solana-programs/skill-registry/programs/skill-registry/src/lib.rs:473-479 | update_skill_price succeeds if and only if the signer is the publisher and the price is positive. deactivate_skill succeeds if and only if the signer is the publisher. |
| Rules.DeactivatedNotSold | solana-programs/skill-registry/programs/skill-registry/src/lib.rs:406-410 | After deactivation, any buyer without a receipt is refused with SkillNotActive. |
| Rules.DeactivateIdempotent | solana-programs/skill-registry/programs/skill-registry/src/lib.rs:229-236 | Deactivating twice equals deactivating once at the later time. A later price change does not reactivate. |
| Rules.PriceChangeKeepsReceipts | solana-programs/skill-registry/programs/skill-registry/src/lib.rs:217-226 | A price change stores the new price and leaves every receipt, including its price paid, untouched. |
| Rules.SkillStatsBounded | solana-programs/skill-registry/programs/skill-registry/src/lib.rs:168-181 | In consistent accounts a skill has at most as many ratings as purchases. Its purchases are at most the marketplace's, and its revenue is at most the marketplace volume. |
| Rules.AgentStatsBounded | solana-programs/skill-registry/programs/skill-registry/src/lib.rs:173-181 | In consistent accounts an agent has at most as many ratings as sales. Its sales are at most the marketplace's purchases, and its earnings are at most the marketplace volume. |
| Rules.AveragesAtMostMean | solana-programs/skill-registry/programs/skill-registry/src/lib.rs:199-210 | In consistent accounts a skill's or a seller's number of ratings is the number of its rated receipts. Its stored average times that number is at most the stars on those receipts, so the stored value never exceeds the true mean. |
| Registry.SkillRegistry.constructor | solana-programs/skill-registry/programs/skill-registry/src/lib.rs:243-307 | A new registry has no accounts, no transfers, and satisfies the invariant. |
| Registry.SkillRegistry.InitializeMarketplace | solana-programs/skill-registry/programs/skill-registry/src/lib.rs:13-29 | The outcome is AccountAlreadyInUse, then FeeTooHigh, then Ok. On error nothing changes. On success the marketplace is created with zero counters and the invariant is kept. |
| Registry.SkillRegistry.RegisterAgent | solana-programs/skill-registry/programs/skill-registry/src/lib.rs:32-54 | The outcome is AccountAlreadyInUse, then NameTooLong, then UriTooLong, then Ok. On error nothing changes. On success exactly the owner's agent is added, with zero statistics, and the invariant is kept. |
| Registry.SkillRegistry.RegisterSkill | solana-programs/skill-registry/programs/skill-registry/src/lib.rs:57-102 | The outcome follows Anchor's order (missing agent or marketplace, a skill id over 32 bytes that no address can be derived from, skill id taken, Unauthorized), then the five `require!`s in source order, then the two checked adds. On error nothing changes. On success the skill is added and both counters grow by one; the invariant is kept. |
| Registry.SkillRegistry.PurchaseSkill | solana-programs/skill-registry/programs/skill-registry/src/lib.rs:105-189 | The outcome is a missing account, then a receipt already present, then SkillNotActive, then a panic of the split or of the six checked adds. On error nothing changes, transfers included. On success the accounts are those of `Purchased`, one transfer is appended to the account passed as the seller's, plus one to the account passed as the treasury's when the fee is positive, and the invariant is kept. |
| Registry.SkillRegistry.RecordSale | solana-programs/skill-registry/programs/skill-registry/src/lib.rs:159-181 | For a purchase that passed every check, the accounts become `Purchased` of the old ones and its transfers are appended: one, or two when the fee is positive. |
| Registry.SkillRegistry.RateSkill | solana-programs/skill-registry/programs/skill-registry/src/lib.rs:192-214 | The outcome is a missing receipt, skill or seller, then Unauthorized, then InvalidRating, then AlreadyRated, then a panic of either running average. On error nothing changes. On success the receipt, skill average and seller reputation are updated and the invariant is kept. |
| Registry.SkillRegistry.UpdateSkillPrice | solana-programs/skill-registry/programs/skill-registry/src/lib.rs:217-226 | The outcome is a missing skill, then Unauthorized, then PriceMustBePositive. On error nothing changes. On success only the skill's price and update time change, and the invariant is kept. |
| Registry.SkillRegistry.DeactivateSkill | solana-programs/skill-registry/programs/skill-registry/src/lib.rs:229-236 | The outcome is a missing skill, then Unauthorized. On error nothing changes. On success only the activity flag (now false) and the update time change, and the invariant is kept. |

## Left out

- **SPL token transfers.** The token program is called through `invoke`, and the model records each transfer the program asks for as a `Transfer` entry in a log. What the token program does with it is not modelled: balances, mints, token-account ownership, and failures such as insufficient funds.
- **Unchecked token accounts.** The doc comments name these accounts as the seller's and the treasury's USDC token accounts (lib.rs:104, :434, :439). But all three token accounts of `purchase_skill` are `UncheckedAccount`s (lib.rs:429-442):
  - The program checks neither the owner nor the mint of the seller and treasury accounts.
  - The marketplace stores no treasury account.
  - The mint of `buyer_token_account` is not checked either, so nothing ties a payment to USDC.

  The model records whatever accounts the buyer passes. In both the program and the model, a buyer can pass its own token account as the seller's and the treasury's. Every transfer then returns to the buyer, yet the seller's total_earnings still grows by its share and the marketplace's volume by the price. The model has no token-account owners or mints, so it cannot state the intended property. `Rules.SelfRoutedSaleBooked` records the behaviour as written.
- **`Clock::get()`.** The current time is a parameter `now`. A failure to read the clock sysvar is not modelled.
- **Framework plumbing.** `msg!` logging, `declare_id!`, bumps, account space, rent, the payer and the system program are not modelled.
- **Anchor's own account checks.** Owner checks, discriminator checks and signer checks are not modelled, and neither are addresses that do not match their seeds (Anchor's seeds constraint). Each account is addressed by the seeds it is derived from, and the signing wallet is a parameter.
- **How address derivation fails.** Solana caps each PDA seed at 32 bytes, so every skill_id over 32 bytes fails derivation of the skill's address (lib.rs:387). The `SkillIdTooLong` check (lib.rs:67) therefore never fires. The model returns one `SeedTooLong` error for such an id; the runtime's own error value is not modelled.
- **Keys stored as seeds.** `Skill.agent` and `Purchase.skill` store the seed the PDA is derived from (the owner key and the skill id), not the PDA address. The address is a function of the seed.
- **Overflow checks.** The model assumes overflow checks are on, as in Anchor's release profile. The unchecked product and sum `avg * n + rating` in `rate_skill` therefore panic when they leave u64 instead of wrapping.
- **`third_party/openclaw-test-suite/lib/_trace_parser.py`.** This file is not part of this model. It only reads JSON from standard input and prints it.
