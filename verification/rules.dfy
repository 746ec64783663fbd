/** Which outcome each instruction has on given accounts: the checks Anchor
    makes while loading the accounts (a missing account, an `init` on an address
    in use, the account constraints, in the order the fields are declared),
    then the handler's `require!`s in the order they are written, then the
    panics of its checked arithmetic. The lemmas state what these rules
    guarantee across instructions. */
module Rules {
  import opened Types
  import opened Arith
  import opened Ledger

  // ---------------------------------------------------------------------------
  // The outcome of each instruction
  // ---------------------------------------------------------------------------

  function InitializeOutcome(s: State, feeBps: u16): Outcome
  {
    if s.marketplace.Some? then Err(AccountAlreadyInUse)
    else if feeBps as int > MAX_FEE_BPS then Err(Program(FeeTooHigh))
    else Ok
  }

  function RegisterAgentOutcome(s: State, owner: Pubkey, name: Bytes, metadataUri: Bytes): Outcome
  {
    if owner in s.agents then Err(AccountAlreadyInUse)
    else if |name| > MAX_AGENT_NAME_LEN then Err(Program(NameTooLong))
    else if |metadataUri| > MAX_URI_LEN then Err(Program(UriTooLong))
    else Ok
  }

  function RegisterSkillOutcome(s: State, publisher: Pubkey, skillId: Bytes, name: Bytes,
                                description: Bytes, priceUsdc: u64, metadataUri: Bytes): Outcome
  {
    if publisher !in s.agents || s.marketplace.None? then Err(AccountNotInitialized)
    else if |skillId| > MAX_SEED_LEN then Err(SeedTooLong)
    else if skillId in s.skills then Err(AccountAlreadyInUse)
    else if s.agents[publisher].owner != publisher then Err(Program(Unauthorized))
    else if |skillId| > MAX_SKILL_ID_LEN then Err(Program(SkillIdTooLong))
    else if |name| > MAX_SKILL_NAME_LEN then Err(Program(NameTooLong))
    else if |description| > MAX_DESCRIPTION_LEN then Err(Program(DescriptionTooLong))
    else if |metadataUri| > MAX_URI_LEN then Err(Program(UriTooLong))
    else if priceUsdc == 0 then Err(Program(PriceMustBePositive))
    else if !SkillFits(s, publisher) then Err(Panicked)
    else Ok
  }

  function PurchaseOutcome(s: State, key: PurchaseKey): Outcome
  {
    if s.marketplace.None? || key.skill !in s.skills || s.skills[key.skill].publisher !in s.agents then
      Err(AccountNotInitialized)
    else if key in s.purchases then Err(AccountAlreadyInUse)
    else if !s.skills[key.skill].isActive then Err(Program(SkillNotActive))
    else if !PurchaseFits(s, key.skill) then Err(Panicked)
    else Ok
  }

  function RateOutcome(s: State, key: PurchaseKey, rating: u8): Outcome
  {
    if key !in s.purchases || key.skill !in s.skills || s.skills[key.skill].publisher !in s.agents then
      Err(AccountNotInitialized)
    else if s.purchases[key].buyer != key.buyer then Err(Program(Unauthorized))
    else if !(MIN_STARS as u8 <= rating <= MAX_STARS as u8) then Err(Program(InvalidRating))
    else if s.purchases[key].rating != 0 then Err(Program(AlreadyRated))
    else if !RatingFits(s, key, rating) then Err(Panicked)
    else Ok
  }

  function UpdatePriceOutcome(s: State, id: Bytes, publisher: Pubkey, newPrice: u64): Outcome
  {
    if id !in s.skills then Err(AccountNotInitialized)
    else if s.skills[id].publisher != publisher then Err(Program(Unauthorized))
    else if newPrice == 0 then Err(Program(PriceMustBePositive))
    else Ok
  }

  function DeactivateOutcome(s: State, id: Bytes, publisher: Pubkey): Outcome
  {
    if id !in s.skills then Err(AccountNotInitialized)
    else if s.skills[id].publisher != publisher then Err(Program(Unauthorized))
    else Ok
  }

  /** The token transfers of a purchase, signed by the buyer: the seller's
      share to the seller's account, then the fee to the treasury when it is
      not zero. */
  function SaleTransfers(buyer: Pubkey, buyerTokenAccount: Pubkey, sellerTokenAccount: Pubkey,
                         treasuryTokenAccount: Pubkey, split: Split): (r: seq<Transfer>)
    ensures |r| == (if split.fee > 0 then 2 else 1)
    ensures forall i :: 0 <= i < |r| ==> r[i].source == buyerTokenAccount && r[i].authority == buyer
  {
    [Transfer(buyerTokenAccount, sellerTokenAccount, buyer, split.sellerAmount)]
    + (if split.fee > 0 then [Transfer(buyerTokenAccount, treasuryTokenAccount, buyer, split.fee)] else [])
  }

  function Paid(ts: seq<Transfer>): int
  {
    if ts == [] then 0 else ts[0].amount as int + Paid(ts[1..])
  }

  // ---------------------------------------------------------------------------
  // What the rules guarantee
  // ---------------------------------------------------------------------------

  /** A purchase takes exactly the skill's price from the buyer: the seller's
      share goes to the seller's account and the rest, if any, to the treasury. */
  lemma SaleTransfersPayPrice(s: State, key: PurchaseKey, buyerTokenAccount: Pubkey,
                              sellerTokenAccount: Pubkey, treasuryTokenAccount: Pubkey)
    requires PurchaseOutcome(s, key).Ok?
    ensures var split := SaleSplit(s, key.skill).value;
      var ts := SaleTransfers(key.buyer, buyerTokenAccount, sellerTokenAccount, treasuryTokenAccount, split);
      && Paid(ts) == s.skills[key.skill].priceUsdc as int
      && ts[0].destination == sellerTokenAccount
      && ts[0].amount as int == s.skills[key.skill].priceUsdc as int - split.fee as int
      && (forall i :: 1 <= i < |ts| ==> ts[i].destination == treasuryTokenAccount && ts[i].amount == split.fee)
  {
    var split := SaleSplit(s, key.skill).value;
    var ts := SaleTransfers(key.buyer, buyerTokenAccount, sellerTokenAccount, treasuryTokenAccount, split);
    assert Paid(ts[1..]) == (if split.fee > 0 then split.fee as int else 0) by {
      if split.fee > 0 {
        assert ts[1..][1..] == [];
      } else {
        assert ts[1..] == [];
      }
    }
  }

  /** Nothing ties the token accounts to the seller or the marketplace: a buyer
      who passes its own token account as the seller's and the treasury's
      keeps every token, yet the sale is booked in full. */
  lemma SelfRoutedSaleBooked(s: State, key: PurchaseKey, buyerTokenAccount: Pubkey, now: i64)
    requires PurchaseOutcome(s, key).Ok?
    ensures var split := SaleSplit(s, key.skill).value;
      var ts := SaleTransfers(key.buyer, buyerTokenAccount, buyerTokenAccount, buyerTokenAccount, split);
      var seller := s.skills[key.skill].publisher;
      var s' := Purchased(s, key, now);
      && (forall i :: 0 <= i < |ts| ==> ts[i].destination == buyerTokenAccount)
      && s'.agents[seller].totalEarnings as int == s.agents[seller].totalEarnings as int + split.sellerAmount as int
      && s'.marketplace.value.totalVolumeUsdc as int
         == s.marketplace.value.totalVolumeUsdc as int + s.skills[key.skill].priceUsdc as int
  {
  }

  /** While the marketplace fee is within its 50% cap, the split of a sale
      never panics and never pays the treasury more than the seller. */
  lemma SplitNeverPanics(s: State, id: Bytes)
    requires Consistent(s) && s.marketplace.Some? && id in s.skills
    ensures SaleSplit(s, id).Value?
    ensures SaleSplit(s, id).value.fee <= SaleSplit(s, id).value.sellerAmount
  {
    FeeAtMostHalf(s.skills[id].priceUsdc, s.marketplace.value.feeBps);
  }

  /** The marketplace can be initialised only once. */
  lemma InitializeOnce(s: State, authority: Pubkey, feeBps: u16, feeBps': u16)
    requires InitializeOutcome(s, feeBps).Ok?
    ensures InitializeOutcome(Initialized(s, authority, feeBps), feeBps') == Err(AccountAlreadyInUse)
  {
  }

  /** No instruction after `initialize_marketplace` changes the marketplace
      fee, so the 50% cap it checks holds for good. */
  lemma FeeFixed(s: State, owner: Pubkey, name: Bytes, metadataUri: Bytes, sk: Skill,
                 key: PurchaseKey, rating: u8, id: Bytes, newPrice: u64, now: i64)
    requires s.marketplace.Some?
    ensures AgentRegistered(s, NewAgent(owner, name, metadataUri, now)).marketplace == s.marketplace
    ensures sk.publisher in s.agents && SkillFits(s, sk.publisher) ==>
      SkillRegistered(s, sk).marketplace.value.feeBps == s.marketplace.value.feeBps
    ensures PurchaseOutcome(s, key).Ok? ==>
      Purchased(s, key, now).marketplace.value.feeBps == s.marketplace.value.feeBps
    ensures RateOutcome(s, key, rating).Ok? ==> Rated(s, key, rating).marketplace == s.marketplace
    ensures id in s.skills ==>
      && PriceUpdated(s, id, newPrice, now).marketplace == s.marketplace
      && Deactivated(s, id, now).marketplace == s.marketplace
  {
  }

  /** A wallet can register only one agent. */
  lemma RegisterAgentOnce(s: State, owner: Pubkey, name: Bytes, metadataUri: Bytes, now: i64,
                          name': Bytes, metadataUri': Bytes)
    requires RegisterAgentOutcome(s, owner, name, metadataUri).Ok?
    ensures var s' := AgentRegistered(s, NewAgent(owner, name, metadataUri, now));
      RegisterAgentOutcome(s', owner, name', metadataUri') == Err(AccountAlreadyInUse)
  {
  }

  /** A skill id can be registered only once, by anyone. */
  lemma RegisterSkillOnce(s: State, publisher: Pubkey, skillId: Bytes, name: Bytes, description: Bytes,
                          endpointCount: u16, authType: AuthType, priceUsdc: u64, metadataUri: Bytes, now: i64,
                          publisher': Pubkey, name': Bytes, description': Bytes, priceUsdc': u64, metadataUri': Bytes)
    requires RegisterSkillOutcome(s, publisher, skillId, name, description, priceUsdc, metadataUri).Ok?
    requires publisher' in s.agents
    ensures var sk := NewSkill(publisher, skillId, name, description, endpointCount, authType, priceUsdc, metadataUri, now);
      var s' := SkillRegistered(s, sk);
      RegisterSkillOutcome(s', publisher', skillId, name', description', priceUsdc', metadataUri') == Err(AccountAlreadyInUse)
  {
  }

  /** The skill's address is derived from its id, and the runtime refuses a
      seed longer than 32 bytes, so no longer id is ever registered and the
      program's own 64-byte limit never decides an outcome. */
  lemma SkillIdWithinSeedLimit(s: State, publisher: Pubkey, skillId: Bytes, name: Bytes,
                               description: Bytes, priceUsdc: u64, metadataUri: Bytes)
    ensures RegisterSkillOutcome(s, publisher, skillId, name, description, priceUsdc, metadataUri).Ok? ==>
      |skillId| <= MAX_SEED_LEN
    ensures RegisterSkillOutcome(s, publisher, skillId, name, description, priceUsdc, metadataUri)
      != Err(Program(SkillIdTooLong))
  {
  }

  /** The agent account is loaded from the address derived from the caller's
      key, and in consistent accounts the agent there is owned by the caller:
      the `Unauthorized` constraint never fires, and a caller without an agent
      is refused because no account exists at that address. */
  lemma PublisherCheckedBySeeds(s: State, publisher: Pubkey, skillId: Bytes, name: Bytes,
                                description: Bytes, priceUsdc: u64, metadataUri: Bytes)
    requires Consistent(s)
    ensures RegisterSkillOutcome(s, publisher, skillId, name, description, priceUsdc, metadataUri)
      != Err(Program(Unauthorized))
    ensures publisher !in s.agents ==>
      RegisterSkillOutcome(s, publisher, skillId, name, description, priceUsdc, metadataUri)
        == Err(AccountNotInitialized)
  {
    if publisher in s.agents {
      assert AgentOk(publisher, s.agents[publisher], s.skills, s.purchases);
    }
  }

  /** The receipt is loaded from the address derived from the caller's key and
      the skill, and in consistent accounts the receipt there names the caller
      as its buyer: the `Unauthorized` constraint of a rating never fires. */
  lemma BuyerCheckedBySeeds(s: State, key: PurchaseKey, rating: u8)
    requires Consistent(s)
    ensures RateOutcome(s, key, rating) != Err(Program(Unauthorized))
  {
    if key in s.purchases {
      assert PurchaseOk(key, s.purchases[key], s.skills);
    }
  }

  /** A buyer can purchase a skill only once: the receipt's address is taken. */
  lemma PurchaseOnce(s: State, key: PurchaseKey, now: i64)
    requires PurchaseOutcome(s, key).Ok?
    ensures PurchaseOutcome(Purchased(s, key, now), key) == Err(AccountAlreadyInUse)
  {
  }

  /** A purchase can be rated only once: afterwards it holds 1..5 stars and
      a second valid rating is refused. */
  lemma RateOnce(s: State, key: PurchaseKey, rating: u8, rating': u8)
    requires RateOutcome(s, key, rating).Ok?
    requires MIN_STARS as u8 <= rating' <= MAX_STARS as u8
    ensures MIN_STARS as u8 <= Rated(s, key, rating).purchases[key].rating <= MAX_STARS as u8
    ensures RateOutcome(Rated(s, key, rating), key, rating') == Err(Program(AlreadyRated))
  {
  }

  /** Only a buyer of a skill can rate it: with no receipt of this buyer for
      this skill, the instruction fails. */
  lemma RateNeedsPurchase(s: State, key: PurchaseKey, rating: u8)
    requires key !in s.purchases
    ensures RateOutcome(s, key, rating) == Err(AccountNotInitialized)
  {
  }

  /** Only the publisher of a skill can change its price or deactivate it. */
  lemma OnlyPublisherEdits(s: State, id: Bytes, caller: Pubkey, newPrice: u64)
    requires id in s.skills
    ensures UpdatePriceOutcome(s, id, caller, newPrice).Ok? <==> caller == s.skills[id].publisher && newPrice > 0
    ensures DeactivateOutcome(s, id, caller).Ok? <==> caller == s.skills[id].publisher
  {
  }

  /** A deactivated skill cannot be bought by anyone who has not bought it yet. */
  lemma DeactivatedNotSold(s: State, id: Bytes, now: i64, buyer: Pubkey)
    requires id in s.skills && s.marketplace.Some? && s.skills[id].publisher in s.agents
    requires PurchaseKey(buyer, id) !in s.purchases
    ensures PurchaseOutcome(Deactivated(s, id, now), PurchaseKey(buyer, id)) == Err(Program(SkillNotActive))
  {
  }

  /** Deactivating twice is deactivating once (at the later time), and a
      deactivated skill stays deactivated when its price changes. */
  lemma DeactivateIdempotent(s: State, id: Bytes, t1: i64, t2: i64, newPrice: u64)
    requires id in s.skills
    ensures Deactivated(Deactivated(s, id, t1), id, t2) == Deactivated(s, id, t2)
    ensures !PriceUpdated(Deactivated(s, id, t1), id, newPrice, t2).skills[id].isActive
  {
  }

  /** The prices of the receipts already issued are not affected by a price change. */
  lemma PriceChangeKeepsReceipts(s: State, id: Bytes, newPrice: u64, now: i64)
    requires id in s.skills
    ensures PriceUpdated(s, id, newPrice, now).purchases == s.purchases
    ensures PriceUpdated(s, id, newPrice, now).skills[id].priceUsdc == newPrice
  {
  }

  /** In consistent accounts a skill has no more ratings than purchases,
      and its revenue is part of the marketplace's volume. */
  lemma SkillStatsBounded(s: State, id: Bytes)
    requires Consistent(s) && s.marketplace.Some? && id in s.skills
    ensures s.skills[id].totalRatings <= s.skills[id].totalPurchases
    ensures s.skills[id].totalRevenue <= s.marketplace.value.totalVolumeUsdc
    ensures s.skills[id].totalPurchases <= s.marketplace.value.totalPurchases
  {
    assert SkillOk(id, s.skills[id], s.agents, s.purchases);
    assert RatedPurchasesOf(s.purchases, id) <= PurchasesOf(s.purchases, id);
    assert PurchasesOf(s.purchases, id) <= s.purchases.Keys;
    SubsetCardinality(RatedPurchasesOf(s.purchases, id), PurchasesOf(s.purchases, id));
    SubsetCardinality(PurchasesOf(s.purchases, id), s.purchases.Keys);
    TotalSubset(PurchasesOf(s.purchases, id), s.purchases.Keys, PricePaid(s.purchases));
  }

  /** In consistent accounts an agent has no more ratings than sales, and
      earns no more than the marketplace's volume. */
  lemma AgentStatsBounded(s: State, owner: Pubkey)
    requires Consistent(s) && s.marketplace.Some? && owner in s.agents
    ensures s.agents[owner].totalRatings <= s.agents[owner].skillsSold
    ensures s.agents[owner].skillsSold <= s.marketplace.value.totalPurchases
    ensures s.agents[owner].totalEarnings <= s.marketplace.value.totalVolumeUsdc
  {
    var sales := SalesOf(s.skills, s.purchases, owner);
    assert AgentOk(owner, s.agents[owner], s.skills, s.purchases);
    assert RatedSalesOf(s.skills, s.purchases, owner) <= sales;
    assert sales <= s.purchases.Keys;
    SubsetCardinality(RatedSalesOf(s.skills, s.purchases, owner), sales);
    SubsetCardinality(sales, s.purchases.Keys);
    forall k | k in s.purchases.Keys ensures SellerShare(s.purchases)(k) >= 0 {
      assert PurchaseOk(k, s.purchases[k], s.skills);
    }
    TotalSubset(sales, s.purchases.Keys, SellerShare(s.purchases));
    SharesBelowPrices(s.purchases);
  }

  /** In consistent accounts a skill's stored average, and a seller's
      reputation, never exceed the mean of the ratings given: the stored value
      times the number of ratings is at most the stars on the rated receipts.
      Each step truncates, so the stored value can be lower than the mean. */
  lemma AveragesAtMostMean(s: State, id: Bytes, owner: Pubkey)
    requires Consistent(s)
    ensures id in s.skills ==>
      && s.skills[id].totalRatings as int == |RatedPurchasesOf(s.purchases, id)|
      && s.skills[id].avgRating as int * s.skills[id].totalRatings as int
         <= Total(RatedPurchasesOf(s.purchases, id), Stars(s.purchases))
    ensures owner in s.agents ==>
      && s.agents[owner].totalRatings as int == |RatedSalesOf(s.skills, s.purchases, owner)|
      && s.agents[owner].reputationScore as int * s.agents[owner].totalRatings as int
         <= Total(RatedSalesOf(s.skills, s.purchases, owner), Stars(s.purchases))
  {
    if id in s.skills {
      assert SkillOk(id, s.skills[id], s.agents, s.purchases);
      assert SkillBelowMean(id, s.skills[id], s.purchases);
    }
    if owner in s.agents {
      assert AgentOk(owner, s.agents[owner], s.skills, s.purchases);
      assert AgentBelowMean(owner, s.agents[owner], s.skills, s.purchases);
    }
  }

  /** What the sellers received is at most what the buyers paid. */
  lemma SharesBelowPrices(purchases: map<PurchaseKey, Purchase>)
    requires forall k :: k in purchases ==> purchases[k].feePaid <= purchases[k].pricePaid
    ensures Total(purchases.Keys, SellerShare(purchases)) <= Total(purchases.Keys, PricePaid(purchases))
  {
    TotalBelow(purchases.Keys, SellerShare(purchases), PricePaid(purchases));
  }

  lemma {:induction false} TotalBelow<K>(keys: set<K>, f: K -> int, g: K -> int)
    requires forall k :: k in keys ==> f(k) <= g(k)
    ensures Total(keys, f) <= Total(keys, g)
    decreases keys
  {
    if keys != {} {
      var k :| k in keys;
      TotalRemove(keys, f, k);
      TotalRemove(keys, g, k);
      TotalBelow(keys - {k}, f, g);
    }
  }

  lemma {:induction false} SubsetCardinality<K>(small: set<K>, large: set<K>)
    requires small <= large
    ensures |small| <= |large|
    decreases large
  {
    if large != {} {
      var k :| k in large;
      SubsetCardinality(small - {k}, large - {k});
      assert small - {k} <= large - {k};
    }
  }
}
