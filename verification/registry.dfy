/** The deployed program: its accounts as fields updated in place by the seven
    instruction handlers, and the token transfers it has asked for. Each
    handler either fails, leaving every account as it was (a failed Solana
    transaction is reverted), or moves the accounts as `Ledger` describes;
    which of the two, and with which error, is `Rules`. */
module Registry {
  import opened Types
  import opened Arith
  import opened Ledger
  import opened Rules
  import Preservation

  class SkillRegistry {
    var marketplace: Option<Marketplace>
    var agents: map<Pubkey, Agent>
    var skills: map<Bytes, Skill>
    var purchases: map<PurchaseKey, Purchase>
    /** The SPL token transfers made by successful purchases, oldest first. */
    var transfers: seq<Transfer>

    function Accounts(): State
      reads this
    {
      State(marketplace, agents, skills, purchases)
    }

    ghost predicate Valid()
      reads this
    {
      Consistent(Accounts())
    }

    /** A freshly deployed program owns no accounts. */
    constructor()
      ensures Valid() && Accounts() == Empty() && transfers == []
    {
      marketplace := None;
      agents := map[];
      skills := map[];
      purchases := map[];
      transfers := [];
      Ledger.EmptyConsistent();
    }

    /** `initialize_marketplace`: creates the marketplace PDA with a fee of
        at most 50%. */
    method InitializeMarketplace(authority: Pubkey, feeBps: u16) returns (r: Outcome)
      requires Valid()
      modifies this
      ensures Valid()
      ensures r == InitializeOutcome(old(Accounts()), feeBps)
      ensures r.Err? ==> unchanged(this)
      ensures r.Ok? ==> Accounts() == Initialized(old(Accounts()), authority, feeBps) && transfers == old(transfers)
    {
      if marketplace.Some? {
        return Err(AccountAlreadyInUse);
      }
      if feeBps as int > MAX_FEE_BPS {
        return Err(Program(FeeTooHigh));
      }
      Preservation.InitializedConsistent(Accounts(), authority, feeBps);
      marketplace := Some(Marketplace(authority, feeBps, 0, 0, 0));
      r := Ok;
    }

    /** `register_agent`: creates the agent PDA of `owner`. */
    method RegisterAgent(owner: Pubkey, name: Bytes, metadataUri: Bytes, now: i64) returns (r: Outcome)
      requires Valid()
      modifies this
      ensures Valid()
      ensures r == RegisterAgentOutcome(old(Accounts()), owner, name, metadataUri)
      ensures r.Err? ==> unchanged(this)
      ensures r.Ok? ==>
        Accounts() == AgentRegistered(old(Accounts()), NewAgent(owner, name, metadataUri, now))
        && transfers == old(transfers)
    {
      if owner in agents {
        return Err(AccountAlreadyInUse);
      }
      if |name| > MAX_AGENT_NAME_LEN {
        return Err(Program(NameTooLong));
      }
      if |metadataUri| > MAX_URI_LEN {
        return Err(Program(UriTooLong));
      }
      Preservation.AgentRegisteredConsistent(Accounts(), owner, name, metadataUri, now);
      agents := agents[owner := NewAgent(owner, name, metadataUri, now)];
      r := Ok;
    }

    /** `register_skill`: creates the skill PDA of `skillId`, published by the
        signer through their agent, and counts it for the agent and the
        marketplace. */
    method RegisterSkill(publisher: Pubkey, skillId: Bytes, name: Bytes, description: Bytes,
                         endpointCount: u16, authType: AuthType, priceUsdc: u64, metadataUri: Bytes,
                         now: i64) returns (r: Outcome)
      requires Valid()
      modifies this
      ensures Valid()
      ensures r == RegisterSkillOutcome(old(Accounts()), publisher, skillId, name, description, priceUsdc, metadataUri)
      ensures r.Err? ==> unchanged(this)
      ensures r.Ok? ==>
        Accounts() == SkillRegistered(old(Accounts()),
          NewSkill(publisher, skillId, name, description, endpointCount, authType, priceUsdc, metadataUri, now))
        && transfers == old(transfers)
    {
      if publisher !in agents || marketplace.None? {
        return Err(AccountNotInitialized);
      }
      if |skillId| > MAX_SEED_LEN {
        return Err(SeedTooLong);
      }
      if skillId in skills {
        return Err(AccountAlreadyInUse);
      }
      var agent := agents[publisher];
      if agent.owner != publisher {
        return Err(Program(Unauthorized));
      }
      if |skillId| > MAX_SKILL_ID_LEN {
        return Err(Program(SkillIdTooLong));
      }
      if |name| > MAX_SKILL_NAME_LEN {
        return Err(Program(NameTooLong));
      }
      if |description| > MAX_DESCRIPTION_LEN {
        return Err(Program(DescriptionTooLong));
      }
      if |metadataUri| > MAX_URI_LEN {
        return Err(Program(UriTooLong));
      }
      if priceUsdc == 0 {
        return Err(Program(PriceMustBePositive));
      }
      var m := marketplace.value;
      if agent.skillsPublished as int + 1 >= U64_LIMIT || m.totalSkills as int + 1 >= U64_LIMIT {
        return Err(Panicked);
      }
      var sk := NewSkill(publisher, skillId, name, description, endpointCount, authType, priceUsdc, metadataUri, now);
      Preservation.SkillRegisteredConsistent(Accounts(), sk);
      skills := skills[skillId := sk];
      agents := agents[publisher := agent.(skillsPublished := agent.skillsPublished + 1)];
      marketplace := Some(m.(totalSkills := m.totalSkills + 1));
      r := Ok;
    }

    /** `purchase_skill`: the buyer pays the skill's price, split between the
        seller and the treasury; a receipt PDA records the sale and the skill,
        seller and marketplace statistics count it. */
    method PurchaseSkill(buyer: Pubkey, skillId: Bytes, buyerTokenAccount: Pubkey,
                         sellerTokenAccount: Pubkey, treasuryTokenAccount: Pubkey, now: i64)
      returns (r: Outcome)
      requires Valid()
      modifies this
      ensures Valid()
      ensures r == PurchaseOutcome(old(Accounts()), PurchaseKey(buyer, skillId))
      ensures r.Err? ==> unchanged(this)
      ensures r.Ok? ==>
        && Accounts() == Purchased(old(Accounts()), PurchaseKey(buyer, skillId), now)
        && transfers == old(transfers) + SaleTransfers(buyer, buyerTokenAccount, sellerTokenAccount,
                                                       treasuryTokenAccount, SaleSplit(old(Accounts()), skillId).value)
    {
      var key := PurchaseKey(buyer, skillId);
      if marketplace.None? || skillId !in skills || skills[skillId].publisher !in agents {
        return Err(AccountNotInitialized);
      }
      if key in purchases {
        return Err(AccountAlreadyInUse);
      }
      var sk := skills[skillId];
      if !sk.isActive {
        return Err(Program(SkillNotActive));
      }
      var m := marketplace.value;
      var price := sk.priceUsdc;
      var checkedSplit := FeeSplit(price, m.feeBps);
      if checkedSplit.Overflow? {
        return Err(Panicked);
      }
      var split := checkedSplit.value;
      var seller := agents[sk.publisher];
      if || sk.totalPurchases as int + 1 >= U64_LIMIT
         || sk.totalRevenue as int + price as int >= U64_LIMIT
         || seller.skillsSold as int + 1 >= U64_LIMIT
         || seller.totalEarnings as int + split.sellerAmount as int >= U64_LIMIT
         || m.totalPurchases as int + 1 >= U64_LIMIT
         || m.totalVolumeUsdc as int + price as int >= U64_LIMIT
      {
        return Err(Panicked);
      }
      Preservation.PurchasedConsistent(Accounts(), key, now);
      RecordSale(key, split, buyerTokenAccount, sellerTokenAccount, treasuryTokenAccount, now);
      r := Ok;
    }

    /** The effects of a purchase that passed every check: the two token
        transfers, the receipt, and the statistics of the skill, its seller
        and the marketplace, all moved on by one sale. */
    method RecordSale(key: PurchaseKey, split: Split, buyerTokenAccount: Pubkey,
                      sellerTokenAccount: Pubkey, treasuryTokenAccount: Pubkey, now: i64)
      requires PurchaseOutcome(Accounts(), key).Ok?
      requires split == SaleSplit(Accounts(), key.skill).value
      modifies this
      ensures Accounts() == Purchased(old(Accounts()), key, now)
      ensures transfers == old(transfers) + SaleTransfers(key.buyer, buyerTokenAccount, sellerTokenAccount,
                                                          treasuryTokenAccount, split)
    {
      ghost var after := Purchased(Accounts(), key, now);
      var sk := skills[key.skill];
      var seller := agents[sk.publisher];
      var m := marketplace.value;
      var price := sk.priceUsdc;
      var receipt := Purchase(key.buyer, key.skill, price, split.fee, now, 0);
      var sk' := sk.(totalPurchases := sk.totalPurchases + 1, totalRevenue := sk.totalRevenue + price);
      var seller' := seller.(skillsSold := seller.skillsSold + 1,
                             totalEarnings := seller.totalEarnings + split.sellerAmount);
      var m' := m.(totalPurchases := m.totalPurchases + 1, totalVolumeUsdc := m.totalVolumeUsdc + price);
      assert purchases[key := receipt] == after.purchases;
      assert skills[key.skill := sk'] == after.skills;
      assert agents[sk.publisher := seller'] == after.agents;
      assert Some(m') == after.marketplace;
      transfers := transfers + SaleTransfers(key.buyer, buyerTokenAccount, sellerTokenAccount, treasuryTokenAccount, split);
      purchases := purchases[key := receipt];
      skills := skills[key.skill := sk'];
      agents := agents[sk.publisher := seller'];
      marketplace := Some(m');
    }

    /** `rate_skill`: the buyer gives a purchased skill 1..5 stars, once; the
        skill's average and the seller's reputation take the rating in. */
    method RateSkill(buyer: Pubkey, skillId: Bytes, rating: u8) returns (r: Outcome)
      requires Valid()
      modifies this
      ensures Valid()
      ensures r == RateOutcome(old(Accounts()), PurchaseKey(buyer, skillId), rating)
      ensures r.Err? ==> unchanged(this)
      ensures r.Ok? ==> Accounts() == Rated(old(Accounts()), PurchaseKey(buyer, skillId), rating) && transfers == old(transfers)
    {
      var key := PurchaseKey(buyer, skillId);
      if key !in purchases || skillId !in skills || skills[skillId].publisher !in agents {
        return Err(AccountNotInitialized);
      }
      var receipt := purchases[key];
      if receipt.buyer != buyer {
        return Err(Program(Unauthorized));
      }
      if !(MIN_STARS as u8 <= rating <= MAX_STARS as u8) {
        return Err(Program(InvalidRating));
      }
      if receipt.rating != 0 {
        return Err(Program(AlreadyRated));
      }
      var sk := skills[skillId];
      var seller := agents[sk.publisher];
      var skillRating := RunningAverage(sk.avgRating, sk.totalRatings, rating);
      var sellerRating := RunningAverage(seller.reputationScore, seller.totalRatings, rating);
      if skillRating.Overflow? || sellerRating.Overflow? {
        return Err(Panicked);
      }
      Preservation.RatedConsistent(Accounts(), key, rating);
      purchases := purchases[key := receipt.(rating := rating)];
      skills := skills[skillId := sk.(avgRating := skillRating.value.average,
                                      totalRatings := skillRating.value.count)];
      agents := agents[sk.publisher := seller.(reputationScore := sellerRating.value.average,
                                               totalRatings := sellerRating.value.count)];
      r := Ok;
    }

    /** `update_skill_price`: the publisher sets a new, positive price. */
    method UpdateSkillPrice(publisher: Pubkey, skillId: Bytes, newPrice: u64, now: i64) returns (r: Outcome)
      requires Valid()
      modifies this
      ensures Valid()
      ensures r == UpdatePriceOutcome(old(Accounts()), skillId, publisher, newPrice)
      ensures r.Err? ==> unchanged(this)
      ensures r.Ok? ==> Accounts() == PriceUpdated(old(Accounts()), skillId, newPrice, now) && transfers == old(transfers)
    {
      if skillId !in skills {
        return Err(AccountNotInitialized);
      }
      if skills[skillId].publisher != publisher {
        return Err(Program(Unauthorized));
      }
      if newPrice == 0 {
        return Err(Program(PriceMustBePositive));
      }
      Preservation.PriceUpdatedConsistent(Accounts(), skillId, newPrice, now);
      skills := skills[skillId := skills[skillId].(priceUsdc := newPrice, updatedAt := now)];
      r := Ok;
    }

    /** `deactivate_skill`: the publisher withdraws a skill from sale. */
    method DeactivateSkill(publisher: Pubkey, skillId: Bytes, now: i64) returns (r: Outcome)
      requires Valid()
      modifies this
      ensures Valid()
      ensures r == DeactivateOutcome(old(Accounts()), skillId, publisher)
      ensures r.Err? ==> unchanged(this)
      ensures r.Ok? ==> Accounts() == Deactivated(old(Accounts()), skillId, now) && transfers == old(transfers)
    {
      if skillId !in skills {
        return Err(AccountNotInitialized);
      }
      if skills[skillId].publisher != publisher {
        return Err(Program(Unauthorized));
      }
      Preservation.DeactivatedConsistent(Accounts(), skillId, now);
      skills := skills[skillId := skills[skillId].(isActive := false, updatedAt := now)];
      r := Ok;
    }
  }
}
