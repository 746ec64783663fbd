/** Every successful instruction keeps the bookkeeping invariant of `Ledger`,
    and what the invariant implies about the stored statistics. */
module Preservation {
  import opened Types
  import opened Arith
  import opened Ledger

  // ---------------------------------------------------------------------------
  // How the counted sets move
  // ---------------------------------------------------------------------------

  /** Changing skills without changing who published them leaves every
      agent's published skills and sales as they were. */
  lemma PublishersFrame(skills: map<Bytes, Skill>, skills': map<Bytes, Skill>,
                        purchases: map<PurchaseKey, Purchase>, owner: Pubkey)
    requires skills'.Keys == skills.Keys
    requires forall id :: id in skills ==> skills'[id].publisher == skills[id].publisher
    ensures SkillsOf(skills', owner) == SkillsOf(skills, owner)
    ensures SalesOf(skills', purchases, owner) == SalesOf(skills, purchases, owner)
    ensures RatedSalesOf(skills', purchases, owner) == RatedSalesOf(skills, purchases, owner)
  {
  }

  /** Whether receipt `key` is a sale of a skill published by `owner`. */
  predicate SoldBy(skills: map<Bytes, Skill>, key: PurchaseKey, owner: Pubkey)
  {
    key.skill in skills && skills[key.skill].publisher == owner
  }

  /** A new, unrated receipt adds one purchase and its price to its own skill,
      and nothing to any other skill. */
  lemma NewReceiptForSkill(purchases: map<PurchaseKey, Purchase>, key: PurchaseKey, p: Purchase, id: Bytes)
    requires key !in purchases && p.rating == 0
    ensures var purchases' := purchases[key := p];
      && |PurchasesOf(purchases', id)| == |PurchasesOf(purchases, id)| + (if key.skill == id then 1 else 0)
      && RatedPurchasesOf(purchases', id) == RatedPurchasesOf(purchases, id)
      && Total(PurchasesOf(purchases', id), PricePaid(purchases'))
         == Total(PurchasesOf(purchases, id), PricePaid(purchases)) + (if key.skill == id then p.pricePaid as int else 0)
  {
    var purchases' := purchases[key := p];
    var keys := PurchasesOf(purchases, id);
    NewPurchaseSets(purchases, key, p, id);
    TotalAgree(keys, PricePaid(purchases'), PricePaid(purchases));
    if key.skill == id {
      TotalInsert(keys, PricePaid(purchases'), key);
    }
  }

  lemma NewPurchaseSets(purchases: map<PurchaseKey, Purchase>, key: PurchaseKey, p: Purchase, id: Bytes)
    requires key !in purchases && p.rating == 0
    ensures PurchasesOf(purchases[key := p], id)
            == PurchasesOf(purchases, id) + (if key.skill == id then {key} else {})
    ensures RatedPurchasesOf(purchases[key := p], id) == RatedPurchasesOf(purchases, id)
  {
  }

  /** A new, unrated receipt adds one sale and the seller's share of its price
      to the publisher of its skill, and nothing to any other agent. */
  lemma NewReceiptForSeller(skills: map<Bytes, Skill>, skills': map<Bytes, Skill>,
                            purchases: map<PurchaseKey, Purchase>, key: PurchaseKey, p: Purchase, owner: Pubkey)
    requires key !in purchases && p.rating == 0
    requires skills'.Keys == skills.Keys
    requires forall id :: id in skills ==> skills'[id].publisher == skills[id].publisher
    ensures var purchases' := purchases[key := p];
      && SkillsOf(skills', owner) == SkillsOf(skills, owner)
      && |SalesOf(skills', purchases', owner)| == |SalesOf(skills, purchases, owner)| + (if SoldBy(skills, key, owner) then 1 else 0)
      && RatedSalesOf(skills', purchases', owner) == RatedSalesOf(skills, purchases, owner)
      && Total(SalesOf(skills', purchases', owner), SellerShare(purchases'))
         == Total(SalesOf(skills, purchases, owner), SellerShare(purchases))
            + (if SoldBy(skills, key, owner) then p.pricePaid as int - p.feePaid as int else 0)
  {
    PublishersFrame(skills, skills', purchases[key := p], owner);
    NewSale(skills, purchases, key, p, owner);
  }

  /** `NewReceiptForSeller` for an unchanged skill map. */
  lemma NewSale(skills: map<Bytes, Skill>, purchases: map<PurchaseKey, Purchase>,
                key: PurchaseKey, p: Purchase, owner: Pubkey)
    requires key !in purchases && p.rating == 0
    ensures var purchases' := purchases[key := p];
      && |SalesOf(skills, purchases', owner)| == |SalesOf(skills, purchases, owner)| + (if SoldBy(skills, key, owner) then 1 else 0)
      && RatedSalesOf(skills, purchases', owner) == RatedSalesOf(skills, purchases, owner)
      && Total(SalesOf(skills, purchases', owner), SellerShare(purchases'))
         == Total(SalesOf(skills, purchases, owner), SellerShare(purchases))
            + (if SoldBy(skills, key, owner) then p.pricePaid as int - p.feePaid as int else 0)
  {
    var purchases' := purchases[key := p];
    var keys := SalesOf(skills, purchases, owner);
    NewSaleSets(skills, purchases, key, p, owner);
    TotalAgree(keys, SellerShare(purchases'), SellerShare(purchases));
    if SoldBy(skills, key, owner) {
      TotalInsert(keys, SellerShare(purchases'), key);
    }
  }

  lemma NewSaleSets(skills: map<Bytes, Skill>, purchases: map<PurchaseKey, Purchase>,
                    key: PurchaseKey, p: Purchase, owner: Pubkey)
    requires key !in purchases && p.rating == 0
    ensures SalesOf(skills, purchases[key := p], owner)
            == SalesOf(skills, purchases, owner) + (if SoldBy(skills, key, owner) then {key} else {})
    ensures RatedSalesOf(skills, purchases[key := p], owner) == RatedSalesOf(skills, purchases, owner)
  {
  }

  /** Rating an unrated receipt adds one rating to its own skill and leaves
      the purchases and revenue of every skill as they were. */
  lemma RatedReceiptForSkill(purchases: map<PurchaseKey, Purchase>, key: PurchaseKey, rating: u8, id: Bytes)
    requires key in purchases && purchases[key].rating == 0 && rating != 0
    ensures var purchases' := purchases[key := purchases[key].(rating := rating)];
      && PurchasesOf(purchases', id) == PurchasesOf(purchases, id)
      && RatedPurchasesOf(purchases', id)
         == RatedPurchasesOf(purchases, id) + (if key.skill == id then {key} else {})
      && |RatedPurchasesOf(purchases', id)| == |RatedPurchasesOf(purchases, id)| + (if key.skill == id then 1 else 0)
      && Total(PurchasesOf(purchases', id), PricePaid(purchases'))
         == Total(PurchasesOf(purchases, id), PricePaid(purchases))
  {
    var purchases' := purchases[key := purchases[key].(rating := rating)];
    RatedPurchaseSets(purchases, key, rating, id);
    TotalAgree(PurchasesOf(purchases, id), PricePaid(purchases'), PricePaid(purchases));
  }

  lemma RatedPurchaseSets(purchases: map<PurchaseKey, Purchase>, key: PurchaseKey, rating: u8, id: Bytes)
    requires key in purchases && purchases[key].rating == 0 && rating != 0
    ensures var purchases' := purchases[key := purchases[key].(rating := rating)];
      && PurchasesOf(purchases', id) == PurchasesOf(purchases, id)
      && RatedPurchasesOf(purchases', id)
         == RatedPurchasesOf(purchases, id) + (if key.skill == id then {key} else {})
  {
  }

  /** Rating an unrated receipt adds one rating to the publisher of its skill
      and leaves every agent's sales and earnings as they were. */
  lemma RatedReceiptForSeller(skills: map<Bytes, Skill>, skills': map<Bytes, Skill>,
                              purchases: map<PurchaseKey, Purchase>, key: PurchaseKey, rating: u8, owner: Pubkey)
    requires key in purchases && purchases[key].rating == 0 && rating != 0
    requires skills'.Keys == skills.Keys
    requires forall id :: id in skills ==> skills'[id].publisher == skills[id].publisher
    ensures var purchases' := purchases[key := purchases[key].(rating := rating)];
      && SkillsOf(skills', owner) == SkillsOf(skills, owner)
      && SalesOf(skills', purchases', owner) == SalesOf(skills, purchases, owner)
      && RatedSalesOf(skills', purchases', owner)
         == RatedSalesOf(skills, purchases, owner) + (if SoldBy(skills, key, owner) then {key} else {})
      && |RatedSalesOf(skills', purchases', owner)|
         == |RatedSalesOf(skills, purchases, owner)| + (if SoldBy(skills, key, owner) then 1 else 0)
      && Total(SalesOf(skills', purchases', owner), SellerShare(purchases'))
         == Total(SalesOf(skills, purchases, owner), SellerShare(purchases))
  {
    PublishersFrame(skills, skills', purchases[key := purchases[key].(rating := rating)], owner);
    NewRatedSale(skills, purchases, key, rating, owner);
  }

  /** `RatedReceiptForSeller` for an unchanged skill map. */
  lemma NewRatedSale(skills: map<Bytes, Skill>, purchases: map<PurchaseKey, Purchase>,
                     key: PurchaseKey, rating: u8, owner: Pubkey)
    requires key in purchases && purchases[key].rating == 0 && rating != 0
    ensures var purchases' := purchases[key := purchases[key].(rating := rating)];
      && SalesOf(skills, purchases', owner) == SalesOf(skills, purchases, owner)
      && RatedSalesOf(skills, purchases', owner)
         == RatedSalesOf(skills, purchases, owner) + (if SoldBy(skills, key, owner) then {key} else {})
      && |RatedSalesOf(skills, purchases', owner)|
         == |RatedSalesOf(skills, purchases, owner)| + (if SoldBy(skills, key, owner) then 1 else 0)
      && Total(SalesOf(skills, purchases', owner), SellerShare(purchases'))
         == Total(SalesOf(skills, purchases, owner), SellerShare(purchases))
  {
    var purchases' := purchases[key := purchases[key].(rating := rating)];
    RatedSaleSets(skills, purchases, key, rating, owner);
    TotalAgree(SalesOf(skills, purchases, owner), SellerShare(purchases'), SellerShare(purchases));
  }

  lemma RatedSaleSets(skills: map<Bytes, Skill>, purchases: map<PurchaseKey, Purchase>,
                      key: PurchaseKey, rating: u8, owner: Pubkey)
    requires key in purchases && purchases[key].rating == 0 && rating != 0
    ensures var purchases' := purchases[key := purchases[key].(rating := rating)];
      && SalesOf(skills, purchases', owner) == SalesOf(skills, purchases, owner)
      && RatedSalesOf(skills, purchases', owner)
         == RatedSalesOf(skills, purchases, owner) + (if SoldBy(skills, key, owner) then {key} else {})
  {
  }

  /** A new receipt leaves the stars of the other receipts as they were. */
  lemma NewReceiptStars(purchases: map<PurchaseKey, Purchase>, key: PurchaseKey, p: Purchase, keys: set<PurchaseKey>)
    requires key !in purchases && keys <= purchases.Keys
    ensures Total(keys, Stars(purchases[key := p])) == Total(keys, Stars(purchases))
  {
    TotalAgree(keys, Stars(purchases[key := p]), Stars(purchases));
  }

  /** Rating an unrated receipt adds its stars to every set of rated receipts
      that gains it, and nothing to the others. */
  lemma RatedReceiptStars(purchases: map<PurchaseKey, Purchase>, key: PurchaseKey, rating: u8, keys: set<PurchaseKey>)
    requires key in purchases && keys <= purchases.Keys && key !in keys
    ensures var purchases' := purchases[key := purchases[key].(rating := rating)];
      && Total(keys, Stars(purchases')) == Total(keys, Stars(purchases))
      && Total(keys + {key}, Stars(purchases')) == Total(keys, Stars(purchases)) + rating as int
  {
    var purchases' := purchases[key := purchases[key].(rating := rating)];
    TotalAgree(keys, Stars(purchases'), Stars(purchases));
    TotalInsert(keys, Stars(purchases'), key);
  }

  /** A new, unrated receipt leaves every stored average at or below its mean,
      as long as the average and its count are untouched. */
  lemma SkillBelowMeanNewReceipt(purchases: map<PurchaseKey, Purchase>, key: PurchaseKey, p: Purchase,
                                 id: Bytes, sk: Skill, sk': Skill)
    requires key !in purchases && p.rating == 0
    requires sk'.avgRating == sk.avgRating && sk'.totalRatings == sk.totalRatings
    requires SkillBelowMean(id, sk, purchases)
    ensures SkillBelowMean(id, sk', purchases[key := p])
  {
    NewPurchaseSets(purchases, key, p, id);
    NewReceiptStars(purchases, key, p, RatedPurchasesOf(purchases, id));
  }

  lemma AgentBelowMeanNewReceipt(skills: map<Bytes, Skill>, skills': map<Bytes, Skill>,
                                 purchases: map<PurchaseKey, Purchase>, key: PurchaseKey, p: Purchase,
                                 owner: Pubkey, a: Agent, a': Agent)
    requires key !in purchases && p.rating == 0
    requires skills'.Keys == skills.Keys
    requires forall id :: id in skills ==> skills'[id].publisher == skills[id].publisher
    requires a'.reputationScore == a.reputationScore && a'.totalRatings == a.totalRatings
    requires AgentBelowMean(owner, a, skills, purchases)
    ensures AgentBelowMean(owner, a', skills', purchases[key := p])
  {
    PublishersFrame(skills, skills', purchases[key := p], owner);
    NewSaleSets(skills, purchases, key, p, owner);
    NewReceiptStars(purchases, key, p, RatedSalesOf(skills, purchases, owner));
  }

  /** Rating an unrated receipt keeps an average at or below its mean when the
      average of the receipt's own skill takes in at most the new stars, and
      every other average is untouched. */
  lemma SkillBelowMeanRated(purchases: map<PurchaseKey, Purchase>, key: PurchaseKey, rating: u8,
                            id: Bytes, sk: Skill, sk': Skill)
    requires key in purchases && purchases[key].rating == 0 && rating != 0
    requires SkillBelowMean(id, sk, purchases)
    requires if key.skill == id
             then sk'.avgRating as int * sk'.totalRatings as int
                  <= sk.avgRating as int * sk.totalRatings as int + rating as int
             else sk'.avgRating == sk.avgRating && sk'.totalRatings == sk.totalRatings
    ensures SkillBelowMean(id, sk', purchases[key := purchases[key].(rating := rating)])
  {
    var purchases' := purchases[key := purchases[key].(rating := rating)];
    var rated := RatedPurchasesOf(purchases, id);
    RatedPurchaseSets(purchases, key, rating, id);
    RatedReceiptStars(purchases, key, rating, rated);
    if key.skill == id {
      assert RatedPurchasesOf(purchases', id) == rated + {key};
    } else {
      assert RatedPurchasesOf(purchases', id) == rated;
    }
  }

  lemma AgentBelowMeanRated(skills: map<Bytes, Skill>, skills': map<Bytes, Skill>,
                            purchases: map<PurchaseKey, Purchase>, key: PurchaseKey, rating: u8,
                            owner: Pubkey, a: Agent, a': Agent)
    requires key in purchases && purchases[key].rating == 0 && rating != 0
    requires skills'.Keys == skills.Keys
    requires forall id :: id in skills ==> skills'[id].publisher == skills[id].publisher
    requires AgentBelowMean(owner, a, skills, purchases)
    requires if SoldBy(skills, key, owner)
             then a'.reputationScore as int * a'.totalRatings as int
                  <= a.reputationScore as int * a.totalRatings as int + rating as int
             else a'.reputationScore == a.reputationScore && a'.totalRatings == a.totalRatings
    ensures AgentBelowMean(owner, a', skills', purchases[key := purchases[key].(rating := rating)])
  {
    var purchases' := purchases[key := purchases[key].(rating := rating)];
    var rated := RatedSalesOf(skills, purchases, owner);
    PublishersFrame(skills, skills', purchases', owner);
    RatedSaleSets(skills, purchases, key, rating, owner);
    RatedReceiptStars(purchases, key, rating, rated);
    if SoldBy(skills, key, owner) {
      assert RatedSalesOf(skills', purchases', owner) == rated + {key};
    } else {
      assert RatedSalesOf(skills', purchases', owner) == rated;
    }
  }

  /** No skill and no receipt refers to an owner without an agent. */
  lemma NothingOfUnknownOwner(s: State, owner: Pubkey)
    requires SkillsOk(s) && PurchasesOk(s) && owner !in s.agents
    ensures SkillsOf(s.skills, owner) == {}
    ensures SalesOf(s.skills, s.purchases, owner) == {}
    ensures RatedSalesOf(s.skills, s.purchases, owner) == {}
  {
    forall id | id in s.skills ensures s.skills[id].publisher != owner {
      assert SkillOk(id, s.skills[id], s.agents, s.purchases);
    }
  }

  /** No receipt refers to a skill id that is not registered. */
  lemma NothingOfUnknownSkill(s: State, id: Bytes)
    requires PurchasesOk(s) && id !in s.skills
    ensures PurchasesOf(s.purchases, id) == {}
    ensures RatedPurchasesOf(s.purchases, id) == {}
  {
    forall k | k in s.purchases ensures k.skill != id {
      assert PurchaseOk(k, s.purchases[k], s.skills);
    }
  }

  // ---------------------------------------------------------------------------
  // Each instruction keeps the invariant
  // ---------------------------------------------------------------------------

  /** `initialize_marketplace` with a fee of at most 50% on fresh accounts. */
  lemma InitializedConsistent(s: State, authority: Pubkey, feeBps: u16)
    requires Consistent(s) && s.marketplace.None?
    requires feeBps as int <= MAX_FEE_BPS
    ensures Consistent(Initialized(s, authority, feeBps))
  {
    var s' := Initialized(s, authority, feeBps);
    assert s'.purchases.Keys == {};
    assert MarketplaceOk(s');
    InitializedBelowMean(s, authority, feeBps);
  }

  /** `register_agent` for an owner without an agent, within the length limits. */
  lemma AgentRegisteredConsistent(s: State, owner: Pubkey, name: Bytes, metadataUri: Bytes, now: i64)
    requires Consistent(s) && owner !in s.agents
    requires |name| <= MAX_AGENT_NAME_LEN && |metadataUri| <= MAX_URI_LEN
    ensures Consistent(AgentRegistered(s, NewAgent(owner, name, metadataUri, now)))
  {
    var s' := AgentRegistered(s, NewAgent(owner, name, metadataUri, now));
    NothingOfUnknownOwner(s, owner);
    assert AgentOk(owner, s'.agents[owner], s'.skills, s'.purchases);
    assert AgentsOk(s');
    forall id | id in s'.skills ensures SkillOk(id, s'.skills[id], s'.agents, s'.purchases) {
      assert SkillOk(id, s.skills[id], s.agents, s.purchases);
    }
    AgentRegisteredBelowMean(s, NewAgent(owner, name, metadataUri, now));
  }

  /** `register_skill` of a new skill id by a publisher that has an agent,
      within the length limits and with a positive price. */
  lemma SkillRegisteredConsistent(s: State, sk: Skill)
    requires Consistent(s) && s.marketplace.Some?
    requires sk.publisher in s.agents && sk.skillId !in s.skills
    requires FreshSkill(sk)
    requires SkillFits(s, sk.publisher)
    ensures Consistent(SkillRegistered(s, sk))
  {
    SkillRegisteredMarketplace(s, sk);
    SkillRegisteredAgents(s, sk);
    SkillRegisteredSkills(s, sk);
    SkillRegisteredPurchases(s, sk);
    SkillRegisteredBelowMean(s, sk);
  }

  /** A skill record as `register_skill` creates it, within the limits it checks. */
  ghost predicate FreshSkill(sk: Skill)
  {
    && sk == NewSkill(sk.publisher, sk.skillId, sk.name, sk.description, sk.endpointCount,
                      sk.authType, sk.priceUsdc, sk.metadataUri, sk.createdAt)
    && |sk.skillId| <= MAX_SKILL_ID_LEN && |sk.name| <= MAX_SKILL_NAME_LEN
    && |sk.description| <= MAX_DESCRIPTION_LEN && |sk.metadataUri| <= MAX_URI_LEN
    && sk.priceUsdc > 0
  }

  lemma SkillRegisteredMarketplace(s: State, sk: Skill)
    requires MarketplaceOk(s) && s.marketplace.Some?
    requires sk.publisher in s.agents && sk.skillId !in s.skills && SkillFits(s, sk.publisher)
    ensures MarketplaceOk(SkillRegistered(s, sk))
  {
    assert |s.skills[sk.skillId := sk]| == |s.skills| + 1;
  }

  lemma SkillRegisteredAgents(s: State, sk: Skill)
    requires AgentsOk(s) && PurchasesOk(s) && s.marketplace.Some?
    requires sk.publisher in s.agents && sk.skillId !in s.skills && SkillFits(s, sk.publisher)
    ensures AgentsOk(SkillRegistered(s, sk))
  {
    var s' := SkillRegistered(s, sk);
    var id, pub := sk.skillId, sk.publisher;
    forall k | k in s.purchases ensures k.skill in s.skills {
      assert PurchaseOk(k, s.purchases[k], s.skills);
    }
    forall o | o in s'.agents ensures AgentOk(o, s'.agents[o], s'.skills, s'.purchases) {
      assert AgentOk(o, s.agents[o], s.skills, s.purchases);
      NewSkillSets(s.skills, s.purchases, sk, o);
    }
  }

  /** A new skill id, not referred to by any receipt, joins its publisher's
      skills and no sales. */
  lemma NewSkillSets(skills: map<Bytes, Skill>, purchases: map<PurchaseKey, Purchase>, sk: Skill, owner: Pubkey)
    requires sk.skillId !in skills
    requires forall k :: k in purchases ==> k.skill in skills
    ensures SkillsOf(skills[sk.skillId := sk], owner)
         == SkillsOf(skills, owner) + (if sk.publisher == owner then {sk.skillId} else {})
    ensures SalesOf(skills[sk.skillId := sk], purchases, owner) == SalesOf(skills, purchases, owner)
    ensures RatedSalesOf(skills[sk.skillId := sk], purchases, owner) == RatedSalesOf(skills, purchases, owner)
  {
  }

  lemma SkillRegisteredSkills(s: State, sk: Skill)
    requires SkillsOk(s) && PurchasesOk(s) && s.marketplace.Some?
    requires sk.publisher in s.agents && sk.skillId !in s.skills && SkillFits(s, sk.publisher)
    requires FreshSkill(sk)
    ensures SkillsOk(SkillRegistered(s, sk))
  {
    var s' := SkillRegistered(s, sk);
    NothingOfUnknownSkill(s, sk.skillId);
    forall id2 | id2 in s'.skills ensures SkillOk(id2, s'.skills[id2], s'.agents, s'.purchases) {
      if id2 != sk.skillId {
        assert SkillOk(id2, s.skills[id2], s.agents, s.purchases);
      }
    }
  }

  lemma SkillRegisteredPurchases(s: State, sk: Skill)
    requires PurchasesOk(s) && s.marketplace.Some?
    requires sk.publisher in s.agents && SkillFits(s, sk.publisher)
    ensures PurchasesOk(SkillRegistered(s, sk))
  {
    var s' := SkillRegistered(s, sk);
    forall k | k in s'.purchases ensures PurchaseOk(k, s'.purchases[k], s'.skills) {
      assert PurchaseOk(k, s.purchases[k], s.skills);
    }
  }

  /** `purchase_skill` of a registered skill, by a buyer without a receipt for
      it, when the fee split and the checked additions succeed. */
  lemma PurchasedConsistent(s: State, key: PurchaseKey, now: i64)
    requires Consistent(s) && s.marketplace.Some?
    requires key.skill in s.skills && key !in s.purchases
    requires s.skills[key.skill].publisher in s.agents
    requires PurchaseFits(s, key.skill)
    ensures Consistent(Purchased(s, key, now))
  {
    PurchasedMarketplace(s, key, now);
    PurchasedAgents(s, key, now);
    PurchasedSkills(s, key, now);
    assert SkillOk(key.skill, s.skills[key.skill], s.agents, s.purchases);
    PurchasedPurchases(s, key, now);
    PurchasedBelowMean(s, key, now);
  }

  lemma PurchasedMarketplace(s: State, key: PurchaseKey, now: i64)
    requires MarketplaceOk(s) && s.marketplace.Some?
    requires key.skill in s.skills && key !in s.purchases
    requires s.skills[key.skill].publisher in s.agents
    requires PurchaseFits(s, key.skill)
    ensures MarketplaceOk(Purchased(s, key, now))
  {
    var s' := Purchased(s, key, now);
    assert s'.purchases.Keys == s.purchases.Keys + {key};
    TotalInsert(s.purchases.Keys, PricePaid(s'.purchases), key);
    TotalAgree(s.purchases.Keys, PricePaid(s'.purchases), PricePaid(s.purchases));
  }

  lemma PurchasedAgents(s: State, key: PurchaseKey, now: i64)
    requires AgentsOk(s) && s.marketplace.Some?
    requires key.skill in s.skills && key !in s.purchases
    requires s.skills[key.skill].publisher in s.agents
    requires PurchaseFits(s, key.skill)
    ensures AgentsOk(Purchased(s, key, now))
  {
    var s' := Purchased(s, key, now);
    forall o | o in s'.agents ensures AgentOk(o, s'.agents[o], s'.skills, s'.purchases) {
      PurchasedAgent(s, key, now, o);
    }
  }

  lemma PurchasedAgent(s: State, key: PurchaseKey, now: i64, o: Pubkey)
    requires s.marketplace.Some?
    requires key.skill in s.skills && key !in s.purchases
    requires s.skills[key.skill].publisher in s.agents
    requires PurchaseFits(s, key.skill)
    requires o in s.agents && AgentOk(o, s.agents[o], s.skills, s.purchases)
    ensures var s' := Purchased(s, key, now); AgentOk(o, s'.agents[o], s'.skills, s'.purchases)
  {
    var s' := Purchased(s, key, now);
    NewReceiptForSeller(s.skills, s'.skills, s.purchases, key, s'.purchases[key], o);
  }

  lemma PurchasedSkills(s: State, key: PurchaseKey, now: i64)
    requires SkillsOk(s) && s.marketplace.Some?
    requires key.skill in s.skills && key !in s.purchases
    requires s.skills[key.skill].publisher in s.agents
    requires PurchaseFits(s, key.skill)
    ensures SkillsOk(Purchased(s, key, now))
  {
    var s' := Purchased(s, key, now);
    forall id2 | id2 in s'.skills ensures SkillOk(id2, s'.skills[id2], s'.agents, s'.purchases) {
      PurchasedSkill(s, key, now, id2);
    }
  }

  lemma PurchasedSkill(s: State, key: PurchaseKey, now: i64, id: Bytes)
    requires s.marketplace.Some?
    requires key.skill in s.skills && key !in s.purchases
    requires s.skills[key.skill].publisher in s.agents
    requires PurchaseFits(s, key.skill)
    requires id in s.skills && SkillOk(id, s.skills[id], s.agents, s.purchases)
    ensures var s' := Purchased(s, key, now); SkillOk(id, s'.skills[id], s'.agents, s'.purchases)
  {
    var s' := Purchased(s, key, now);
    NewReceiptForSkill(s.purchases, key, s'.purchases[key], id);
  }

  lemma PurchasedPurchases(s: State, key: PurchaseKey, now: i64)
    requires PurchasesOk(s) && MarketplaceOk(s) && s.marketplace.Some?
    requires key.skill in s.skills && key !in s.purchases
    requires s.skills[key.skill].publisher in s.agents
    requires s.skills[key.skill].priceUsdc > 0
    requires PurchaseFits(s, key.skill)
    ensures PurchasesOk(Purchased(s, key, now))
  {
    var s' := Purchased(s, key, now);
    FeeAtMostHalf(s.skills[key.skill].priceUsdc, s.marketplace.value.feeBps);
    forall k | k in s'.purchases ensures PurchaseOk(k, s'.purchases[k], s'.skills) {
      if k != key {
        assert PurchaseOk(k, s.purchases[k], s.skills);
      }
    }
  }

  /** `rate_skill` of an unrated receipt with 1..5 stars, when both running
      averages succeed. */
  lemma RatedConsistent(s: State, key: PurchaseKey, rating: u8)
    requires Consistent(s)
    requires key in s.purchases && s.purchases[key].rating == 0
    requires MIN_STARS as u8 <= rating <= MAX_STARS as u8
    requires key.skill in s.skills && s.skills[key.skill].publisher in s.agents
    requires RatingFits(s, key, rating)
    ensures Consistent(Rated(s, key, rating))
  {
    RatedMarketplace(s, key, rating);
    RatedAgents(s, key, rating);
    RatedSkills(s, key, rating);
    RatedPurchases(s, key, rating);
    RatedBelowMean(s, key, rating);
  }

  lemma RatedMarketplace(s: State, key: PurchaseKey, rating: u8)
    requires MarketplaceOk(s)
    requires key in s.purchases
    requires key.skill in s.skills && s.skills[key.skill].publisher in s.agents
    requires RatingFits(s, key, rating)
    ensures MarketplaceOk(Rated(s, key, rating))
  {
    var s' := Rated(s, key, rating);
    assert s'.purchases.Keys == s.purchases.Keys;
    TotalAgree(s.purchases.Keys, PricePaid(s'.purchases), PricePaid(s.purchases));
  }

  lemma RatedAgents(s: State, key: PurchaseKey, rating: u8)
    requires AgentsOk(s)
    requires key in s.purchases && s.purchases[key].rating == 0
    requires MIN_STARS as u8 <= rating <= MAX_STARS as u8
    requires key.skill in s.skills && s.skills[key.skill].publisher in s.agents
    requires RatingFits(s, key, rating)
    ensures AgentsOk(Rated(s, key, rating))
  {
    var s' := Rated(s, key, rating);
    forall o | o in s'.agents ensures AgentOk(o, s'.agents[o], s'.skills, s'.purchases) {
      RatedAgent(s, key, rating, o);
    }
  }

  lemma RatedAgent(s: State, key: PurchaseKey, rating: u8, o: Pubkey)
    requires key in s.purchases && s.purchases[key].rating == 0
    requires MIN_STARS as u8 <= rating <= MAX_STARS as u8
    requires key.skill in s.skills && s.skills[key.skill].publisher in s.agents
    requires RatingFits(s, key, rating)
    requires o in s.agents && AgentOk(o, s.agents[o], s.skills, s.purchases)
    ensures var s' := Rated(s, key, rating); AgentOk(o, s'.agents[o], s'.skills, s'.purchases)
  {
    var s' := Rated(s, key, rating);
    var a := s.agents[o];
    if o == s.skills[key.skill].publisher {
      StarsKept(a.reputationScore, a.totalRatings, rating);
    }
    RatedReceiptForSeller(s.skills, s'.skills, s.purchases, key, rating, o);
  }

  lemma RatedSkills(s: State, key: PurchaseKey, rating: u8)
    requires SkillsOk(s)
    requires key in s.purchases && s.purchases[key].rating == 0
    requires MIN_STARS as u8 <= rating <= MAX_STARS as u8
    requires key.skill in s.skills && s.skills[key.skill].publisher in s.agents
    requires RatingFits(s, key, rating)
    ensures SkillsOk(Rated(s, key, rating))
  {
    var s' := Rated(s, key, rating);
    forall id2 | id2 in s'.skills ensures SkillOk(id2, s'.skills[id2], s'.agents, s'.purchases) {
      RatedSkill(s, key, rating, id2);
    }
  }

  lemma RatedSkill(s: State, key: PurchaseKey, rating: u8, id: Bytes)
    requires key in s.purchases && s.purchases[key].rating == 0
    requires MIN_STARS as u8 <= rating <= MAX_STARS as u8
    requires key.skill in s.skills && s.skills[key.skill].publisher in s.agents
    requires RatingFits(s, key, rating)
    requires id in s.skills && SkillOk(id, s.skills[id], s.agents, s.purchases)
    ensures var s' := Rated(s, key, rating); SkillOk(id, s'.skills[id], s'.agents, s'.purchases)
  {
    var s' := Rated(s, key, rating);
    var sk := s.skills[id];
    if id == key.skill {
      StarsKept(sk.avgRating, sk.totalRatings, rating);
    }
    RatedReceiptForSkill(s.purchases, key, rating, id);
  }

  lemma RatedPurchases(s: State, key: PurchaseKey, rating: u8)
    requires PurchasesOk(s)
    requires key in s.purchases
    requires rating as int <= MAX_STARS
    requires key.skill in s.skills && s.skills[key.skill].publisher in s.agents
    requires RatingFits(s, key, rating)
    ensures PurchasesOk(Rated(s, key, rating))
  {
    var s' := Rated(s, key, rating);
    forall k | k in s'.purchases ensures PurchaseOk(k, s'.purchases[k], s'.skills) {
      assert PurchaseOk(k, s.purchases[k], s.skills);
    }
  }

  /** Changing a skill's price (to a positive one), activity flag or update
      time keeps the invariant: nothing else refers to them. */
  lemma SkillEditedConsistent(s: State, id: Bytes, sk': Skill)
    requires Consistent(s) && id in s.skills
    requires sk' == s.skills[id].(priceUsdc := sk'.priceUsdc, isActive := sk'.isActive, updatedAt := sk'.updatedAt)
    requires sk'.priceUsdc > 0
    ensures Consistent(s.(skills := s.skills[id := sk']))
  {
    var s' := s.(skills := s.skills[id := sk']);
    SkillEditedAgents(s, id, sk');
    SkillEditedSkills(s, id, sk');
    SkillEditedPurchases(s, id, sk');
    SkillEditedMarketplace(s, id, sk');
    SkillEditedBelowMean(s, id, sk');
  }

  lemma SkillEditedMarketplace(s: State, id: Bytes, sk': Skill)
    requires MarketplaceOk(s) && id in s.skills
    ensures MarketplaceOk(s.(skills := s.skills[id := sk']))
  {
    assert |s.skills[id := sk']| == |s.skills|;
  }

  lemma SkillEditedAgents(s: State, id: Bytes, sk': Skill)
    requires AgentsOk(s) && id in s.skills && sk'.publisher == s.skills[id].publisher
    ensures AgentsOk(s.(skills := s.skills[id := sk']))
  {
    var s' := s.(skills := s.skills[id := sk']);
    forall o | o in s'.agents ensures AgentOk(o, s'.agents[o], s'.skills, s'.purchases) {
      assert AgentOk(o, s.agents[o], s.skills, s.purchases);
      PublishersFrame(s.skills, s'.skills, s.purchases, o);
    }
  }

  lemma SkillEditedSkills(s: State, id: Bytes, sk': Skill)
    requires SkillsOk(s) && id in s.skills
    requires sk' == s.skills[id].(priceUsdc := sk'.priceUsdc, isActive := sk'.isActive, updatedAt := sk'.updatedAt)
    requires sk'.priceUsdc > 0
    ensures SkillsOk(s.(skills := s.skills[id := sk']))
  {
    var s' := s.(skills := s.skills[id := sk']);
    forall id2 | id2 in s'.skills ensures SkillOk(id2, s'.skills[id2], s'.agents, s'.purchases) {
      assert SkillOk(id2, s.skills[id2], s.agents, s.purchases);
    }
  }

  lemma SkillEditedPurchases(s: State, id: Bytes, sk': Skill)
    requires PurchasesOk(s) && id in s.skills
    ensures PurchasesOk(s.(skills := s.skills[id := sk']))
  {
    var s' := s.(skills := s.skills[id := sk']);
    forall k | k in s'.purchases ensures PurchaseOk(k, s'.purchases[k], s'.skills) {
      assert PurchaseOk(k, s.purchases[k], s.skills);
    }
  }

  /** `update_skill_price` with a positive price. */
  lemma PriceUpdatedConsistent(s: State, id: Bytes, newPrice: u64, now: i64)
    requires Consistent(s) && id in s.skills && newPrice > 0
    ensures Consistent(PriceUpdated(s, id, newPrice, now))
  {
    SkillEditedConsistent(s, id, s.skills[id].(priceUsdc := newPrice, updatedAt := now));
  }

  /** `deactivate_skill`. */
  lemma DeactivatedConsistent(s: State, id: Bytes, now: i64)
    requires Consistent(s) && id in s.skills
    ensures Consistent(Deactivated(s, id, now))
  {
    assert SkillOk(id, s.skills[id], s.agents, s.purchases);
    SkillEditedConsistent(s, id, s.skills[id].(isActive := false, updatedAt := now));
  }

  // ---------------------------------------------------------------------------
  // Stored averages stay at or below the mean of the ratings
  // ---------------------------------------------------------------------------

  lemma InitializedBelowMean(s: State, authority: Pubkey, feeBps: u16)
    requires AveragesBelowMean(s)
    ensures AveragesBelowMean(Initialized(s, authority, feeBps))
  {
  }

  lemma AgentRegisteredBelowMean(s: State, a: Agent)
    requires AveragesBelowMean(s) && SkillsOk(s) && PurchasesOk(s)
    requires a.owner !in s.agents && a.totalRatings == 0
    ensures AveragesBelowMean(AgentRegistered(s, a))
  {
    var s' := AgentRegistered(s, a);
    NothingOfUnknownOwner(s, a.owner);
    assert AgentBelowMean(a.owner, a, s'.skills, s'.purchases);
    forall o | o in s'.agents ensures AgentBelowMean(o, s'.agents[o], s'.skills, s'.purchases) {
      if o != a.owner {
        assert AgentBelowMean(o, s.agents[o], s.skills, s.purchases);
      }
    }
  }

  lemma SkillRegisteredBelowMean(s: State, sk: Skill)
    requires AveragesBelowMean(s) && PurchasesOk(s) && s.marketplace.Some?
    requires sk.publisher in s.agents && sk.skillId !in s.skills && SkillFits(s, sk.publisher)
    requires sk.totalRatings == 0
    ensures AveragesBelowMean(SkillRegistered(s, sk))
  {
    var s' := SkillRegistered(s, sk);
    NothingOfUnknownSkill(s, sk.skillId);
    assert SkillBelowMean(sk.skillId, sk, s'.purchases);
    forall k | k in s.purchases ensures k.skill in s.skills {
      assert PurchaseOk(k, s.purchases[k], s.skills);
    }
    forall o | o in s'.agents ensures AgentBelowMean(o, s'.agents[o], s'.skills, s'.purchases) {
      assert AgentBelowMean(o, s.agents[o], s.skills, s.purchases);
      NewSkillSets(s.skills, s.purchases, sk, o);
    }
    forall id | id in s'.skills ensures SkillBelowMean(id, s'.skills[id], s'.purchases) {
      if id != sk.skillId {
        assert SkillBelowMean(id, s.skills[id], s.purchases);
      }
    }
  }

  lemma PurchasedBelowMean(s: State, key: PurchaseKey, now: i64)
    requires AveragesBelowMean(s) && s.marketplace.Some?
    requires key.skill in s.skills && key !in s.purchases
    requires s.skills[key.skill].publisher in s.agents
    requires PurchaseFits(s, key.skill)
    ensures AveragesBelowMean(Purchased(s, key, now))
  {
    var s' := Purchased(s, key, now);
    forall id | id in s'.skills ensures SkillBelowMean(id, s'.skills[id], s'.purchases) {
      assert SkillBelowMean(id, s.skills[id], s.purchases);
      SkillBelowMeanNewReceipt(s.purchases, key, s'.purchases[key], id, s.skills[id], s'.skills[id]);
    }
    forall o | o in s'.agents ensures AgentBelowMean(o, s'.agents[o], s'.skills, s'.purchases) {
      assert AgentBelowMean(o, s.agents[o], s.skills, s.purchases);
      AgentBelowMeanNewReceipt(s.skills, s'.skills, s.purchases, key, s'.purchases[key], o, s.agents[o], s'.agents[o]);
    }
  }

  lemma RatedBelowMean(s: State, key: PurchaseKey, rating: u8)
    requires AveragesBelowMean(s)
    requires key in s.purchases && s.purchases[key].rating == 0 && rating != 0
    requires key.skill in s.skills && s.skills[key.skill].publisher in s.agents
    requires RatingFits(s, key, rating)
    ensures AveragesBelowMean(Rated(s, key, rating))
  {
    var s' := Rated(s, key, rating);
    forall id | id in s'.skills ensures SkillBelowMean(id, s'.skills[id], s'.purchases) {
      assert SkillBelowMean(id, s.skills[id], s.purchases);
      SkillBelowMeanRated(s.purchases, key, rating, id, s.skills[id], s'.skills[id]);
    }
    forall o | o in s'.agents ensures AgentBelowMean(o, s'.agents[o], s'.skills, s'.purchases) {
      assert AgentBelowMean(o, s.agents[o], s.skills, s.purchases);
      AgentBelowMeanRated(s.skills, s'.skills, s.purchases, key, rating, o, s.agents[o], s'.agents[o]);
    }
  }

  lemma SkillEditedBelowMean(s: State, id: Bytes, sk': Skill)
    requires AveragesBelowMean(s) && id in s.skills
    requires sk' == s.skills[id].(priceUsdc := sk'.priceUsdc, isActive := sk'.isActive, updatedAt := sk'.updatedAt)
    ensures AveragesBelowMean(s.(skills := s.skills[id := sk']))
  {
    var s' := s.(skills := s.skills[id := sk']);
    forall id2 | id2 in s'.skills ensures SkillBelowMean(id2, s'.skills[id2], s'.purchases) {
      assert SkillBelowMean(id2, s.skills[id2], s.purchases);
    }
    forall o | o in s'.agents ensures AgentBelowMean(o, s'.agents[o], s'.skills, s'.purchases) {
      assert AgentBelowMean(o, s.agents[o], s.skills, s.purchases);
      PublishersFrame(s.skills, s'.skills, s.purchases, o);
    }
  }
}
