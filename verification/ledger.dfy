/** The program's accounts as one value, the successful effect of each
    instruction on them, and the bookkeeping invariant that every instruction
    keeps: each counter and running total stored in an account equals what the
    other accounts record (skills per agent, purchases and ratings per skill
    and per seller, USDC paid), the fee never exceeds 50%, every average is a
    star value that never exceeds the mean of the ratings it summarises, and
    every account is stored under the address it is derived from. */
module Ledger {
  import opened Types
  import opened Arith

  /** The program-owned accounts: the marketplace (absent until initialised)
      and the agent, skill and purchase PDAs, each under the seeds that derive
      its address. */
  datatype State = State(
    marketplace: Option<Marketplace>,
    agents: map<Pubkey, Agent>,
    skills: map<Bytes, Skill>,
    purchases: map<PurchaseKey, Purchase>)

  // ---------------------------------------------------------------------------
  // Sums over a finite set of keys
  // ---------------------------------------------------------------------------

  ghost function Total<K>(keys: set<K>, amount: K -> int): int
    decreases keys
  {
    if keys == {} then 0
    else
      var k :| k in keys;
      amount(k) + Total(keys - {k}, amount)
  }

  /** Any element may be taken out of a total first. */
  lemma {:induction false} TotalRemove<K>(keys: set<K>, amount: K -> int, x: K)
    requires x in keys
    ensures Total(keys, amount) == amount(x) + Total(keys - {x}, amount)
    decreases keys
  {
    var k :| k in keys && Total(keys, amount) == amount(k) + Total(keys - {k}, amount);
    if k != x {
      TotalRemove(keys - {k}, amount, x);
      TotalRemove(keys - {x}, amount, k);
      assert keys - {k} - {x} == keys - {x} - {k};
    }
  }

  /** Adding a new key adds its amount. */
  lemma TotalInsert<K>(keys: set<K>, amount: K -> int, x: K)
    requires x !in keys
    ensures Total(keys + {x}, amount) == Total(keys, amount) + amount(x)
  {
    TotalRemove(keys + {x}, amount, x);
    assert keys + {x} - {x} == keys;
  }

  /** Totals depend only on the amounts of the keys summed. */
  lemma {:induction false} TotalAgree<K>(keys: set<K>, f: K -> int, g: K -> int)
    requires forall k :: k in keys ==> f(k) == g(k)
    ensures Total(keys, f) == Total(keys, g)
    decreases keys
  {
    if keys != {} {
      var k :| k in keys;
      TotalRemove(keys, f, k);
      TotalRemove(keys, g, k);
      TotalAgree(keys - {k}, f, g);
    }
  }

  /** A total of non-negative amounts does not shrink on a larger set. */
  lemma {:induction false} TotalSubset<K>(small: set<K>, large: set<K>, amount: K -> int)
    requires small <= large
    requires forall k :: k in large ==> amount(k) >= 0
    ensures Total(small, amount) <= Total(large, amount)
    decreases large
  {
    if large != {} {
      var k :| k in large;
      TotalRemove(large, amount, k);
      if k in small {
        TotalRemove(small, amount, k);
        TotalSubset(small - {k}, large - {k}, amount);
      } else {
        TotalSubset(small, large - {k}, amount);
      }
    }
  }

  /** The USDC a purchase paid, and the part of it its seller received. */
  function PricePaid(purchases: map<PurchaseKey, Purchase>): PurchaseKey -> int
  {
    k => if k in purchases then purchases[k].pricePaid as int else 0
  }

  function SellerShare(purchases: map<PurchaseKey, Purchase>): PurchaseKey -> int
  {
    k => if k in purchases then purchases[k].pricePaid as int - purchases[k].feePaid as int else 0
  }

  /** The stars a receipt holds: 0 until it is rated. */
  function Stars(purchases: map<PurchaseKey, Purchase>): PurchaseKey -> int
  {
    k => if k in purchases then purchases[k].rating as int else 0
  }

  // ---------------------------------------------------------------------------
  // What the counters count
  // ---------------------------------------------------------------------------

  /** The purchases of skill `id`, and those of them that have been rated. */
  function PurchasesOf(purchases: map<PurchaseKey, Purchase>, id: Bytes): set<PurchaseKey>
  {
    set k | k in purchases && k.skill == id
  }

  function RatedPurchasesOf(purchases: map<PurchaseKey, Purchase>, id: Bytes): set<PurchaseKey>
  {
    set k | k in purchases && k.skill == id && purchases[k].rating != 0
  }

  /** The skills published by `owner`. */
  function SkillsOf(skills: map<Bytes, Skill>, owner: Pubkey): set<Bytes>
  {
    set id | id in skills && skills[id].publisher == owner
  }

  /** The purchases of skills published by `owner`, and those of them rated. */
  function SalesOf(skills: map<Bytes, Skill>, purchases: map<PurchaseKey, Purchase>, owner: Pubkey): set<PurchaseKey>
  {
    set k | k in purchases && k.skill in skills && skills[k.skill].publisher == owner
  }

  function RatedSalesOf(skills: map<Bytes, Skill>, purchases: map<PurchaseKey, Purchase>, owner: Pubkey): set<PurchaseKey>
  {
    set k | k in purchases && k.skill in skills && skills[k.skill].publisher == owner && purchases[k].rating != 0
  }

  // ---------------------------------------------------------------------------
  // The bookkeeping invariant
  // ---------------------------------------------------------------------------

  ghost predicate MarketplaceOk(s: State)
  {
    match s.marketplace
    case None => s.skills == map[] && s.purchases == map[]
    case Some(m) =>
      && m.feeBps as int <= MAX_FEE_BPS
      && m.totalSkills as int == |s.skills|
      && m.totalPurchases as int == |s.purchases|
      && m.totalVolumeUsdc as int == Total(s.purchases.Keys, PricePaid(s.purchases))
  }

  ghost predicate AgentOk(owner: Pubkey, a: Agent, skills: map<Bytes, Skill>, purchases: map<PurchaseKey, Purchase>)
  {
    && a.owner == owner
    && |a.name| <= MAX_AGENT_NAME_LEN
    && |a.metadataUri| <= MAX_URI_LEN
    && StarsOk(a.reputationScore, a.totalRatings)
    && a.skillsPublished as int == |SkillsOf(skills, owner)|
    && a.skillsSold as int == |SalesOf(skills, purchases, owner)|
    && a.totalRatings as int == |RatedSalesOf(skills, purchases, owner)|
    && a.totalEarnings as int == Total(SalesOf(skills, purchases, owner), SellerShare(purchases))
  }

  ghost predicate SkillOk(id: Bytes, sk: Skill, agents: map<Pubkey, Agent>, purchases: map<PurchaseKey, Purchase>)
  {
    && sk.skillId == id
    && sk.publisher in agents
    && sk.agent == sk.publisher
    && |id| <= MAX_SKILL_ID_LEN
    && |sk.name| <= MAX_SKILL_NAME_LEN
    && |sk.description| <= MAX_DESCRIPTION_LEN
    && |sk.metadataUri| <= MAX_URI_LEN
    && sk.priceUsdc > 0
    && StarsOk(sk.avgRating, sk.totalRatings)
    && sk.totalPurchases as int == |PurchasesOf(purchases, id)|
    && sk.totalRatings as int == |RatedPurchasesOf(purchases, id)|
    && sk.totalRevenue as int == Total(PurchasesOf(purchases, id), PricePaid(purchases))
  }

  ghost predicate PurchaseOk(k: PurchaseKey, p: Purchase, skills: map<Bytes, Skill>)
  {
    && p.buyer == k.buyer
    && p.skill == k.skill
    && k.skill in skills
    && p.pricePaid > 0
    && 2 * p.feePaid as int <= p.pricePaid as int
    && p.rating as int <= MAX_STARS
  }

  ghost predicate AgentsOk(s: State)
  {
    forall o {:trigger AgentOk(o, s.agents[o], s.skills, s.purchases)} :: o in s.agents ==> AgentOk(o, s.agents[o], s.skills, s.purchases)
  }

  ghost predicate SkillsOk(s: State)
  {
    forall id {:trigger SkillOk(id, s.skills[id], s.agents, s.purchases)} :: id in s.skills ==> SkillOk(id, s.skills[id], s.agents, s.purchases)
  }

  ghost predicate PurchasesOk(s: State)
  {
    forall k {:trigger PurchaseOk(k, s.purchases[k], s.skills)} :: k in s.purchases ==> PurchaseOk(k, s.purchases[k], s.skills)
  }

  /** A stored average never exceeds the mean of the ratings it summarises:
      average × count is at most the stars on the rated receipts counted. */
  ghost predicate SkillBelowMean(id: Bytes, sk: Skill, purchases: map<PurchaseKey, Purchase>)
  {
    sk.avgRating as int * sk.totalRatings as int <= Total(RatedPurchasesOf(purchases, id), Stars(purchases))
  }

  ghost predicate AgentBelowMean(owner: Pubkey, a: Agent, skills: map<Bytes, Skill>, purchases: map<PurchaseKey, Purchase>)
  {
    a.reputationScore as int * a.totalRatings as int <= Total(RatedSalesOf(skills, purchases, owner), Stars(purchases))
  }

  ghost predicate AveragesBelowMean(s: State)
  {
    && (forall id {:trigger SkillBelowMean(id, s.skills[id], s.purchases)} ::
          id in s.skills ==> SkillBelowMean(id, s.skills[id], s.purchases))
    && (forall o {:trigger AgentBelowMean(o, s.agents[o], s.skills, s.purchases)} ::
          o in s.agents ==> AgentBelowMean(o, s.agents[o], s.skills, s.purchases))
  }

  ghost predicate Consistent(s: State)
  {
    MarketplaceOk(s) && AgentsOk(s) && SkillsOk(s) && PurchasesOk(s) && AveragesBelowMean(s)
  }

  /** The accounts before anything has been initialised. */
  function Empty(): State
  {
    State(None, map[], map[], map[])
  }

  lemma EmptyConsistent()
    ensures Consistent(Empty())
  {
  }

  // ---------------------------------------------------------------------------
  // The successful effect of each instruction
  // ---------------------------------------------------------------------------

  /** `initialize_marketplace`: the fee is stored and the counters start at 0. */
  function Initialized(s: State, authority: Pubkey, feeBps: u16): State
  {
    s.(marketplace := Some(Marketplace(authority, feeBps, 0, 0, 0)))
  }

  /** The agent record `register_agent` creates. */
  function NewAgent(owner: Pubkey, name: Bytes, metadataUri: Bytes, now: i64): Agent
  {
    Agent(owner, name, metadataUri, 0, 0, 0, 0, 0, now)
  }

  function AgentRegistered(s: State, a: Agent): State
  {
    s.(agents := s.agents[a.owner := a])
  }

  /** The skill record `register_skill` creates: active, nothing sold or rated. */
  function NewSkill(publisher: Pubkey, skillId: Bytes, name: Bytes, description: Bytes,
                    endpointCount: u16, authType: AuthType, priceUsdc: u64, metadataUri: Bytes,
                    now: i64): Skill
  {
    Skill(publisher, publisher, skillId, name, description, endpointCount, authType, priceUsdc,
          metadataUri, 0, 0, 0, 0, true, now, now)
  }

  /** The two `checked_add(1)` of `register_skill` succeed. */
  predicate SkillFits(s: State, publisher: Pubkey)
    requires s.marketplace.Some? && publisher in s.agents
  {
    && s.agents[publisher].skillsPublished as int + 1 < U64_LIMIT
    && s.marketplace.value.totalSkills as int + 1 < U64_LIMIT
  }

  function SkillRegistered(s: State, sk: Skill): State
    requires s.marketplace.Some? && sk.publisher in s.agents && SkillFits(s, sk.publisher)
  {
    var a := s.agents[sk.publisher];
    var m := s.marketplace.value;
    s.(skills := s.skills[sk.skillId := sk],
       agents := s.agents[sk.publisher := a.(skillsPublished := a.skillsPublished + 1)],
       marketplace := Some(m.(totalSkills := m.totalSkills + 1)))
  }

  /** The fee split `purchase_skill` applies to skill `id`. */
  function SaleSplit(s: State, id: Bytes): Checked<Split>
    requires s.marketplace.Some? && id in s.skills
  {
    FeeSplit(s.skills[id].priceUsdc, s.marketplace.value.feeBps)
  }

  /** The fee split and the six checked additions of `purchase_skill` succeed. */
  predicate PurchaseFits(s: State, id: Bytes)
    requires s.marketplace.Some? && id in s.skills && s.skills[id].publisher in s.agents
  {
    var sk := s.skills[id];
    var a := s.agents[sk.publisher];
    var m := s.marketplace.value;
    && SaleSplit(s, id).Value?
    && sk.totalPurchases as int + 1 < U64_LIMIT
    && sk.totalRevenue as int + sk.priceUsdc as int < U64_LIMIT
    && a.skillsSold as int + 1 < U64_LIMIT
    && a.totalEarnings as int + SaleSplit(s, id).value.sellerAmount as int < U64_LIMIT
    && m.totalPurchases as int + 1 < U64_LIMIT
    && m.totalVolumeUsdc as int + sk.priceUsdc as int < U64_LIMIT
  }

  /** `purchase_skill`: an unrated receipt at the current price, and the skill,
      seller and marketplace statistics moved on by one sale. */
  function Purchased(s: State, key: PurchaseKey, now: i64): State
    requires s.marketplace.Some? && key.skill in s.skills && s.skills[key.skill].publisher in s.agents
    requires PurchaseFits(s, key.skill)
  {
    var sk := s.skills[key.skill];
    var a := s.agents[sk.publisher];
    var m := s.marketplace.value;
    var split := SaleSplit(s, key.skill).value;
    s.(purchases := s.purchases[key := Purchase(key.buyer, key.skill, sk.priceUsdc, split.fee, now, 0)],
       skills := s.skills[key.skill := sk.(totalPurchases := sk.totalPurchases + 1,
                                           totalRevenue := sk.totalRevenue + sk.priceUsdc)],
       agents := s.agents[sk.publisher := a.(skillsSold := a.skillsSold + 1,
                                             totalEarnings := a.totalEarnings + split.sellerAmount)],
       marketplace := Some(m.(totalPurchases := m.totalPurchases + 1,
                              totalVolumeUsdc := m.totalVolumeUsdc + sk.priceUsdc)))
  }

  /** Both running-average updates of `rate_skill` succeed. */
  predicate RatingFits(s: State, key: PurchaseKey, rating: u8)
    requires key.skill in s.skills && s.skills[key.skill].publisher in s.agents
  {
    var sk := s.skills[key.skill];
    var a := s.agents[sk.publisher];
    && RunningAverage(sk.avgRating, sk.totalRatings, rating).Value?
    && RunningAverage(a.reputationScore, a.totalRatings, rating).Value?
  }

  /** `rate_skill`: the receipt records the rating, and the skill's average and
      the seller's reputation take it in. */
  function Rated(s: State, key: PurchaseKey, rating: u8): State
    requires key in s.purchases && key.skill in s.skills && s.skills[key.skill].publisher in s.agents
    requires RatingFits(s, key, rating)
  {
    var sk := s.skills[key.skill];
    var a := s.agents[sk.publisher];
    var sr := RunningAverage(sk.avgRating, sk.totalRatings, rating).value;
    var ar := RunningAverage(a.reputationScore, a.totalRatings, rating).value;
    s.(purchases := s.purchases[key := s.purchases[key].(rating := rating)],
       skills := s.skills[key.skill := sk.(avgRating := sr.average, totalRatings := sr.count)],
       agents := s.agents[sk.publisher := a.(reputationScore := ar.average, totalRatings := ar.count)])
  }

  /** `update_skill_price`: only the price and the update time change. */
  function PriceUpdated(s: State, id: Bytes, newPrice: u64, now: i64): State
    requires id in s.skills
  {
    s.(skills := s.skills[id := s.skills[id].(priceUsdc := newPrice, updatedAt := now)])
  }

  /** `deactivate_skill`: only the activity flag and the update time change. */
  function Deactivated(s: State, id: Bytes, now: i64): State
    requires id in s.skills
  {
    s.(skills := s.skills[id := s.skills[id].(isActive := false, updatedAt := now)])
  }
}
