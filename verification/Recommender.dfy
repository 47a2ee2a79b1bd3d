/**
 The equipment recommendation: filters over the catalogue, then the least item by capacity and
 a ranking key.  It is compared with a declarative description of the items it may choose.
 */
module Recommender {
  import opened Pricing
  import opened Seqs

  datatype Segment = Modern | CostBenefit | Economy

  datatype ClimateMode = Cold | HeatCool

  datatype Dimensions = Dimensions(width: real, height: real, depth: Option<real>)

  // Brands and lines stand for their places in alphabetical order.
  datatype Item = Item(
    id: nat, brand: nat, line: nat, capacity: int, segment: Segment, cold: bool, heatCool: bool,
    indoor: Option<Dimensions>, outdoor: Option<Dimensions>, price: Option<real>)

  datatype Request = Request(
    area: real, people: int, preference: Segment, mode: ClimateMode,
    indoorSpace: Option<Dimensions>, outdoorSpace: Option<Dimensions>, budget: Option<real>)

  datatype Recommendation =
    | Recommended(item: Item, required: int, withinBudget: Option<bool>)
    | OutOfRange
    | EmptyCatalog
    | NothingFits
    | NothingStrongEnough

  predicate InRange(area: real, people: int) {
    0.0 < area <= 500.0 && 0 < people <= 100
  }

  /** required_capacity_btu: 600 per square metre and per further person, rounded half to even, at least 9000. */
  function RequiredCapacity(area: real, people: int): int {
    var btu := RoundHalfEven(Product(area, 600.0) + (if people - 1 < 0 then 0 else people - 1) as real * 600.0);
    if btu < 9000 then 9000 else btu
  }

  predicate MatchesCycle(item: Item, mode: ClimateMode) {
    match mode
    case HeatCool => item.heatCool
    case Cold => item.cold && !item.heatCool
  }

  /** Unknown dimensions never fit a declared space; an unknown depth does. */
  predicate Fits(equipment: Option<Dimensions>, available: Option<Dimensions>) {
    match available
    case None => true
    case Some(space) =>
      match equipment
      case None => false
      case Some(size) =>
        && size.width <= space.width && size.height <= space.height
        && (space.depth.Some? ==> (if size.depth.Some? then size.depth.value else 0.0) <= space.depth.value)
  }

  predicate Candidate(item: Item, q: Request) {
    MatchesCycle(item, q.mode) && Fits(item.indoor, q.indoorSpace) && Fits(item.outdoor, q.outdoorSpace)
  }

  predicate Adequate(item: Item, required: int) { 10 * item.capacity >= 9 * required }

  predicate Affordable(item: Item, budget: real) { item.price.Some? && item.price.value <= budget }

  function Candidates(q: Request): Item -> bool { (item: Item) => Candidate(item, q) }

  function AdequateFor(required: int): Item -> bool { (item: Item) => Adequate(item, required) }

  function AffordableFor(budget: real): Item -> bool { (item: Item) => Affordable(item, budget) }

  function MaxCapacity(items: seq<Item>): int
    requires items != []
  {
    if |items| == 1 then items[0].capacity
    else
      var rest := MaxCapacity(items[1..]);
      if rest < items[0].capacity then items[0].capacity else rest
  }

  // ---- The ranking key ----

  // A missing price ranks as infinite.
  datatype Rank = Rank(first: Option<real>, price: Option<real>, brand: nat, line: nat)

  predicate Cheaper(a: Option<real>, b: Option<real>) {
    a.Some? && (b.None? || a.value < b.value)
  }

  predicate Before(a: Rank, b: Rank) {
    || Cheaper(a.first, b.first)
    || (a.first == b.first && Cheaper(a.price, b.price))
    || (a.first == b.first && a.price == b.price && a.brand < b.brand)
    || (a.first == b.first && a.price == b.price && a.brand == b.brand && a.line < b.line)
  }

  function SegmentRank(segment: Segment, preference: Segment): real {
    if segment == preference then 0.0
    else
      match preference
      case Modern => if segment == CostBenefit then 1.0 else 2.0
      case CostBenefit => if segment == Economy then 1.0 else 2.0
      case Economy => if segment == CostBenefit then 1.0 else 2.0
  }

  function RankOf(item: Item, preference: Segment, overBudget: bool): Rank {
    Rank(if overBudget then item.price else Some(SegmentRank(item.segment, preference)), item.price, item.brand,
        item.line)
  }

  // min by capacity first, then by rank.
  predicate Better(a: Item, b: Item, preference: Segment, overBudget: bool) {
    || a.capacity < b.capacity
    || (a.capacity == b.capacity && Before(RankOf(a, preference, overBudget), RankOf(b, preference, overBudget)))
  }

  function MinCapacity(items: seq<Item>): int
    requires items != []
  {
    if |items| == 1 then items[0].capacity
    else
      var rest := MinCapacity(items[1..]);
      if rest < items[0].capacity then rest else items[0].capacity
  }

  function OfCapacity(capacity: int): Item -> bool { (item: Item) => item.capacity == capacity }

  /** Python's min: the first of the least by rank. */
  function LeastByRank(items: seq<Item>, preference: Segment, overBudget: bool): Item
    requires items != []
  {
    if |items| == 1 then items[0]
    else
      var rest := LeastByRank(items[1..], preference, overBudget);
      if Before(RankOf(rest, preference, overBudget), RankOf(items[0], preference, overBudget)) then rest else items[0]
  }

  // ---- recommend_equipment ----

  function Recommend(catalog: seq<Item>, q: Request): Recommendation {
    if !InRange(q.area, q.people) then OutOfRange
    else if catalog == [] then EmptyCatalog
    else
      var required := RequiredCapacity(q.area, q.people);
      var candidates := Filter(catalog, Candidates(q));
      if candidates == [] then NothingFits
      else
        var adequate := Filter(candidates, AdequateFor(required));
        if adequate == [] && 10 * required > 13 * MaxCapacity(candidates) then NothingStrongEnough
        else WithinBudget(if adequate != [] then adequate else candidates, required, q)
  }

  function WithinBudget(pool: seq<Item>, required: int, q: Request): Recommendation
    requires pool != []
  {
    match q.budget
    case None => Chosen(pool, required, q, None)
    case Some(budget) =>
      var affordable := Filter(pool, AffordableFor(budget));
      if affordable != [] then Chosen(affordable, required, q, Some(true)) else Chosen(pool, required, q, Some(false))
  }

  function Chosen(pool: seq<Item>, required: int, q: Request, withinBudget: Option<bool>): Recommendation
    requires pool != []
  {
    var preferred := MinCapacity(pool);
    MinCapacityIsLeast(pool);
    var same := Filter(pool, OfCapacity(preferred));
    assert same != [] by {
      var x :| x in pool && x.capacity == preferred;
      assert OfCapacity(preferred)(x);
      assert x in same;
    }
    Recommended(LeastByRank(same, q.preference, withinBudget == Some(false)), required, withinBudget)
  }

  lemma {:induction false} MinCapacityIsLeast(items: seq<Item>)
    requires items != []
    ensures exists x :: x in items && x.capacity == MinCapacity(items)
    ensures forall x | x in items :: MinCapacity(items) <= x.capacity
  {
    if |items| == 1 {
      assert items[0] in items;
    } else {
      MinCapacityIsLeast(items[1..]);
      assert items == [items[0]] + items[1..];
      assert items[0] in items;
    }
  }

  lemma {:induction false} MaxCapacityIsGreatest(items: seq<Item>)
    requires items != []
    ensures exists x :: x in items && x.capacity == MaxCapacity(items)
    ensures forall x | x in items :: x.capacity <= MaxCapacity(items)
  {
    if |items| == 1 {
      assert items[0] in items;
    } else {
      MaxCapacityIsGreatest(items[1..]);
      assert items == [items[0]] + items[1..];
      assert items[0] in items;
    }
  }

  lemma BeforeIsTransitive(a: Rank, b: Rank, c: Rank)
    ensures !Before(b, a) && !Before(c, b) ==> !Before(c, a)
    ensures Before(a, b) ==> !Before(b, a)
    ensures !Before(a, b) && !Before(b, a) ==> a == b
  {
  }

  lemma {:induction false} LeastByRankIsLeast(items: seq<Item>, preference: Segment, overBudget: bool)
    requires items != []
    ensures var x := LeastByRank(items, preference, overBudget);
            x in items
            && forall y | y in items :: !Before(RankOf(y, preference, overBudget), RankOf(x, preference, overBudget))
  {
    var x := LeastByRank(items, preference, overBudget);
    if |items| > 1 {
      LeastByRankIsLeast(items[1..], preference, overBudget);
      var rest := LeastByRank(items[1..], preference, overBudget);
      assert items == [items[0]] + items[1..];
      forall y | y in items ensures !Before(RankOf(y, preference, overBudget), RankOf(x, preference, overBudget)) {
        BeforeIsTransitive(RankOf(x, preference, overBudget), RankOf(rest, preference, overBudget),
            RankOf(y, preference, overBudget));
        BeforeIsTransitive(RankOf(x, preference, overBudget), RankOf(items[0], preference, overBudget),
            RankOf(y, preference, overBudget));
      }
    }
  }

  // ---- What may be chosen ----

  ghost predicate HasAdequate(catalog: seq<Item>, q: Request, required: int) {
    exists y :: y in catalog && Candidate(y, q) && Adequate(y, required)
  }

  /** Items that fit, restricted to the adequate ones if there are any. */
  ghost predicate InPool(catalog: seq<Item>, q: Request, required: int, y: Item) {
    y in catalog && Candidate(y, q) && (HasAdequate(catalog, q, required) ==> Adequate(y, required))
  }

  ghost predicate HasAffordable(catalog: seq<Item>, q: Request, required: int) {
    q.budget.Some? && exists y :: InPool(catalog, q, required, y) && Affordable(y, q.budget.value)
  }

  /** Among those, the affordable ones if there are any. */
  ghost predicate Eligible(catalog: seq<Item>, q: Request, required: int, y: Item) {
    InPool(catalog, q, required, y) && (HasAffordable(catalog, q, required) ==> Affordable(y, q.budget.value))
  }

  ghost predicate IsBest(catalog: seq<Item>, q: Request, required: int, x: Item) {
    && Eligible(catalog, q, required, x)
    && forall y | Eligible(catalog, q, required, y) ::
         !Better(y, x, q.preference, q.budget.Some? && !HasAffordable(catalog, q, required))
  }

  /** The pool the code filters is the pool described above. */
  lemma PoolIs(catalog: seq<Item>, q: Request, required: int, y: Item)
    ensures var candidates := Filter(catalog, Candidates(q)); var adequate := Filter(candidates, AdequateFor(required));
            && (adequate != [] <==> HasAdequate(catalog, q, required))
            && (y in (if adequate != [] then adequate else candidates) <==> InPool(catalog, q, required, y))
  {
    var candidates := Filter(catalog, Candidates(q));
    var adequate := Filter(candidates, AdequateFor(required));
    if adequate != [] {
      var z := adequate[0];
      assert z in adequate;
      assert Candidates(q)(z) && AdequateFor(required)(z);
    }
    if HasAdequate(catalog, q, required) {
      var z :| z in catalog && Candidate(z, q) && Adequate(z, required);
      assert Candidates(q)(z) && AdequateFor(required)(z);
      assert z in adequate;
    }
    assert Candidates(q)(y) == Candidate(y, q) && AdequateFor(required)(y) == Adequate(y, required);
  }

  lemma ChosenIsBest(pool: seq<Item>, required: int, q: Request, withinBudget: Option<bool>)
    requires pool != []
    ensures var x := Chosen(pool, required, q, withinBudget).item;
            x in pool && forall y | y in pool :: !Better(y, x, q.preference, withinBudget == Some(false))
  {
    var preferred := MinCapacity(pool);
    MinCapacityIsLeast(pool);
    var same := Filter(pool, OfCapacity(preferred));
    var z :| z in pool && z.capacity == preferred;
    assert OfCapacity(preferred)(z);
    assert z in same;
    LeastByRankIsLeast(same, q.preference, withinBudget == Some(false));
    var x := LeastByRank(same, q.preference, withinBudget == Some(false));
    assert OfCapacity(preferred)(x);
    forall y | y in pool ensures !Better(y, x, q.preference, withinBudget == Some(false)) {
      if y.capacity == preferred {
        assert OfCapacity(preferred)(y);
        assert y in same;
      }
    }
  }

  lemma AffordableIs(pool: seq<Item>, budget: real)
    ensures var affordable := Filter(pool, AffordableFor(budget));
            && (affordable != [] <==> exists y :: y in pool && Affordable(y, budget))
            && forall y :: y in affordable <==> y in pool && Affordable(y, budget)
  {
    var affordable := Filter(pool, AffordableFor(budget));
    if affordable != [] {
      assert affordable[0] in affordable;
      assert AffordableFor(budget)(affordable[0]);
    }
    forall y ensures y in affordable <==> y in pool && Affordable(y, budget) {
      assert AffordableFor(budget)(y) == Affordable(y, budget);
    }
  }

  /**
   The recommendation is the best eligible item: it fits both spaces and the requested cycle; if
   any such item reaches 90% of the requirement it does too, otherwise the largest of them covers
   it within 30%; it has least capacity among the affordable ones, or among all if none is; and
   no item of that capacity ranks before it.
   */
  lemma RecommendationIsBest(catalog: seq<Item>, q: Request)
    requires Recommend(catalog, q).Recommended?
    ensures var r := Recommend(catalog, q);
            && r.required == RequiredCapacity(q.area, q.people)
            && IsBest(catalog, q, r.required, r.item)
            && r.withinBudget == (if q.budget.None? then None else Some(HasAffordable(catalog, q, r.required)))
  {
    var required := RequiredCapacity(q.area, q.people);
    var candidates := Filter(catalog, Candidates(q));
    var adequate := Filter(candidates, AdequateFor(required));
    var pool := if adequate != [] then adequate else candidates;
    forall y ensures y in pool <==> InPool(catalog, q, required, y) {
      PoolIs(catalog, q, required, y);
    }
    BudgetIsBest(pool, catalog, required, q);
  }

  lemma BudgetIsBest(pool: seq<Item>, catalog: seq<Item>, required: int, q: Request)
    requires pool != [] && forall y :: y in pool <==> InPool(catalog, q, required, y)
    ensures var r := WithinBudget(pool, required, q);
            && r.Recommended? && r.required == required && IsBest(catalog, q, required, r.item)
            && r.withinBudget == (if q.budget.None? then None else Some(HasAffordable(catalog, q, required)))
  {
    match q.budget {
      case None => ChosenIsBest(pool, required, q, None);
      case Some(budget) =>
        AffordableIs(pool, budget);
        var affordable := Filter(pool, AffordableFor(budget));
        if affordable != [] {
          ChosenIsBest(affordable, required, q, Some(true));
          var y :| y in pool && Affordable(y, budget);
          assert InPool(catalog, q, required, y);
        } else {
          ChosenIsBest(pool, required, q, Some(false));
        }
    }
  }

  /** When no item reaches 90% of the requirement, the choice is the smallest it may be, not the strongest. */
  lemma NoneAdequateChoosesTheSmallest(catalog: seq<Item>, q: Request, y: Item)
    requires Recommend(catalog, q).Recommended?
    requires !HasAdequate(catalog, q, Recommend(catalog, q).required)
    requires y in catalog && Candidate(y, q)
    requires HasAffordable(catalog, q, Recommend(catalog, q).required) ==> Affordable(y, q.budget.value)
    ensures Recommend(catalog, q).item.capacity <= y.capacity
  {
    RecommendationIsBest(catalog, q);
    var required, chosen := Recommend(catalog, q).required, Recommend(catalog, q).item;
    assert Eligible(catalog, q, required, y);
    assert !Better(y, chosen, q.preference, q.budget.Some? && !HasAffordable(catalog, q, required));
  }

  ghost predicate IsStrongest(catalog: seq<Item>, q: Request, x: Item) {
    forall y | Eligible(catalog, q, RequiredCapacity(q.area, q.people), y) :: y.capacity <= x.capacity
  }

  ghost predicate AllAlike(catalog: seq<Item>, q: Request) {
    forall x, y | Eligible(catalog, q, RequiredCapacity(q.area, q.people), x)
                  && Eligible(catalog, q, RequiredCapacity(q.area, q.people), y) :: x.capacity == y.capacity
  }

  /**
   With or without a budget, and whether or not any item is adequate, the choice is the strongest
   item it could have been exactly when all of those have one capacity.
   */
  lemma ChoosesTheStrongestExactlyWhen(catalog: seq<Item>, q: Request)
    requires Recommend(catalog, q).Recommended?
    ensures IsStrongest(catalog, q, Recommend(catalog, q).item) <==> AllAlike(catalog, q)
  {
    var required := RequiredCapacity(q.area, q.people);
    var chosen := Recommend(catalog, q).item;
    RecommendationIsBest(catalog, q);
    forall y | Eligible(catalog, q, required, y) ensures chosen.capacity <= y.capacity {
      assert !Better(y, chosen, q.preference, q.budget.Some? && !HasAffordable(catalog, q, required));
    }
  }

  function Plain(id: nat, capacity: int): Item {
    Item(id, 0, id, capacity, Economy, true, false, None, None, None)
  }

  function LargeRoom(): Request { Request(33.0, 1, Economy, Cold, None, None, None) }

  lemma LargeRoomNeeds()
    ensures RequiredCapacity(LargeRoom().area, LargeRoom().people) == 19800
  {
    assert Product(33.0, 600.0) == 19800.0;
  }

  /** A room that needs 19800 gets 16000 recommended although 17000 is in the catalogue. */
  lemma StrongestMayBePassedOver(catalog: seq<Item>)
    requires catalog == [Plain(0, 17000), Plain(1, 16000)]
    ensures Recommend(catalog, LargeRoom()) == Recommended(Plain(1, 16000), 19800, None)
  {
    var q := LargeRoom();
    LargeRoomNeeds();
    assert catalog[0] in catalog && catalog[1] in catalog;
    assert Candidate(catalog[0], q) && Candidate(catalog[1], q);
    RecommendsExactlyWhen(catalog, q);
    assert 10 * 19800 <= 13 * catalog[0].capacity;
    assert !HasAdequate(catalog, q, 19800);
    NoneAdequateChoosesTheSmallest(catalog, q, catalog[1]);
    RecommendationIsBest(catalog, q);
  }

  /** A recommendation is made exactly when the inputs are in range and something that fits is strong enough. */
  lemma RecommendsExactlyWhen(catalog: seq<Item>, q: Request)
    ensures Recommend(catalog, q).Recommended? <==>
              && InRange(q.area, q.people)
              && exists y :: y in catalog && Candidate(y, q)
                   && (var required := RequiredCapacity(q.area, q.people);
                       Adequate(y, required) || 10 * required <= 13 * y.capacity)
  {
    var required := RequiredCapacity(q.area, q.people);
    var candidates := Filter(catalog, Candidates(q));
    forall y | y in catalog ensures Candidate(y, q) <==> y in candidates {
      assert Candidates(q)(y) == Candidate(y, q);
    }
    if candidates != [] {
      assert candidates[0] in candidates;
      MaxCapacityIsGreatest(candidates);
      AdequateExactlyWhen(catalog, q, required);
    }
  }

  lemma AdequateExactlyWhen(catalog: seq<Item>, q: Request, required: int)
    ensures Filter(Filter(catalog, Candidates(q)), AdequateFor(required)) != [] <==> HasAdequate(catalog, q, required)
  {
    if catalog != [] {
      PoolIs(catalog, q, required, catalog[0]);
    }
  }

  /** The capacity and the ranking key of the choice do not depend on the order of the catalogue. */
  lemma CatalogOrderDoesNotMatter(catalog: seq<Item>, other: seq<Item>, q: Request)
    requires forall x :: x in catalog <==> x in other
    requires Recommend(catalog, q).Recommended? && Recommend(other, q).Recommended?
    ensures var r, t := Recommend(catalog, q), Recommend(other, q);
            && t.item.capacity == r.item.capacity && t.withinBudget == r.withinBudget
            && RankOf(t.item, q.preference, r.withinBudget == Some(false))
                == RankOf(r.item, q.preference, r.withinBudget == Some(false))
  {
    var r, t := Recommend(catalog, q), Recommend(other, q);
    RecommendationIsBest(catalog, q);
    RecommendationIsBest(other, q);
    SamePools(catalog, other, q, r.required);
    assert Eligible(catalog, q, r.required, t.item) && Eligible(other, q, r.required, r.item);
    BeforeIsTransitive(RankOf(t.item, q.preference, r.withinBudget == Some(false)),
                       RankOf(r.item, q.preference, r.withinBudget == Some(false)),
                       RankOf(r.item, q.preference, r.withinBudget == Some(false)));
  }

  lemma SamePools(catalog: seq<Item>, other: seq<Item>, q: Request, required: int)
    requires forall x :: x in catalog <==> x in other
    ensures HasAffordable(catalog, q, required) <==> HasAffordable(other, q, required)
    ensures forall y :: Eligible(catalog, q, required, y) <==> Eligible(other, q, required, y)
  {
    assert HasAdequate(catalog, q, required) <==> HasAdequate(other, q, required);
    forall y ensures InPool(catalog, q, required, y) <==> InPool(other, q, required, y) {
    }
    if HasAffordable(catalog, q, required) {
      var y :| InPool(catalog, q, required, y) && Affordable(y, q.budget.value);
      assert InPool(other, q, required, y);
    }
    if HasAffordable(other, q, required) {
      var y :| InPool(other, q, required, y) && Affordable(y, q.budget.value);
      assert InPool(catalog, q, required, y);
    }
  }

  /** Whether anything is recommended does not depend on the order either. */
  lemma CatalogOrderDoesNotDecide(catalog: seq<Item>, other: seq<Item>, q: Request)
    requires forall x :: x in catalog <==> x in other
    ensures Recommend(catalog, q).Recommended? <==> Recommend(other, q).Recommended?
  {
    RecommendsExactlyWhen(catalog, q);
    RecommendsExactlyWhen(other, q);
  }
}
