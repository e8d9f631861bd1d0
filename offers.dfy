/** The retention-offer engine of CustomerKeeper: a decision table over six
    customer attributes that yields an ordered list of (title, description)
    offers, one per rule category, plus a conditional engagement offer for
    customers who are not active members. */
module Offers {

  import opened Wrappers

  /** An offer as the application displays it: a short title and one sentence. */
  datatype Offer = Offer(title: string, description: string)

  /** The rule categories, in the order in which their offers are produced. */
  datatype Category = AgeRule | BalanceRule | SalaryRule | ProductsRule | CreditScoreRule | ActivityRule

  // ---------------------------------------------------------------------------
  // The fixed catalogue of offers

  const YouthAdvantage := Offer("Youth Advantage Savings Account",
    "A high-interest savings account designed for young customers to achieve financial goals faster.")
  const FamilyBenefit := Offer("Family Benefit Program",
    "Provides benefits for families, such as joint accounts and insurance for family members.")
  const SeniorWellness := Offer("Senior Citizen Wellness Program",
    "A program with lower banking fees, priority service, and health-related perks for senior customers.")

  const LowBalanceWaiver := Offer("Low-Balance Fee Waiver",
    "Waives fees on maintaining a minimum balance, helping customers manage their accounts affordably.")
  const PriorityBanking := Offer("Priority Banking",
    "Provides dedicated support and faster service for medium balance accounts, improving the customer experience.")
  const PlatinumMembership := Offer("Platinum Membership",
    "Exclusive banking privileges, including personal advisors and premium support.")

  const SavingsBooster := Offer("Savings Booster Plan",
    "Automated deposits to encourage savings and build financial security over time.")
  const PremiumInvestment := Offer("Premium Investment Plan",
    "Tailored for high earners, offering personalized investment options and wealth management support.")

  const CrossSell := Offer("Cross-sell Offer",
    "Special discounts on loans and credit cards to encourage use of multiple banking products.")
  const RewardProgram := Offer("Reward Program",
    "Loyalty rewards, including cashback and exclusive benefits for long-term customers.")

  const CreditImprovement := Offer("Credit Improvement Assistance",
    "Financial counseling and credit score monitoring to help improve credit scores.")
  const LoyaltyRewards := Offer("Loyalty Rewards",
    "Special rewards for good credit behavior, offering perks and reduced fees.")
  const PreferredCustomer := Offer("Preferred Customer Program",
    "Lower loan rates and exclusive benefits for customers with excellent credit scores.")

  const SpecialEngagement := Offer("Special Engagement Package",
    "Increased account activity benefits, such as fee reductions and reward points.")

  /** The offers a rule category can contribute. */
  function CategoryOffers(c: Category): set<Offer>
  {
    match c
    case AgeRule => {YouthAdvantage, FamilyBenefit, SeniorWellness}
    case BalanceRule => {LowBalanceWaiver, PriorityBanking, PlatinumMembership}
    case SalaryRule => {SavingsBooster, PremiumInvestment}
    case ProductsRule => {CrossSell, RewardProgram}
    case CreditScoreRule => {CreditImprovement, LoyaltyRewards, PreferredCustomer}
    case ActivityRule => {SpecialEngagement}
  }

  /** Every offer the engine knows. */
  function Catalog(): set<Offer>
  {
    CategoryOffers(AgeRule) + CategoryOffers(BalanceRule) + CategoryOffers(SalaryRule)
      + CategoryOffers(ProductsRule) + CategoryOffers(CreditScoreRule) + CategoryOffers(ActivityRule)
  }

  /** Active-membership flag as the form supplies it: 0 is inactive, and, as
      with Python's `not`, every other value counts as active. */
  predicate IsInactive(activeMember: int)
  {
    activeMember == 0
  }

  // ---------------------------------------------------------------------------
  // The individual rules

  /** Age bands: under 30, 30 to 50 inclusive, over 50. */
  function AgeOffer(age: int): (o: Offer)
    ensures o in CategoryOffers(AgeRule)
    ensures o == YouthAdvantage <==> age < 30
    ensures o == FamilyBenefit <==> 30 <= age <= 50
    ensures o == SeniorWellness <==> 50 < age
  {
    if age < 30 then YouthAdvantage
    else if age >= 30 && age <= 50 then FamilyBenefit
    else SeniorWellness
  }

  /** Balance bands: below 5000, from 5000 up to (not including) 20000, and 20000 or more. */
  function BalanceOffer(balance: real): (o: Offer)
    ensures o in CategoryOffers(BalanceRule)
    ensures o == LowBalanceWaiver <==> balance < 5000.0
    ensures o == PriorityBanking <==> 5000.0 <= balance < 20000.0
    ensures o == PlatinumMembership <==> 20000.0 <= balance
  {
    if balance < 5000.0 then LowBalanceWaiver
    else if balance >= 5000.0 && balance < 20000.0 then PriorityBanking
    else PlatinumMembership
  }

  /** Salary bands: below 40000, and 40000 or more. */
  function SalaryOffer(salary: real): (o: Offer)
    ensures o in CategoryOffers(SalaryRule)
    ensures o == SavingsBooster <==> salary < 40000.0
    ensures o == PremiumInvestment <==> 40000.0 <= salary
  {
    if salary < 40000.0 then SavingsBooster else PremiumInvestment
  }

  /** Product bands: fewer than two products, and two or more. */
  function ProductsOffer(numProducts: int): (o: Offer)
    ensures o in CategoryOffers(ProductsRule)
    ensures o == CrossSell <==> numProducts < 2
    ensures o == RewardProgram <==> 2 <= numProducts
  {
    if numProducts < 2 then CrossSell else RewardProgram
  }

  /** Credit-score bands: below 600, from 600 up to (not including) 750, and 750 or more. */
  function CreditScoreOffer(creditScore: int): (o: Offer)
    ensures o in CategoryOffers(CreditScoreRule)
    ensures o == CreditImprovement <==> creditScore < 600
    ensures o == LoyaltyRewards <==> 600 <= creditScore < 750
    ensures o == PreferredCustomer <==> 750 <= creditScore
  {
    if creditScore < 600 then CreditImprovement
    else if creditScore >= 600 && creditScore < 750 then LoyaltyRewards
    else PreferredCustomer
  }

  // ---------------------------------------------------------------------------
  // The whole decision table

  /** The categories whose offers appear, position by position. */
  function RuleOrder(activeMember: int): (cats: seq<Category>)
    ensures |cats| == if activeMember == 0 then 6 else 5
  {
    [AgeRule, BalanceRule, SalaryRule, ProductsRule, CreditScoreRule]
      + (if IsInactive(activeMember) then [ActivityRule] else [])
  }

  /** The offer list the engine recommends, as a value. */
  function OffersFor(age: int, balance: real, salary: real, numProducts: int,
                     creditScore: int, activeMember: int): (r: seq<Offer>)
    ensures |r| == if activeMember == 0 then 6 else 5
  {
    [AgeOffer(age), BalanceOffer(balance), SalaryOffer(salary),
     ProductsOffer(numProducts), CreditScoreOffer(creditScore)]
      + (if IsInactive(activeMember) then [SpecialEngagement] else [])
  }

  /** The engine as the program runs it: start from an empty list and append
      one offer per rule, then the engagement offer for inactive members. */
  method GenerateOffers(age: int, balance: real, salary: real, numProducts: int,
                        creditScore: int, activeMember: int) returns (offers: seq<Offer>)
    ensures offers == OffersFor(age, balance, salary, numProducts, creditScore, activeMember)
  {
    offers := [];

    if age < 30 {
      offers := offers + [YouthAdvantage];
    } else if age >= 30 && age <= 50 {
      offers := offers + [FamilyBenefit];
    } else {
      offers := offers + [SeniorWellness];
    }
    assert offers == [AgeOffer(age)];

    if balance < 5000.0 {
      offers := offers + [LowBalanceWaiver];
    } else if balance >= 5000.0 && balance < 20000.0 {
      offers := offers + [PriorityBanking];
    } else {
      offers := offers + [PlatinumMembership];
    }
    assert offers == [AgeOffer(age), BalanceOffer(balance)];

    if salary < 40000.0 {
      offers := offers + [SavingsBooster];
    } else {
      offers := offers + [PremiumInvestment];
    }
    assert offers == [AgeOffer(age), BalanceOffer(balance), SalaryOffer(salary)];

    if numProducts < 2 {
      offers := offers + [CrossSell];
    } else {
      offers := offers + [RewardProgram];
    }
    assert offers == [AgeOffer(age), BalanceOffer(balance), SalaryOffer(salary), ProductsOffer(numProducts)];

    if creditScore < 600 {
      offers := offers + [CreditImprovement];
    } else if creditScore >= 600 && creditScore < 750 {
      offers := offers + [LoyaltyRewards];
    } else {
      offers := offers + [PreferredCustomer];
    }
    assert offers == [AgeOffer(age), BalanceOffer(balance), SalaryOffer(salary),
                      ProductsOffer(numProducts), CreditScoreOffer(creditScore)];

    if IsInactive(activeMember) {
      offers := offers + [SpecialEngagement];
    }
  }

  // ---------------------------------------------------------------------------
  // Counting offers by category

  /** How many offers of category `c` the list holds; none exactly when no
      offer of the list belongs to `c`. */
  function Count(offers: seq<Offer>, c: Category): (n: nat)
    ensures n <= |offers|
    ensures n == 0 <==> forall i :: 0 <= i < |offers| ==> offers[i] !in CategoryOffers(c)
  {
    if offers == [] then 0
    else (if offers[0] in CategoryOffers(c) then 1 else 0) + Count(offers[1..], c)
  }

  // ---------------------------------------------------------------------------
  // Properties of the catalogue

  /** No offer belongs to two categories. */
  lemma CategoriesDisjoint(o: Offer, c1: Category, c2: Category)
    requires o in CategoryOffers(c1) && o in CategoryOffers(c2)
    ensures c1 == c2
  {
  }

  /** The catalogue's description for a title, if the title is in the catalogue. */
  function DescriptionOf(title: string): Option<string>
  {
    if title == YouthAdvantage.title then Some(YouthAdvantage.description)
    else if title == FamilyBenefit.title then Some(FamilyBenefit.description)
    else if title == SeniorWellness.title then Some(SeniorWellness.description)
    else if title == LowBalanceWaiver.title then Some(LowBalanceWaiver.description)
    else if title == PriorityBanking.title then Some(PriorityBanking.description)
    else if title == PlatinumMembership.title then Some(PlatinumMembership.description)
    else if title == SavingsBooster.title then Some(SavingsBooster.description)
    else if title == PremiumInvestment.title then Some(PremiumInvestment.description)
    else if title == CrossSell.title then Some(CrossSell.description)
    else if title == RewardProgram.title then Some(RewardProgram.description)
    else if title == CreditImprovement.title then Some(CreditImprovement.description)
    else if title == LoyaltyRewards.title then Some(LoyaltyRewards.description)
    else if title == PreferredCustomer.title then Some(PreferredCustomer.description)
    else if title == SpecialEngagement.title then Some(SpecialEngagement.description)
    else None
  }

  /** Every catalogue offer carries the one description its title is paired with. */
  lemma DescriptionFollowsTitle(o: Offer)
    requires o in Catalog()
    ensures DescriptionOf(o.title) == Some(o.description)
  {
    if o == YouthAdvantage {
    } else if o == FamilyBenefit {
    } else if o == SeniorWellness {
    } else if o == LowBalanceWaiver {
    } else if o == PriorityBanking {
    } else if o == PlatinumMembership {
    } else if o == SavingsBooster {
    } else if o == PremiumInvestment {
    } else if o == CrossSell {
    } else if o == RewardProgram {
    } else if o == CreditImprovement {
    } else if o == LoyaltyRewards {
    } else if o == PreferredCustomer {
    } else {
      assert o == SpecialEngagement;
    }
  }

  /** Within the catalogue a title determines its offer. */
  lemma TitleDeterminesOffer(o1: Offer, o2: Offer)
    requires o1 in Catalog() && o2 in Catalog()
    requires o1.title == o2.title
    ensures o1 == o2
  {
    DescriptionFollowsTitle(o1);
    DescriptionFollowsTitle(o2);
  }

  // ---------------------------------------------------------------------------
  // Properties of the decision table

  /** Offer i comes from the i-th category of the rule order. */
  lemma FollowsRuleOrder(age: int, balance: real, salary: real, numProducts: int,
                         creditScore: int, activeMember: int)
    ensures var r := OffersFor(age, balance, salary, numProducts, creditScore, activeMember);
      |r| == |RuleOrder(activeMember)| &&
      forall i :: 0 <= i < |r| ==> r[i] in CategoryOffers(RuleOrder(activeMember)[i])
  {
  }

  /** Position by position, the list holds the offer of each rule in turn. */
  lemma OffersByPosition(age: int, balance: real, salary: real, numProducts: int,
                         creditScore: int, activeMember: int)
    ensures var r := OffersFor(age, balance, salary, numProducts, creditScore, activeMember);
      r[0] == AgeOffer(age) && r[1] == BalanceOffer(balance) && r[2] == SalaryOffer(salary) &&
      r[3] == ProductsOffer(numProducts) && r[4] == CreditScoreOffer(creditScore)
  {
  }

  /** Only catalogue offers appear. */
  lemma OnlyCatalogOffers(age: int, balance: real, salary: real, numProducts: int,
                          creditScore: int, activeMember: int)
    ensures forall o :: (o in OffersFor(age, balance, salary, numProducts, creditScore, activeMember)
      ==> o in Catalog())
  {
  }

  /** A list whose i-th offer belongs to category cats[i] holds as many offers
      of each category as cats holds occurrences of it. */
  lemma {:induction false} CountFollowsCategories(s: seq<Offer>, cats: seq<Category>)
    requires |s| == |cats|
    requires forall i :: 0 <= i < |s| ==> s[i] in CategoryOffers(cats[i])
    ensures forall c :: Count(s, c) == multiset(cats)[c]
  {
    if s != [] {
      CountFollowsCategories(s[1..], cats[1..]);
      assert cats == [cats[0]] + cats[1..];
      forall c
        ensures Count(s, c) == multiset(cats)[c]
      {
        if s[0] in CategoryOffers(c) {
          CategoriesDisjoint(s[0], c, cats[0]);
        }
      }
    }
  }

  /** Exactly one offer per rule category, and one engagement offer exactly when
      the customer is not an active member. */
  lemma ExactlyOnePerCategory(age: int, balance: real, salary: real, numProducts: int,
                              creditScore: int, activeMember: int, c: Category)
    ensures Count(OffersFor(age, balance, salary, numProducts, creditScore, activeMember), c)
      == if c != ActivityRule then 1 else if activeMember == 0 then 1 else 0
  {
    var r := OffersFor(age, balance, salary, numProducts, creditScore, activeMember);
    FollowsRuleOrder(age, balance, salary, numProducts, creditScore, activeMember);
    CountFollowsCategories(r, RuleOrder(activeMember));
  }

  /** The list has six offers, the last being the engagement package, exactly
      when the member is inactive; otherwise it has five and no engagement package. */
  lemma EngagementOnlyWhenInactive(age: int, balance: real, salary: real, numProducts: int,
                                   creditScore: int, activeMember: int)
    ensures var r := OffersFor(age, balance, salary, numProducts, creditScore, activeMember);
      (|r| == 6 <==> activeMember == 0) &&
      (activeMember == 0 ==> r[5] == SpecialEngagement) &&
      (SpecialEngagement in r <==> activeMember == 0)
  {
  }

  /** Flipping only the membership flag from active to inactive appends the
      engagement offer and leaves the first five offers unchanged. */
  lemma MembershipOnlyAffectsTail(age: int, balance: real, salary: real, numProducts: int,
                                  creditScore: int, active: int)
    requires active != 0
    ensures OffersFor(age, balance, salary, numProducts, creditScore, 0)
      == OffersFor(age, balance, salary, numProducts, creditScore, active) + [SpecialEngagement]
  {
  }

  /** A worked example and the age and credit-score band boundaries. */
  lemma Examples()
    ensures OffersFor(25, 1000.0, 30000.0, 1, 500, 0)
      == [YouthAdvantage, LowBalanceWaiver, SavingsBooster, CrossSell, CreditImprovement, SpecialEngagement]
    ensures |OffersFor(25, 1000.0, 30000.0, 1, 500, 1)| == 5
    ensures AgeOffer(30) == FamilyBenefit && AgeOffer(50) == FamilyBenefit && AgeOffer(51) == SeniorWellness
    ensures CreditScoreOffer(600) == LoyaltyRewards && CreditScoreOffer(750) == PreferredCustomer
  {
  }
}
