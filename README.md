# CustomerKeeper core, modelled in Dafny

CustomerKeeper is a small application that predicts customer churn and
suggests retention offers. It has two deterministic pieces of logic:

- the **retention-offer engine** (`generate_offers`). It maps six customer
  attributes to an ordered list of offers. Each offer is a (title,
  description) pair. There is one offer per rule category, in the order age,
  balance, salary, number of products, credit score. A sixth offer,
  "Special Engagement Package", is added only for customers who are not
  active members.
- the **feature encoder** (the first part of `predict_churn`). It one-hot
  encodes the geography code and assembles the 11-entry feature vector the
  pre-trained scaler and classifier expect.

`offers.dfy` (module `Offers`) holds the offer catalogue and one function
per rule band. It models the engine twice. `OffersFor` is a function that
gives the result as a value. `GenerateOffers` is a method that starts from
an empty list and appends step by step, as the program does. The method is
proved equal to the function. The lemmas about the function cover rule
order, exactly one offer per category, the membership-flag behaviour, and
the fixed pairing of titles with descriptions.

`features.dfy` (module `Features`) names every schema position. It defines
the geography flags and `Encode`, which builds the vector. A `Decode`
function reads a vector back; it is only a reference definition for the
proofs, and the program has no decoder. Lemmas prove that decoding an
encoded vector returns every input, with the geography code resolved to its
country, and that every vector that decodes is an encoding. The encoding is
injective on resolved profiles; two geography codes that name the same
country (3 and 7 both mean France) give the same vector.

`wrappers.dfy` (module `Wrappers`) holds the `Option` type that both modules
use.

Modelling choices:

- `balance` and `salary` are `real`. Ages, product counts, credit scores and
  the 0/1 form flags are `int`.
- The active-member flag is an `int`. As with Python's `not`, 0 means
  inactive and every other value means active. The form only supplies 0
  or 1.
- The geography input is the form's integer code: 1 is Germany, 2 is Spain,
  and any other value is treated as France, the reference category.
- The program has no geography enumeration and no error types: it compares
  the integer code directly, and a failed artifact load raises at start-up.
  `Encode` also takes the integer code. The `Geography` datatype only names
  the country a code resolves to, for `Profile` and the reference decoder.
  The model has no error types, and the artifact load is left out (see
  below).

## Model

| member | source | states |
|---|---|---|
| Offers.AgeOffer | app.py:30-44 | the age offer is Youth exactly when age < 30, Family exactly when 30 <= age <= 50 (both ends included), and Senior exactly when age > 50 |
| Offers.BalanceOffer | app.py:46-60 | the balance offer is Low-Balance Fee Waiver exactly below 5000, Priority Banking exactly on [5000, 20000), and Platinum Membership exactly from 20000 up |
| Offers.SalaryOffer | app.py:62-71 | Savings Booster Plan exactly when salary < 40000, otherwise Premium Investment Plan |
| Offers.ProductsOffer | app.py:73-82 | Cross-sell Offer exactly when there are fewer than 2 products, otherwise Reward Program |
| Offers.CreditScoreOffer | app.py:84-98 | Credit Improvement Assistance exactly below 600, Loyalty Rewards exactly on [600, 750), and Preferred Customer Program exactly from 750 up |
| Offers.RuleOrder | app.py:28-106 | the category sequence has six entries when the flag is 0 and five for any other value |
| Offers.OffersFor | app.py:27-106 | the offer list has six entries when the flag is 0 (inactive, as Python's `not` on an int) and five for any other value |
| Offers.GenerateOffers | app.py:27-106 | appending one offer per rule to an initially empty list yields exactly the list `OffersFor` describes |
| Offers.FollowsRuleOrder | app.py:28-106 | offer i belongs to the i-th category of the rule order: age, balance, salary, products, credit score, then activity for inactive members |
| Offers.Count | app.py:28-106 | the count of a category is at most the list length, and zero exactly when no offer of the list belongs to that category |
| Offers.CountFollowsCategories | app.py:28-106 | a list whose i-th offer is of category cats[i] holds as many offers of each category as cats has occurrences of it |
| Offers.ExactlyOnePerCategory | app.py:28-106 | every rule category contributes exactly one offer; the activity rule contributes one when the flag is 0 and none for any other value |
| Offers.EngagementOnlyWhenInactive | app.py:100-106 | the list has length 6 exactly when the flag is 0, and then ends with Special Engagement Package; the package appears exactly when the flag is 0 |
| Offers.MembershipOnlyAffectsTail | app.py:28-106 | changing only the membership flag from any nonzero value to 0 keeps the first five offers and appends only Special Engagement Package |
| Offers.OffersByPosition | app.py:30-98 | offers 0 to 4 are, in turn, the age, balance, salary, products and credit-score offers of the inputs |
| Offers.OnlyCatalogOffers | app.py:31-104 | every offer produced is one of the fourteen catalogue offers |
| Offers.CategoriesDisjoint | app.py:31-104 | no catalogue offer belongs to two rule categories |
| Offers.DescriptionFollowsTitle | app.py:31-104 | every catalogue offer carries the one description its title is paired with |
| Offers.TitleDeterminesOffer | app.py:31-104 | two catalogue offers with the same title are the same offer |
| Offers.Examples | app.py:27-106 | the worked example (age 25, balance 1000, salary 30000, 1 product, score 500, inactive) gives the six offers in order; an active member gets five; ages 30 and 50 get Family and 51 gets Senior; scores 600 and 750 get Loyalty and Preferred |
| Features.GeographyOf | app.py:13-18 | code 1 means Germany, code 2 means Spain, and every other code means France |
| Features.GeographyCode | app.py:143 | each country's form code lies in 1..3 and resolves back to that country |
| Features.GeographyFlags | app.py:13-18 | the Germany flag is 1 exactly for code 1 and the Spain flag exactly for code 2; both flags are 0 or 1, at most one is set, and both are 0 exactly for France |
| Features.Encode | app.py:20 | the feature vector always has 11 entries |
| Features.EncodeProfile | app.py:20 | the vector of a resolved profile has 11 entries |
| Features.FieldPositions | app.py:20 | each input sits at its schema position in the order credit score, age, tenure, balance, products, card, active, salary, Germany, Spain, gender; the flags are at 8 and 9 and gender is at 10 |
| Features.GeographyEncoding | app.py:13-20 | code 1 gives (1, 0), code 2 gives (0, 1), and any other code gives (0, 0) at positions 8 and 9 |
| Features.Decode | app.py:20 | a vector that decodes has the schema length of 11 |
| Features.DecodeEncode | app.py:13-20 | decoding an encoded vector returns every input unchanged, with the geography code resolved to its country |
| Features.EncodeDecode | app.py:13-20 | every vector that decodes is the encoding of the profile it decodes to |
| Features.CodeMattersOnlyThroughCountry | app.py:13-20 | two geography codes that name the same country give the same vector |
| Features.EncodeInjective | app.py:20 | two resolved profiles give the same vector exactly when they are equal |

## Left out

- Scaling and classification (`scaler.transform`, `model.predict`, `model.predict_proba`, app.py:21-24): these are calls into opaque pre-trained scikit-learn artifacts. Nothing about their results, such as probabilities summing to 1 or the label being the argmax, can be derived from this code, so they are not modelled.
- Loading the artifacts with `joblib.load` (app.py:7-8): this is file I/O at import time, and a failure there raises at start-up.
- The Streamlit user interface (app.py:109-171): page layout, buttons, form widgets and rendering of results. The form's value ranges are not imposed as preconditions, because neither core function checks them.
- Percentage formatting of the probabilities (app.py:158-159): this is floating-point rendering.
- The batch dimension of the feature array (app.py:20): the code builds a one-row two-dimensional array, and `Encode` returns that single row as a flat sequence.
- Floating point in general: `balance`, `salary` and the feature vector are exact reals. NaN, infinities, rounding, and the loss of precision when numpy converts very large integers to float64 are not modelled.
