/** The feature encoder of CustomerKeeper: the ten form inputs become the
    eleven-entry numeric vector the pre-trained scaler and classifier were fit
    on, with geography one-hot encoded and France as the reference category. */
module Features {

  import opened Wrappers

  // ---------------------------------------------------------------------------
  // The feature schema: one position per column the model was trained on

  const FeatureCount := 11
  const CreditScoreAt := 0
  const AgeAt := 1
  const TenureAt := 2
  const BalanceAt := 3
  const NumProductsAt := 4
  const HasCreditCardAt := 5
  const IsActiveMemberAt := 6
  const EstimatedSalaryAt := 7
  const GermanyAt := 8
  const SpainAt := 9
  const GenderAt := 10

  // ---------------------------------------------------------------------------
  // Geography

  datatype Geography = Germany | Spain | France

  /** The country a geography code stands for: 1 is Germany, 2 is Spain, and
      every other code falls back to France. */
  function GeographyOf(code: int): (g: Geography)
    ensures g == Germany <==> code == 1
    ensures g == Spain <==> code == 2
  {
    if code == 1 then Germany else if code == 2 then Spain else France
  }

  /** The code the form uses for each country. */
  function GeographyCode(g: Geography): (code: int)
    ensures 1 <= code <= 3
    ensures GeographyOf(code) == g
  {
    match g
    case Germany => 1
    case Spain => 2
    case France => 3
  }

  /** The one-hot pair (is Germany, is Spain) for a geography code. */
  function GeographyFlags(code: int): (flags: (real, real))
    ensures flags.0 == 1.0 <==> code == 1
    ensures flags.1 == 1.0 <==> code == 2
    ensures flags.0 == 0.0 || flags.0 == 1.0
    ensures flags.1 == 0.0 || flags.1 == 1.0
    ensures flags.0 + flags.1 <= 1.0
    ensures flags == (0.0, 0.0) <==> GeographyOf(code) == France
  {
    if code == 1 then (1.0, 0.0)
    else if code == 2 then (0.0, 1.0)
    else (0.0, 0.0)
  }

  // ---------------------------------------------------------------------------
  // Encoding

  /** The feature vector for the ten form inputs, in training-column order. */
  function Encode(creditScore: int, age: int, tenure: int, balance: real, numProducts: int,
                  hasCreditCard: int, isActiveMember: int, estimatedSalary: real,
                  geography: int, gender: int): (v: seq<real>)
    ensures |v| == FeatureCount
  {
    var (germany, spain) := GeographyFlags(geography);
    [creditScore as real, age as real, tenure as real, balance, numProducts as real,
     hasCreditCard as real, isActiveMember as real, estimatedSalary, germany, spain, gender as real]
  }

  /** Each input lands at its named schema position, unchanged apart from the
      conversion to a number; the geography flags sit at positions 8 and 9. */
  lemma FieldPositions(creditScore: int, age: int, tenure: int, balance: real, numProducts: int,
                       hasCreditCard: int, isActiveMember: int, estimatedSalary: real,
                       geography: int, gender: int)
    ensures var v := Encode(creditScore, age, tenure, balance, numProducts, hasCreditCard,
                            isActiveMember, estimatedSalary, geography, gender);
      v[CreditScoreAt] == creditScore as real && v[AgeAt] == age as real &&
      v[TenureAt] == tenure as real && v[BalanceAt] == balance &&
      v[NumProductsAt] == numProducts as real && v[HasCreditCardAt] == hasCreditCard as real &&
      v[IsActiveMemberAt] == isActiveMember as real && v[EstimatedSalaryAt] == estimatedSalary &&
      (v[GermanyAt], v[SpainAt]) == GeographyFlags(geography) && v[GenderAt] == gender as real
  {
  }

  /** The one-hot encoding, case by case: Germany (1, 0), Spain (0, 1), and
      France or any other code (0, 0). */
  lemma GeographyEncoding(creditScore: int, age: int, tenure: int, balance: real, numProducts: int,
                          hasCreditCard: int, isActiveMember: int, estimatedSalary: real,
                          geography: int, gender: int)
    ensures var v := Encode(creditScore, age, tenure, balance, numProducts, hasCreditCard,
                            isActiveMember, estimatedSalary, geography, gender);
      (geography == 1 ==> v[GermanyAt] == 1.0 && v[SpainAt] == 0.0) &&
      (geography == 2 ==> v[GermanyAt] == 0.0 && v[SpainAt] == 1.0) &&
      (geography != 1 && geography != 2 ==> v[GermanyAt] == 0.0 && v[SpainAt] == 0.0)
  {
  }

  // ---------------------------------------------------------------------------
  // Decoding, the inverse that pins the schema down

  /** A customer as the encoder sees it, with the geography code resolved. */
  datatype Profile = Profile(creditScore: int, age: int, tenure: int, balance: real,
                             numProducts: int, hasCreditCard: int, isActiveMember: int,
                             estimatedSalary: real, geography: Geography, gender: int)

  predicate IsWhole(x: real)
  {
    x.Floor as real == x
  }

  /** Reads a feature vector back, refusing one of the wrong length, with a
      fractional value in an integer column, or with flags no code produces. */
  function Decode(v: seq<real>): (p: Option<Profile>)
    ensures p.Some? ==> |v| == FeatureCount
  {
    if |v| != FeatureCount then None
    else if !(IsWhole(v[CreditScoreAt]) && IsWhole(v[AgeAt]) && IsWhole(v[TenureAt])
              && IsWhole(v[NumProductsAt]) && IsWhole(v[HasCreditCardAt])
              && IsWhole(v[IsActiveMemberAt]) && IsWhole(v[GenderAt])) then None
    else
      var geography :=
        if (v[GermanyAt], v[SpainAt]) == (1.0, 0.0) then Some(Germany)
        else if (v[GermanyAt], v[SpainAt]) == (0.0, 1.0) then Some(Spain)
        else if (v[GermanyAt], v[SpainAt]) == (0.0, 0.0) then Some(France)
        else None;
      if geography.None? then None
      else Some(Profile(v[CreditScoreAt].Floor, v[AgeAt].Floor, v[TenureAt].Floor, v[BalanceAt],
                        v[NumProductsAt].Floor, v[HasCreditCardAt].Floor, v[IsActiveMemberAt].Floor,
                        v[EstimatedSalaryAt], geography.value, v[GenderAt].Floor))
  }

  /** The feature vector of a profile. */
  function EncodeProfile(p: Profile): (v: seq<real>)
    ensures |v| == FeatureCount
  {
    Encode(p.creditScore, p.age, p.tenure, p.balance, p.numProducts, p.hasCreditCard,
           p.isActiveMember, p.estimatedSalary, GeographyCode(p.geography), p.gender)
  }

  /** Decoding an encoded vector gives back every input, with the geography
      code resolved to its country. */
  lemma DecodeEncode(creditScore: int, age: int, tenure: int, balance: real, numProducts: int,
                     hasCreditCard: int, isActiveMember: int, estimatedSalary: real,
                     geography: int, gender: int)
    ensures Decode(Encode(creditScore, age, tenure, balance, numProducts, hasCreditCard,
                          isActiveMember, estimatedSalary, geography, gender))
      == Some(Profile(creditScore, age, tenure, balance, numProducts, hasCreditCard,
                      isActiveMember, estimatedSalary, GeographyOf(geography), gender))
  {
  }

  /** Every vector that decodes is the encoding of what it decodes to. */
  lemma EncodeDecode(v: seq<real>)
    requires Decode(v).Some?
    ensures EncodeProfile(Decode(v).value) == v
  {
  }

  /** A geography code matters only through the country it names. */
  lemma CodeMattersOnlyThroughCountry(creditScore: int, age: int, tenure: int, balance: real,
                                      numProducts: int, hasCreditCard: int, isActiveMember: int,
                                      estimatedSalary: real, geography: int, gender: int)
    ensures Encode(creditScore, age, tenure, balance, numProducts, hasCreditCard,
                   isActiveMember, estimatedSalary, geography, gender)
         == EncodeProfile(Profile(creditScore, age, tenure, balance, numProducts, hasCreditCard,
                                  isActiveMember, estimatedSalary, GeographyOf(geography), gender))
  {
  }

  /** Distinct profiles never share a feature vector. */
  lemma EncodeInjective(p: Profile, q: Profile)
    ensures EncodeProfile(p) == EncodeProfile(q) <==> p == q
  {
  }
}
