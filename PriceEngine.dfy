/** `calculate_price`: the price and deadline of a print job, from a product
    code, a quantity, a material code and a list of modifier codes.

    The SQL queries become pure lookups over the rows of `Tables`, taken in
    table order; the arithmetic is exact (the columns are `Numeric`), and the
    final `round(..., 2)` is `Round2`. */
module PriceEngine {
  import opened Wrappers
  import opened Catalog

  /** The three exceptions `calculate_price` can raise. */
  datatype PriceError =
    | NoPriceForProduct   // ValueError: the product has no price range at all
    | DivisionByZero      // ZeroDivisionError: the chosen band has width 0
    | MaterialNotFound    // ValueError: no material carries the code

  /** The dictionary `calculate_price` returns. */
  datatype Quote = Quote(
    price: real,
    deadlineDays: int,
    quantityUsed: int,
    modifiersUsed: seq<string>)

  /** One row of the tier query: a price range joined with its product. */
  datatype Tier = Tier(range: PriceRange, product: Product)

  // ------------------------------------------------------------ table lookups

  /** The product a price range's `product_id` points to. */
  function OwnerOf(products: seq<Product>, id: int): (r: Option<Product>)
    ensures r.Some? ==> r.value in products && r.value.id == id
    ensures r.None? ==> forall i :: 0 <= i < |products| ==> products[i].id != id
  {
    if products == [] then None
    else if products[0].id == id then Some(products[0])
    else OwnerOf(products[1..], id)
  }

  /** The price ranges joined with their product, restricted to the product
      with the given code, in table order. */
  function TiersOf(products: seq<Product>, ranges: seq<PriceRange>, code: string): (rows: seq<Tier>)
    ensures forall i :: 0 <= i < |rows| ==>
      rows[i].range in ranges && rows[i].product.code == code
      && OwnerOf(products, rows[i].range.productId) == Some(rows[i].product)
    ensures forall r ::
      (r in ranges && OwnerOf(products, r.productId).Some?
       && OwnerOf(products, r.productId).value.code == code) ==>
      Tier(r, OwnerOf(products, r.productId).value) in rows
  {
    if ranges == [] then []
    else
      var here := match OwnerOf(products, ranges[0].productId)
        case Some(p) => if p.code == code then [Tier(ranges[0], p)] else []
        case None => [];
      here + TiersOf(products, ranges[1..], code)
  }

  /** The band contains the quantity, inclusive at both ends. */
  predicate Contains(r: PriceRange, q: int)
  {
    r.rangeFrom <= q <= r.rangeTo
  }

  /** The first row whose band contains the quantity (`.first()` of the
      containment query). */
  function FirstContaining(rows: seq<Tier>, q: int): (r: Option<Tier>)
    ensures r.Some? ==> r.value in rows && Contains(r.value.range, q)
    ensures r.None? ==> forall i :: 0 <= i < |rows| ==> !Contains(rows[i].range, q)
  {
    if rows == [] then None
    else if Contains(rows[0].range, q) then Some(rows[0])
    else FirstContaining(rows[1..], q)
  }

  /** The row with the largest `range_to` (`order_by(range_to.desc()).first()`);
      among equal `range_to` the earliest row. */
  function Highest(rows: seq<Tier>): (r: Option<Tier>)
    ensures r.None? <==> rows == []
    ensures r.Some? ==>
      (r.value in rows
       && forall i :: 0 <= i < |rows| ==> rows[i].range.rangeTo <= r.value.range.rangeTo)
  {
    if rows == [] then None
    else match Highest(rows[1..])
      case None => Some(rows[0])
      case Some(t) => if t.range.rangeTo > rows[0].range.rangeTo then Some(t) else Some(rows[0])
  }

  /** Tier resolution with its fallback: the tier used and the quantity the
      price is computed for. */
  function ResolveTier(rows: seq<Tier>, quantity: int): Option<(Tier, int)>
  {
    match FirstContaining(rows, quantity)
    case Some(t) => Some((t, quantity))
    case None =>
      match Highest(rows)
      case None => None
      case Some(t) => Some((t, t.range.rangeTo))
  }

  /** The first material carrying the code (`code` is a unique column). */
  function FindMaterial(materials: seq<Material>, code: string): (r: Option<Material>)
    ensures r.Some? ==> r.value in materials && r.value.code == code
    ensures r.None? ==> forall i :: 0 <= i < |materials| ==> materials[i].code != code
  {
    if materials == [] then None
    else if materials[0].code == code then Some(materials[0])
    else FindMaterial(materials[1..], code)
  }

  /** The modifiers whose code is among the requested ones
      (`Modifier.code.in_(codes)`), in table order; unknown codes select nothing. */
  function SelectModifiers(modifiers: seq<Modifier>, codes: seq<string>): (r: seq<Modifier>)
    ensures |r| <= |modifiers|
    ensures forall m :: m in r <==> m in modifiers && m.code in codes
  {
    if modifiers == [] then []
    else
      (if modifiers[0].code in codes then [modifiers[0]] else [])
      + SelectModifiers(modifiers[1..], codes)
  }

  /** Each row is selected as often as it occurs in the table when its code
      is requested, and never otherwise: the `IN` query returns a matching
      row once, not once per requested code. */
  lemma {:induction false} SelectModifiersCounts(modifiers: seq<Modifier>, codes: seq<string>)
    ensures forall m :: multiset(SelectModifiers(modifiers, codes))[m]
                        == if m.code in codes then multiset(modifiers)[m] else 0
  {
    if modifiers != [] {
      SelectModifiersCounts(modifiers[1..], codes);
      assert modifiers == [modifiers[0]] + modifiers[1..];
    }
  }

  /** The selection is a filter that keeps table order: the rows of `a + b`
      selected are those of `a` followed by those of `b`. */
  lemma {:induction false} SelectModifiersAppend(a: seq<Modifier>, b: seq<Modifier>, codes: seq<string>)
    ensures SelectModifiers(a + b, codes) == SelectModifiers(a, codes) + SelectModifiers(b, codes)
  {
    if a != [] {
      var head := if a[0].code in codes then [a[0]] else [];
      var ra, rb := SelectModifiers(a[1..], codes), SelectModifiers(b, codes);
      assert (a + b)[0] == a[0] && (a + b)[1..] == a[1..] + b;
      assert SelectModifiers(a + b, codes) == head + SelectModifiers(a[1..] + b, codes);
      SelectModifiersAppend(a[1..], b, codes);
      assert SelectModifiers(a, codes) == head + ra;
      assert head + (ra + rb) == (head + ra) + rb;
    } else {
      assert a + b == b;
    }
  }

  /** `x` multiplied by each modifier's price multiplier in turn. */
  function ApplyMultipliers(x: real, mods: seq<Modifier>): real
  {
    if mods == [] then x
    else ApplyMultipliers(x, mods[..|mods| - 1]) * mods[|mods| - 1].priceMultiplier
  }

  /** The sum of the modifiers' deadline adjustments. */
  function DeadlineSum(mods: seq<Modifier>): int
  {
    if mods == [] then 0 else mods[0].deadlineModifierDays + DeadlineSum(mods[1..])
  }

  function Names(mods: seq<Modifier>): seq<string>
  {
    seq(|mods|, i requires 0 <= i < |mods| => mods[i].name)
  }

  /** The number of quantity units a band spans. */
  function BandWidth(r: PriceRange): int
  {
    r.rangeTo - r.rangeFrom + 1
  }

  // ------------------------------------------------------------ rounding

  /** The integer nearest to `x`, ties to the even one. */
  function RoundHalfEven(x: real): (n: int)
    ensures -0.5 <= x - n as real <= 0.5
    ensures (x - n as real == 0.5 || n as real - x == 0.5) ==> n % 2 == 0
  {
    var f := x.Floor;
    var d := x - f as real;
    if d < 0.5 then f
    else if d > 0.5 then f + 1
    else if f % 2 == 0 then f
    else f + 1
  }

  /** `round(x, 2)` on an exact value: the nearest multiple of 0.01, ties to
      the even number of cents. */
  function Round2(x: real): (r: real)
    ensures -0.005 <= x - r <= 0.005
  {
    RoundHalfEven(x * 100.0) as real / 100.0
  }

  /** The rounded amount is a whole number of cents, and on a tie it is the
      even one. */
  lemma Round2Cents(x: real)
    ensures var r := Round2(x);
      (r * 100.0).Floor as real == r * 100.0
      && ((x * 100.0 - r * 100.0 == 0.5 || r * 100.0 - x * 100.0 == 0.5) ==>
            (r * 100.0).Floor % 2 == 0)
  {
  }

  /** An amount that already is a whole number of cents is left as it is. */
  lemma Round2KeepsCents(cents: int)
    ensures Round2(cents as real / 100.0) == cents as real / 100.0
  {
    var x := cents as real / 100.0;
    assert x * 100.0 == cents as real;
    assert (cents as real).Floor == cents;
  }

  // ------------------------------------------------------------ the calculation

  /** What `calculate_price` returns or raises. */
  function Calculate(t: Tables, productCode: string, quantity: int,
                     materialCode: string, modifierCodes: seq<string>): Result<Quote, PriceError>
  {
    match ResolveTier(TiersOf(t.products, t.priceRanges, productCode), quantity)
    case None => Failure(NoPriceForProduct)
    case Some((tier, q)) => PriceTier(t, tier, q, materialCode, modifierCodes)
  }

  /** The rest of the calculation once the tier and the quantity are fixed. */
  function PriceTier(t: Tables, tier: Tier, q: int,
                     materialCode: string, modifierCodes: seq<string>): Result<Quote, PriceError>
  {
    if BandWidth(tier.range) == 0 then Failure(DivisionByZero)
    else
      match FindMaterial(t.materials, materialCode)
      case None => Failure(MaterialNotFound)
      case Some(m) => Success(QuoteFor(tier, q, m, Applied(t.modifiers, modifierCodes)))
  }

  /** The modifiers applied: none when no code is given (no query is made),
      otherwise those the query finds. */
  function Applied(modifiers: seq<Modifier>, modifierCodes: seq<string>): seq<Modifier>
  {
    if modifierCodes == [] then [] else SelectModifiers(modifiers, modifierCodes)
  }

  /** The band price spread over the band, times the material's multiplier. */
  function BaseUnitPrice(range: PriceRange, m: Material): real
    requires BandWidth(range) != 0
  {
    range.price / BandWidth(range) as real * m.priceMultiplier
  }

  /** The unit price: the base unit price times each modifier's multiplier. */
  function UnitPrice(range: PriceRange, m: Material, mods: seq<Modifier>): real
    requires BandWidth(range) != 0
  {
    ApplyMultipliers(BaseUnitPrice(range, m), mods)
  }

  /** The unrounded total: unit price times the quantity used. */
  function ExactTotal(range: PriceRange, m: Material, mods: seq<Modifier>, q: int): real
    requires BandWidth(range) != 0
  {
    UnitPrice(range, m, mods) * q as real
  }

  function QuoteFor(tier: Tier, q: int, m: Material, mods: seq<Modifier>): Quote
    requires BandWidth(tier.range) != 0
  {
    Quote(
      Round2(ExactTotal(tier.range, m, mods, q)),
      tier.product.baseDeadlineDays + DeadlineSum(mods),
      q,
      Names(mods))
  }

  /** `calculate_price`, step by step: the quantity is replaced on fallback,
      then `PriceResolvedTier` does the rest. */
  method CalculatePrice(t: Tables, productCode: string, quantity: int,
                        materialCode: string, modifierCodes: seq<string>)
    returns (r: Result<Quote, PriceError>)
    ensures r == Calculate(t, productCode, quantity, materialCode, modifierCodes)
  {
    var rows := TiersOf(t.products, t.priceRanges, productCode);
    var q := quantity;
    var tier: Tier;
    var found := FirstContaining(rows, q);
    if found.Some? {
      tier := found.value;
    } else {
      var top := Highest(rows);
      if top.None? {
        return Failure(NoPriceForProduct);
      }
      tier := top.value;
      q := tier.range.rangeTo;
    }
    r := PriceResolvedTier(t, tier, q, materialCode, modifierCodes);
  }

  /** The unit price updated in place: band price over band width, then the
      material multiplier, then each found modifier's multiplier. */
  method PriceResolvedTier(t: Tables, tier: Tier, q: int,
                           materialCode: string, modifierCodes: seq<string>)
    returns (r: Result<Quote, PriceError>)
    ensures r == PriceTier(t, tier, q, materialCode, modifierCodes)
  {
    var rangeCount := tier.range.rangeTo - tier.range.rangeFrom + 1;
    if rangeCount == 0 {
      return Failure(DivisionByZero);
    }
    var unitPrice := tier.range.price / rangeCount as real;

    var material := FindMaterial(t.materials, materialCode);
    if material.None? {
      return Failure(MaterialNotFound);
    }
    unitPrice := unitPrice * material.value.priceMultiplier;
    var quote := PriceModifiers(tier, q, material.value, unitPrice, t.modifiers, modifierCodes);
    r := Success(quote);
  }

  /** The rest of `calculate_price` once the material is applied: the
      modifiers are looked up and multiplied in, then the total is rounded
      and the deadline summed. */
  method PriceModifiers(tier: Tier, q: int, material: Material, basePrice: real,
                        table: seq<Modifier>, modifierCodes: seq<string>)
    returns (quote: Quote)
    requires BandWidth(tier.range) != 0
    requires basePrice == BaseUnitPrice(tier.range, material)
    ensures quote == QuoteFor(tier, q, material, Applied(table, modifierCodes))
  {
    var unitPrice := basePrice;
    var totalDeadlineModifier := 0;
    var modifiers: seq<Modifier> := [];
    if modifierCodes != [] {
      modifiers := SelectModifiers(table, modifierCodes);
      unitPrice := MultiplyModifiers(unitPrice, modifiers);
      totalDeadlineModifier := DeadlineSum(modifiers);
    }
    assert modifiers == Applied(table, modifierCodes);
    assert unitPrice == UnitPrice(tier.range, material, modifiers);
    var totalPrice := unitPrice * q as real;
    assert totalPrice == ExactTotal(tier.range, material, modifiers, q);
    var totalDays := tier.product.baseDeadlineDays + totalDeadlineModifier;
    quote := Quote(Round2(totalPrice), totalDays, q, Names(modifiers));
  }

  /** The `for mod in modifiers` loop: the unit price multiplied in place by
      each found modifier's multiplier. */
  method MultiplyModifiers(unitPrice: real, modifiers: seq<Modifier>) returns (p: real)
    ensures p == ApplyMultipliers(unitPrice, modifiers)
  {
    p := unitPrice;
    var i := 0;
    while i < |modifiers|
      invariant 0 <= i <= |modifiers|
      invariant p == ApplyMultipliers(unitPrice, modifiers[..i])
    {
      assert modifiers[..i + 1][..i] == modifiers[..i];
      p := p * modifiers[i].priceMultiplier;
      i := i + 1;
    }
    assert modifiers[..i] == modifiers;
  }

  // ------------------------------------------------------------ properties

  /** The two bands share no quantity (an empty band shares none). */
  predicate Disjoint(a: PriceRange, b: PriceRange)
  {
    a.rangeTo < b.rangeFrom || b.rangeTo < a.rangeFrom
    || a.rangeTo < a.rangeFrom || b.rangeTo < b.rangeFrom
  }

  /** The bands of a product do not overlap, so that at most one contains a
      given quantity and the order of the rows does not matter. */
  predicate NonOverlapping(rows: seq<Tier>)
  {
    forall i, j :: 0 <= i < j < |rows| ==> Disjoint(rows[i].range, rows[j].range)
  }

  /** A quantity inside a band is priced by that band, at that quantity. */
  lemma ContainingTierUsed(rows: seq<Tier>, q: int, i: int)
    requires 0 <= i < |rows| && Contains(rows[i].range, q)
    requires NonOverlapping(rows)
    ensures ResolveTier(rows, q) == Some((rows[i], q))
  {
    var f := FirstContaining(rows, q);
    var j :| 0 <= j < |rows| && rows[j] == f.value;
  }

  /** A quantity outside every band is replaced by the largest `range_to`,
      and the band ending there is used. */
  lemma FallbackToHighestTier(rows: seq<Tier>, q: int)
    requires rows != []
    requires forall i :: 0 <= i < |rows| ==> !Contains(rows[i].range, q)
    ensures ResolveTier(rows, q).Some?
    ensures ResolveTier(rows, q).value.0 in rows
    ensures ResolveTier(rows, q).value.1 == ResolveTier(rows, q).value.0.range.rangeTo
    ensures forall i :: 0 <= i < |rows| ==> rows[i].range.rangeTo <= ResolveTier(rows, q).value.1
  {
  }

  /** A quantity inside one of the product's bands: the quote uses that band
      and the requested quantity, whichever other bands exist. */
  lemma ContainedQuantityQuote(t: Tables, code: string, q: int, materialCode: string,
                               codes: seq<string>, i: int)
    requires 0 <= i < |TiersOf(t.products, t.priceRanges, code)|
    requires Contains(TiersOf(t.products, t.priceRanges, code)[i].range, q)
    requires NonOverlapping(TiersOf(t.products, t.priceRanges, code))
    requires FindMaterial(t.materials, materialCode).Some?
    ensures var tier := TiersOf(t.products, t.priceRanges, code)[i];
            var m := FindMaterial(t.materials, materialCode).value;
            var mods := Applied(t.modifiers, codes);
            var r := Calculate(t, code, q, materialCode, codes);
            r.Success? && r.value.quantityUsed == q
            && BandWidth(tier.range) >= 1
            && r.value.price == Round2(ExactTotal(tier.range, m, mods, q))
            && r.value.deadlineDays == tier.product.baseDeadlineDays + DeadlineSum(mods)
  {
    ContainingTierUsed(TiersOf(t.products, t.priceRanges, code), q, i);
  }

  /** A quantity outside every band of the product: if a quote comes back it
      is for the largest `range_to` of the product's bands, and the only
      possible errors are the zero-width band and the unknown material. */
  lemma OutOfRangeQuantityQuote(t: Tables, code: string, q: int, materialCode: string,
                                codes: seq<string>)
    requires TiersOf(t.products, t.priceRanges, code) != []
    requires forall i :: 0 <= i < |TiersOf(t.products, t.priceRanges, code)| ==>
      !Contains(TiersOf(t.products, t.priceRanges, code)[i].range, q)
    ensures var rows := TiersOf(t.products, t.priceRanges, code);
            var r := Calculate(t, code, q, materialCode, codes);
            (r.Failure? ==> r.error != NoPriceForProduct)
            && (r.Success? ==>
                  (exists i :: 0 <= i < |rows| && rows[i].range.rangeTo == r.value.quantityUsed)
                  && forall i :: 0 <= i < |rows| ==> rows[i].range.rangeTo <= r.value.quantityUsed)
  {
    var rows := TiersOf(t.products, t.priceRanges, code);
    FallbackToHighestTier(rows, q);
    var tier := ResolveTier(rows, q).value.0;
    var k :| 0 <= k < |rows| && rows[k] == tier;
    assert rows[k].range.rangeTo == ResolveTier(rows, q).value.1;
  }

  /** A product without price ranges fails with "no price", whatever the
      material: the material is never looked up. */
  lemma NoPriceRangeFailsFirst(t: Tables, code: string, q: int, materialCode: string,
                               codes: seq<string>)
    requires TiersOf(t.products, t.priceRanges, code) == []
    ensures Calculate(t, code, q, materialCode, codes) == Failure(NoPriceForProduct)
  {
  }

  /** The calculation succeeds exactly when a band is found, the band's width
      is not zero and the material exists. */
  lemma CalculateSucceedsIff(t: Tables, code: string, q: int, materialCode: string,
                             codes: seq<string>)
    ensures Calculate(t, code, q, materialCode, codes).Success? <==>
      (ResolveTier(TiersOf(t.products, t.priceRanges, code), q).Some?
       && BandWidth(ResolveTier(TiersOf(t.products, t.priceRanges, code), q).value.0.range) != 0
       && FindMaterial(t.materials, materialCode).Some?)
  {
  }

  /** The modifiers applied are exactly the table's modifiers whose code was
      requested. */
  lemma AppliedAreRequested(mods: seq<Modifier>, codes: seq<string>)
    ensures forall m :: m in Applied(mods, codes) <==> m in mods && m.code in codes
  {
  }

  lemma {:induction false} SelectAgrees(mods: seq<Modifier>, a: seq<string>, b: seq<string>)
    requires forall i :: 0 <= i < |mods| ==> (mods[i].code in a <==> mods[i].code in b)
    ensures SelectModifiers(mods, a) == SelectModifiers(mods, b)
  {
    if mods != [] {
      SelectAgrees(mods[1..], a, b);
    }
  }

  lemma {:induction false} SelectNoCodes(mods: seq<Modifier>)
    ensures SelectModifiers(mods, []) == []
  {
    if mods != [] {
      SelectNoCodes(mods[1..]);
    }
  }

  /** Requesting a code no modifier carries changes nothing. */
  lemma UnknownCodeIgnored(t: Tables, code: string, q: int, materialCode: string,
                           codes: seq<string>, c: string)
    requires forall i :: 0 <= i < |t.modifiers| ==> t.modifiers[i].code != c
    ensures Calculate(t, code, q, materialCode, codes + [c])
         == Calculate(t, code, q, materialCode, codes)
  {
    SelectAgrees(t.modifiers, codes + [c], codes);
    SelectNoCodes(t.modifiers);
    SameModifiersSameResult(t, code, q, materialCode, codes + [c], codes);
  }

  /** The codes matter only through the modifiers they select. */
  lemma SameModifiersSameResult(t: Tables, code: string, q: int, materialCode: string,
                                a: seq<string>, b: seq<string>)
    requires Applied(t.modifiers, a) == Applied(t.modifiers, b)
    ensures Calculate(t, code, q, materialCode, a) == Calculate(t, code, q, materialCode, b)
  {
  }

  /** Requesting a code twice changes nothing. */
  lemma RepeatedCodeIgnored(t: Tables, code: string, q: int, materialCode: string,
                            codes: seq<string>, c: string)
    requires c in codes
    ensures Calculate(t, code, q, materialCode, codes + [c])
         == Calculate(t, code, q, materialCode, codes)
  {
    SelectAgrees(t.modifiers, codes + [c], codes);
    SameModifiersSameResult(t, code, q, materialCode, codes + [c], codes);
  }

  /** No modifier codes: no modifier used, the product's base deadline, and
      a unit price of band and material alone. */
  lemma NoModifierCodes(t: Tables, code: string, q: int, materialCode: string,
                         tier: Tier, used: int, m: Material)
    requires ResolveTier(TiersOf(t.products, t.priceRanges, code), q) == Some((tier, used))
    requires FindMaterial(t.materials, materialCode) == Some(m)
    requires BandWidth(tier.range) != 0
    ensures var r := Calculate(t, code, q, materialCode, []);
            r.Success? && r.value.modifiersUsed == []
            && r.value.deadlineDays == tier.product.baseDeadlineDays
            && r.value.quantityUsed == used
            && r.value.price == Round2(ExactTotal(tier.range, m, [], used))
    ensures UnitPrice(tier.range, m, []) == BaseUnitPrice(tier.range, m)
  {
    assert Calculate(t, code, q, materialCode, []) == Success(QuoteFor(tier, used, m, []));
    assert Names([]) == [];
  }

  /** The deadline is the band's product base deadline plus the adjustments
      of the modifiers found, with no clamping. */
  lemma DeadlineIsBasePlusAdjustments(t: Tables, code: string, q: int, materialCode: string,
                                      codes: seq<string>)
    ensures var r := Calculate(t, code, q, materialCode, codes);
            r.Success? ==>
              r.value.deadlineDays
              == ResolveTier(TiersOf(t.products, t.priceRanges, code), q).value.0.product.baseDeadlineDays
                 + DeadlineSum(Applied(t.modifiers, codes))
              && r.value.modifiersUsed == Names(Applied(t.modifiers, codes))
  {
    var r := Calculate(t, code, q, materialCode, codes);
    if r.Success? {
      var res := ResolveTier(TiersOf(t.products, t.priceRanges, code), q).value;
      var m := FindMaterial(t.materials, materialCode).value;
      assert r == Success(QuoteFor(res.0, res.1, m, Applied(t.modifiers, codes)));
    }
  }

  lemma {:induction false} ZeroFactorAbsorbs(x: real, mods: seq<Modifier>, k: int)
    requires 0 <= k < |mods| && mods[k].priceMultiplier == 0.0
    ensures ApplyMultipliers(x, mods) == 0.0
  {
    if k < |mods| - 1 {
      ZeroFactorAbsorbs(x, mods[..|mods| - 1], k);
    }
  }

  /** A modifier whose multiplier is zero is applied, not rejected: the
      price becomes zero. */
  lemma ZeroMultiplierApplied(t: Tables, code: string, q: int, materialCode: string,
                              codes: seq<string>, k: int)
    requires 0 <= k < |Applied(t.modifiers, codes)|
    requires Applied(t.modifiers, codes)[k].priceMultiplier == 0.0
    ensures var r := Calculate(t, code, q, materialCode, codes);
            r.Success? ==> r.value.price == 0.0
  {
    var r := Calculate(t, code, q, materialCode, codes);
    if r.Success? {
      var res := ResolveTier(TiersOf(t.products, t.priceRanges, code), q).value;
      var tier, used := res.0, res.1;
      var m := FindMaterial(t.materials, materialCode).value;
      var mods := Applied(t.modifiers, codes);
      assert r == Success(QuoteFor(tier, used, m, mods));
      ZeroFactorAbsorbs(BaseUnitPrice(tier.range, m), mods, k);
      assert UnitPrice(tier.range, m, mods) == 0.0;
      assert ExactTotal(tier.range, m, mods, used) == 0.0;
      Round2KeepsCents(0);
    }
  }

  /** A single band [1, 100] priced 100 and a request for 500: the price is
      that of 100 units, 100 times the material and modifier multipliers,
      not 500 times. */
  lemma SingleBandFallback(t: Tables, code: string, q: int, materialCode: string,
                           codes: seq<string>, tier: Tier, m: Material)
    requires TiersOf(t.products, t.priceRanges, code) == [tier]
    requires tier.range.rangeFrom == 1 && tier.range.rangeTo == 100 && tier.range.price == 100.0
    requires q > 100
    requires FindMaterial(t.materials, materialCode) == Some(m)
    ensures var mods := Applied(t.modifiers, codes);
            Calculate(t, code, q, materialCode, codes)
            == Success(Quote(
                 Round2(ApplyMultipliers(m.priceMultiplier, mods) * 100.0),
                 tier.product.baseDeadlineDays + DeadlineSum(mods),
                 100,
                 Names(mods)))
  {
    var mods := Applied(t.modifiers, codes);
    SingleBandAbove(t, code, q, materialCode, codes, tier, m);
    HundredUnitBand(tier, m, mods);
    assert Calculate(t, code, q, materialCode, codes) == Success(QuoteFor(tier, 100, m, mods));
  }

  /** A request above the only band of a product is quoted at that band's
      `range_to`. */
  lemma SingleBandAbove(t: Tables, code: string, q: int, materialCode: string,
                        codes: seq<string>, tier: Tier, m: Material)
    requires TiersOf(t.products, t.priceRanges, code) == [tier]
    requires tier.range.rangeFrom <= tier.range.rangeTo < q
    requires FindMaterial(t.materials, materialCode) == Some(m)
    ensures Calculate(t, code, q, materialCode, codes)
         == Success(QuoteFor(tier, tier.range.rangeTo, m, Applied(t.modifiers, codes)))
  {
    var rows := TiersOf(t.products, t.priceRanges, code);
    assert FirstContaining(rows, q) == None;
    assert ResolveTier(rows, q) == Some((tier, tier.range.rangeTo));
  }

  /** The band [1, 100] priced 100 costs one unit of currency per unit, so
      100 units cost 100 times the multipliers. */
  lemma HundredUnitBand(tier: Tier, m: Material, mods: seq<Modifier>)
    requires tier.range.rangeFrom == 1 && tier.range.rangeTo == 100 && tier.range.price == 100.0
    ensures BandWidth(tier.range) == 100
    ensures QuoteFor(tier, 100, m, mods)
         == Quote(Round2(ApplyMultipliers(m.priceMultiplier, mods) * 100.0),
                  tier.product.baseDeadlineDays + DeadlineSum(mods), 100, Names(mods))
  {
    assert BaseUnitPrice(tier.range, m) == m.priceMultiplier;
    assert ExactTotal(tier.range, m, mods, 100) == ApplyMultipliers(m.priceMultiplier, mods) * 100.0;
  }

  /** Business cards, band [100, 500] at 250.00, paper multiplier 1.2,
      lamination 1.15 and one extra day, 250 cards: 215.09 in 4 days. */
  lemma BusinessCardQuote()
    ensures var t := Tables(
              [Product(1, "business_card", "Business cards", "pcs", 3)],
              [PriceRange(1, 1, 100, 500, 250.0)],
              [Material(1, "paper_350", "Paper 350", 1.2)],
              [Modifier(1, "lamination", "Lamination", 1.15, 1)]);
            Calculate(t, "business_card", 250, "paper_350", ["lamination"])
            == Success(Quote(215.09, 4, 250, ["Lamination"]))
  {
    var t := Tables(
      [Product(1, "business_card", "Business cards", "pcs", 3)],
      [PriceRange(1, 1, 100, 500, 250.0)],
      [Material(1, "paper_350", "Paper 350", 1.2)],
      [Modifier(1, "lamination", "Lamination", 1.15, 1)]);
    var rows := TiersOf(t.products, t.priceRanges, "business_card");
    assert rows == [Tier(t.priceRanges[0], t.products[0])];
    var mods := Applied(t.modifiers, ["lamination"]);
    assert mods == t.modifiers;
    assert mods[..0] == [];
    var x := 250.0 / 401.0 * 1.2;
    assert BaseUnitPrice(t.priceRanges[0], t.materials[0]) == x;
    assert UnitPrice(t.priceRanges[0], t.materials[0], mods) == ApplyMultipliers(x, mods);
    assert ApplyMultipliers(x, mods) == x * 1.15;
    var total := ExactTotal(t.priceRanges[0], t.materials[0], mods, 250);
    assert total == x * 1.15 * 250.0;
    assert total * 100.0 == 8625000.0 / 401.0;
    assert 21508.0 <= total * 100.0 < 21509.0;
    assert (total * 100.0).Floor == 21508;
    assert RoundHalfEven(total * 100.0) == 21509;
    assert Round2(total) == 215.09;
    assert ResolveTier(rows, 250) == Some((rows[0], 250));
    assert Calculate(t, "business_card", 250, "paper_350", ["lamination"])
        == Success(QuoteFor(rows[0], 250, t.materials[0], mods));
    assert Names(mods) == ["Lamination"];
  }

  /** No clamping: base 2 days and a modifier of -5 days give -3 days. */
  lemma NegativeDeadlineKept()
    ensures var t := Tables(
              [Product(1, "flyer", "Flyers", "pcs", 2)],
              [PriceRange(1, 1, 1, 10, 10.0)],
              [Material(1, "paper", "Paper", 1.0)],
              [Modifier(1, "express", "Express", 2.0, -5)]);
            var r := Calculate(t, "flyer", 5, "paper", ["express"]);
            r.Success? && r.value.deadlineDays == -3
  {
    var t := Tables(
      [Product(1, "flyer", "Flyers", "pcs", 2)],
      [PriceRange(1, 1, 1, 10, 10.0)],
      [Material(1, "paper", "Paper", 1.0)],
      [Modifier(1, "express", "Express", 2.0, -5)]);
    assert TiersOf(t.products, t.priceRanges, "flyer") == [Tier(t.priceRanges[0], t.products[0])];
    assert Applied(t.modifiers, ["express"]) == t.modifiers;
  }
}
