/** Personal income tax for assessment year 2024-25 (India), old and new regime:
    the `calculate_tax` function of tax_app.py.

    Amounts of income and deductions are whole rupees (`nat`); tax, cess and the
    total are exact `real`s, so the rates 5%, 10%, ... are exact rationals rather
    than floating point. */
module TaxApp {

  datatype Option<T> = None | Some(value: T)

  /** The regime selector. The source compares a string with "old" and "new";
      `Other` stands for every other string. */
  datatype Regime = Old | New | Other

  /** The optional deductions dictionary: a key that is absent is `None`. */
  datatype Deductions = Deductions(section80C: Option<nat>, section80D: Option<nat>)

  /** `deductions=None`, which the source replaces by an empty dictionary. */
  const NoDeductions := Deductions(None, None)

  datatype TaxInputs = TaxInputs(
    salaryIncome: nat,
    otherIncome: nat,
    regime: Regime,
    deductions: Deductions,
    hraExemption: nat,
    homeLoanInterest: nat)

  /** The six entries of the dictionary the source returns. */
  datatype TaxBreakdown = TaxBreakdown(
    grossIncome: nat,
    totalDeductions: nat,
    taxableIncome: nat,
    taxBeforeCess: real,
    cess: real,
    totalTaxPayable: real)

  const StandardDeduction: nat := 50000
  const CessRate: real := 0.04
  /** At or below these taxable incomes the rebate zeroes the tax. */
  const OldRebateLimit: nat := 500000
  const NewRebateLimit: nat := 700000

  /** The inputs when only the two incomes are passed: regime 'new', no
      deductions dictionary, no HRA exemption, no home-loan interest. */
  function WithDefaults(salaryIncome: nat, otherIncome: nat): (inputs: TaxInputs)
  {
    TaxInputs(salaryIncome, otherIncome, New, NoDeductions, 0, 0)
  }

  /** `deductions.get(key, 0)`. */
  function Claimed(amount: Option<nat>): (claimed: nat)
  {
    match amount
    case None => 0
    case Some(a) => a
  }

  function Max(a: int, b: int): (m: int)
  {
    if a >= b then a else b
  }

  // ---------------------------------------------------------------------------
  // Tax bands

  /** How much income a band holds; `Unbounded` is the source's `float('inf')`. */
  datatype Width = Upto(amount: nat) | Unbounded

  datatype Band = Band(width: Width, rate: real)

  /** The new-regime slab list: five bands of 300,000 and an unbounded top band. */
  const NewRegimeBands: seq<Band> := [
    Band(Upto(300000), 0.0),
    Band(Upto(300000), 0.05),
    Band(Upto(300000), 0.10),
    Band(Upto(300000), 0.15),
    Band(Upto(300000), 0.20),
    Band(Unbounded, 0.30)]

  /** The old-regime brackets 0-250,000 at 0%, 250,000-500,000 at 5%,
      500,000-1,000,000 at 20% and 30% above. */
  const OldRegimeBands: seq<Band> := [
    Band(Upto(250000), 0.0),
    Band(Upto(250000), 0.05),
    Band(Upto(500000), 0.20),
    Band(Unbounded, 0.30)]

  /** `min(slab_amount, remaining)`: the part of `remaining` that falls in a band. */
  function Take(w: Width, remaining: nat): (m: nat)
    ensures m <= remaining
    ensures w.Upto? ==> m <= w.amount
    ensures m == remaining || (w.Upto? && m == w.amount)
  {
    match w
    case Unbounded => remaining
    case Upto(amount) => if amount <= remaining then amount else remaining
  }

  /** Tax on `remaining` charged band by band from the first one: each band takes
      what fits in it at its own rate, and charging stops once nothing remains. */
  function BandsTax(bands: seq<Band>, remaining: nat): (tax: real)
    decreases |bands|
  {
    if bands == [] || remaining == 0 then 0.0
    else
      var m := Take(bands[0].width, remaining);
      m as real * bands[0].rate + BandsTax(bands[1..], remaining - m)
  }

  /** The amounts the bands take from `remaining`, in band order. */
  function Allocation(bands: seq<Band>, remaining: nat): (amounts: seq<nat>)
    decreases |bands|
  {
    if bands == [] || remaining == 0 then []
    else
      var m := Take(bands[0].width, remaining);
      [m] + Allocation(bands[1..], remaining - m)
  }

  function Sum(s: seq<nat>): (total: nat)
  {
    if s == [] then 0 else s[0] + Sum(s[1..])
  }

  /** The sum of `amounts[k]` times the rate of band `k`. */
  function Weighted(amounts: seq<nat>, bands: seq<Band>): (tax: real)
    requires |amounts| <= |bands|
  {
    if amounts == [] then 0.0
    else amounts[0] as real * bands[0].rate + Weighted(amounts[1..], bands[1..])
  }

  /** No band is given more than its width, and there is at most one amount per band. */
  lemma {:induction false} AllocationWithinBands(bands: seq<Band>, remaining: nat)
    ensures |Allocation(bands, remaining)| <= |bands|
    ensures forall k :: 0 <= k < |Allocation(bands, remaining)| ==>
      bands[k].width.Upto? ==> Allocation(bands, remaining)[k] <= bands[k].width.amount
  {
    if bands != [] && remaining != 0 {
      var m := Take(bands[0].width, remaining);
      AllocationWithinBands(bands[1..], remaining - m);
      var a := Allocation(bands, remaining);
      assert a == [m] + Allocation(bands[1..], remaining - m);
      forall k | 0 <= k < |a| && bands[k].width.Upto?
        ensures a[k] <= bands[k].width.amount
      {
        if k > 0 {
          assert a[k] == Allocation(bands[1..], remaining - m)[k - 1];
          assert bands[k] == bands[1..][k - 1];
        }
      }
    }
  }

  /** When the last band is unbounded, the bands take all of the income. */
  lemma {:induction false} AllocationCoversIncome(bands: seq<Band>, remaining: nat)
    requires bands != [] && bands[|bands| - 1].width == Unbounded
    ensures Sum(Allocation(bands, remaining)) == remaining
  {
    if remaining != 0 {
      var m := Take(bands[0].width, remaining);
      if |bands| == 1 {
        assert m == remaining;
        assert Allocation(bands[1..], 0) == [];
      } else {
        AllocationCoversIncome(bands[1..], remaining - m);
      }
      assert Allocation(bands, remaining) == [m] + Allocation(bands[1..], remaining - m);
    }
  }

  /** The band-by-band tax is the rate-weighted sum of the allocation. */
  lemma {:induction false} BandsTaxIsWeightedAllocation(bands: seq<Band>, remaining: nat)
    ensures |Allocation(bands, remaining)| <= |bands|
    ensures BandsTax(bands, remaining) == Weighted(Allocation(bands, remaining), bands)
  {
    AllocationWithinBands(bands, remaining);
    if bands != [] && remaining != 0 {
      var m := Take(bands[0].width, remaining);
      BandsTaxIsWeightedAllocation(bands[1..], remaining - m);
      var a := Allocation(bands, remaining);
      assert a[1..] == Allocation(bands[1..], remaining - m);
    }
  }

  /** One step of the band loop: the first band takes its share at its rate. */
  lemma BandsStep(bands: seq<Band>, remaining: nat)
    requires bands != [] && remaining != 0
    ensures var m := Take(bands[0].width, remaining);
      BandsTax(bands, remaining) == m as real * bands[0].rate + BandsTax(bands[1..], remaining - m)
      && Allocation(bands, remaining) == [m] + Allocation(bands[1..], remaining - m)
  {
  }

  /** On the new-regime list: the five bounded bands take at most 300,000 each,
      the amounts add up to the taxable income, and the loop's tax is the
      amount in each band times its rate. */
  lemma NewRegimeAllocation(t: nat)
    ensures Sum(Allocation(NewRegimeBands, t)) == t
    ensures forall k :: 0 <= k < |Allocation(NewRegimeBands, t)| && k < 5 ==> Allocation(NewRegimeBands, t)[k] <= 300000
    ensures BandsTax(NewRegimeBands, t) == Weighted(Allocation(NewRegimeBands, t), NewRegimeBands)
  {
    AllocationCoversIncome(NewRegimeBands, t);
    AllocationWithinBands(NewRegimeBands, t);
    BandsTaxIsWeightedAllocation(NewRegimeBands, t);
  }

  // ---------------------------------------------------------------------------
  // Slab tax before the rebate

  /** The old-regime bracket formula as the source writes it, branch by branch. */
  function OldBracketTax(t: nat): (tax: real)
  {
    if t <= 250000 then 0.0
    else if t <= 500000 then (t - 250000) as real * 0.05
    else if t <= 1000000 then 250000.0 * 0.05 + (t - 500000) as real * 0.20
    else 250000.0 * 0.05 + 500000.0 * 0.20 + (t - 1000000) as real * 0.30
  }

  /** Closed form of the new-regime band loop: the fixed tax on the full bands
      below `t` plus the marginal rate on the part of `t` in its own band. */
  function NewRegimeSlabTax(t: nat): (tax: real)
  {
    if t <= 300000 then 0.0
    else if t <= 600000 then (t - 300000) as real * 0.05
    else if t <= 900000 then 15000.0 + (t - 600000) as real * 0.10
    else if t <= 1200000 then 45000.0 + (t - 900000) as real * 0.15
    else if t <= 1500000 then 90000.0 + (t - 1200000) as real * 0.20
    else 150000.0 + (t - 1500000) as real * 0.30
  }

  /** A first band of width `w` that `remaining` fills is charged in full. */
  lemma BandsTaxFullBand(bands: seq<Band>, w: nat, rate: real, remaining: nat)
    requires bands != [] && bands[0] == Band(Upto(w), rate)
    requires 0 < w <= remaining
    ensures BandsTax(bands, remaining) == w as real * rate + BandsTax(bands[1..], remaining - w)
  {
  }

  /** A first band that holds all of `remaining` is the only one charged. */
  lemma BandsTaxLastBand(bands: seq<Band>, rate: real, remaining: nat)
    requires bands != [] && bands[0].rate == rate
    requires bands[0].width.Upto? ==> remaining <= bands[0].width.amount
    ensures BandsTax(bands, remaining) == remaining as real * rate
  {
    if remaining != 0 {
      assert BandsTax(bands[1..], 0) == 0.0;
    }
  }

  /** `NewRegimeFromBandK`: the new-regime bands from the `K`-th on charge `r`
      what the closed form charges on `300,000 * K + r`, less the fixed tax of
      the first `K` full bands. Proved from the top band down. */
  lemma NewRegimeFromBand4(r: nat)
    ensures BandsTax(NewRegimeBands[4..], r) == NewRegimeSlabTax(1200000 + r) - 90000.0
  {
    var bands := NewRegimeBands[4..];
    if r <= 300000 {
      BandsTaxLastBand(bands, 0.20, r);
    } else {
      BandsTaxFullBand(bands, 300000, 0.20, r);
      assert bands[1..] == NewRegimeBands[5..];
      BandsTaxLastBand(NewRegimeBands[5..], 0.30, r - 300000);
    }
  }

  lemma NewRegimeFromBand3(r: nat)
    ensures BandsTax(NewRegimeBands[3..], r) == NewRegimeSlabTax(900000 + r) - 45000.0
  {
    var bands := NewRegimeBands[3..];
    if r <= 300000 {
      BandsTaxLastBand(bands, 0.15, r);
    } else {
      BandsTaxFullBand(bands, 300000, 0.15, r);
      assert bands[1..] == NewRegimeBands[4..];
      NewRegimeFromBand4(r - 300000);
    }
  }

  lemma NewRegimeFromBand2(r: nat)
    ensures BandsTax(NewRegimeBands[2..], r) == NewRegimeSlabTax(600000 + r) - 15000.0
  {
    var bands := NewRegimeBands[2..];
    if r <= 300000 {
      BandsTaxLastBand(bands, 0.10, r);
    } else {
      BandsTaxFullBand(bands, 300000, 0.10, r);
      assert bands[1..] == NewRegimeBands[3..];
      NewRegimeFromBand3(r - 300000);
    }
  }

  lemma NewRegimeFromBand1(r: nat)
    ensures BandsTax(NewRegimeBands[1..], r) == NewRegimeSlabTax(300000 + r)
  {
    var bands := NewRegimeBands[1..];
    if r <= 300000 {
      BandsTaxLastBand(bands, 0.05, r);
    } else {
      BandsTaxFullBand(bands, 300000, 0.05, r);
      assert bands[1..] == NewRegimeBands[2..];
      NewRegimeFromBand2(r - 300000);
    }
  }

  /** The new-regime band loop and its closed form agree on every income. */
  lemma NewRegimeClosedForm(t: nat)
    ensures BandsTax(NewRegimeBands, t) == NewRegimeSlabTax(t)
  {
    if t <= 300000 {
      BandsTaxLastBand(NewRegimeBands, 0.0, t);
    } else {
      BandsTaxFullBand(NewRegimeBands, 300000, 0.0, t);
      NewRegimeFromBand1(t - 300000);
    }
  }

  /** The old brackets from the third on charge `r` what the source's formula
      charges on `500,000 + r`, less the 12,500 of the 5% bracket. */
  lemma OldRegimeFromBand2(r: nat)
    ensures BandsTax(OldRegimeBands[2..], r) == OldBracketTax(500000 + r) - 12500.0
  {
    var bands := OldRegimeBands[2..];
    if r <= 500000 {
      BandsTaxLastBand(bands, 0.20, r);
    } else {
      BandsTaxFullBand(bands, 500000, 0.20, r);
      assert bands[1..] == OldRegimeBands[3..];
      BandsTaxLastBand(OldRegimeBands[3..], 0.30, r - 500000);
    }
  }

  /** The old brackets from the second on charge `r` what the source's formula
      charges on `250,000 + r`. */
  lemma OldRegimeFromBand1(r: nat)
    ensures BandsTax(OldRegimeBands[1..], r) == OldBracketTax(250000 + r)
  {
    var bands := OldRegimeBands[1..];
    if r <= 250000 {
      BandsTaxLastBand(bands, 0.05, r);
    } else {
      BandsTaxFullBand(bands, 250000, 0.05, r);
      assert bands[1..] == OldRegimeBands[2..];
      OldRegimeFromBand2(r - 250000);
    }
  }

  /** The source's bracket formula is the marginal-bracket tax over the old
      brackets: each rate applies only to the income within its bracket. */
  lemma OldBracketIsMarginal(t: nat)
    ensures OldBracketTax(t) == BandsTax(OldRegimeBands, t)
  {
    if t <= 250000 {
      BandsTaxLastBand(OldRegimeBands, 0.0, t);
    } else {
      BandsTaxFullBand(OldRegimeBands, 250000, 0.0, t);
      OldRegimeFromBand1(t - 250000);
    }
  }

  /** Before the rebate, a larger taxable income never pays less slab tax in
      either regime. */
  lemma SlabTaxMonotone(t1: nat, t2: nat)
    requires t1 <= t2
    ensures OldBracketTax(t1) <= OldBracketTax(t2)
    ensures NewRegimeSlabTax(t1) <= NewRegimeSlabTax(t2)
  {
  }

  // ---------------------------------------------------------------------------
  // The whole computation

  function TotalDeductions(inputs: TaxInputs): (total: nat)
  {
    match inputs.regime
    case Old =>
      StandardDeduction + Claimed(inputs.deductions.section80C) + Claimed(inputs.deductions.section80D)
        + inputs.homeLoanInterest + inputs.hraExemption
    case New => StandardDeduction
    case Other => 0
  }

  function TaxableIncome(grossIncome: nat, totalDeductions: nat): (taxable: nat)
  {
    Max(0, grossIncome - totalDeductions)
  }

  /** Slab tax followed by the regime's full-rebate override. */
  function TaxBeforeCess(regime: Regime, taxableIncome: nat): (tax: real)
  {
    match regime
    case Old => if taxableIncome <= OldRebateLimit then 0.0 else OldBracketTax(taxableIncome)
    case New => if taxableIncome <= NewRebateLimit then 0.0 else NewRegimeSlabTax(taxableIncome)
    case Other => 0.0
  }

  /** The breakdown `calculate_tax` returns, as a function of its inputs. */
  function Breakdown(inputs: TaxInputs): (breakdown: TaxBreakdown)
  {
    var gross := inputs.salaryIncome + inputs.otherIncome;
    var deductions := TotalDeductions(inputs);
    var taxable := TaxableIncome(gross, deductions);
    var tax := TaxBeforeCess(inputs.regime, taxable);
    var cess := tax * CessRate;
    TaxBreakdown(gross, deductions, taxable, tax, cess, tax + cess)
  }

  /** Appending one amount adds it to the sum. */
  lemma {:induction false} SumAppend(s: seq<nat>, x: nat)
    ensures Sum(s + [x]) == Sum(s) + x
  {
    if s != [] {
      SumAppend(s[1..], x);
      assert (s + [x])[1..] == s[1..] + [x];
    }
  }

  /** One pass of the slab loop on the amounts: the first unvisited band's
      share moves from the allocation of the rest onto the amounts taken. */
  lemma AllocationStep(slabs: seq<Band>, i: nat, remaining: nat, taken: seq<nat>)
    requires i < |slabs| && remaining != 0
    ensures var m := Take(slabs[i].width, remaining);
      (taken + [m]) + Allocation(slabs[i + 1..], remaining - m) == taken + Allocation(slabs[i..], remaining)
  {
    var m := Take(slabs[i].width, remaining);
    BandsStep(slabs[i..], remaining);
    assert slabs[i..][1..] == slabs[i + 1..];
    assert (taken + [m]) + Allocation(slabs[i + 1..], remaining - m)
      == taken + ([m] + Allocation(slabs[i + 1..], remaining - m));
  }

  /** One pass of the slab loop, stated on the suffix of bands still to visit. */
  lemma SlabStep(slabs: seq<Band>, i: nat, remaining: nat)
    requires i < |slabs| && remaining != 0
    ensures var m := Take(slabs[i].width, remaining);
      BandsTax(slabs[i..], remaining) == m as real * slabs[i].rate + BandsTax(slabs[i + 1..], remaining - m)
  {
    BandsStep(slabs[i..], remaining);
    assert slabs[i..][1..] == slabs[i + 1..];
  }

  /** The new-regime slab loop: walks the bands in order, charging each band's
      rate on `min(width, remaining)` until nothing remains. The ghost
      `amounts` records what each visited band took: no band takes more than
      its width, and what was taken plus what remains is always the taxable
      income, so with an unbounded last band nothing is left untaxed. */
  method ChargeBands(slabs: seq<Band>, taxableIncome: nat) returns (tax: real, ghost amounts: seq<nat>)
    ensures tax == BandsTax(slabs, taxableIncome)
    ensures amounts == Allocation(slabs, taxableIncome)
    ensures |amounts| <= |slabs|
    ensures forall k :: 0 <= k < |amounts| ==> slabs[k].width.Upto? ==> amounts[k] <= slabs[k].width.amount
    ensures slabs != [] && slabs[|slabs| - 1].width == Unbounded ==> Sum(amounts) == taxableIncome
  {
    tax := 0.0;
    amounts := [];
    var remaining: nat := taxableIncome;
    var i := 0;
    assert slabs[i..] == slabs;
    while i < |slabs|
      invariant 0 <= i <= |slabs|
      invariant tax + BandsTax(slabs[i..], remaining) == BandsTax(slabs, taxableIncome)
      invariant amounts + Allocation(slabs[i..], remaining) == Allocation(slabs, taxableIncome)
      invariant Sum(amounts) + remaining == taxableIncome
    {
      if remaining <= 0 {
        break;
      }
      var amountInSlab := Take(slabs[i].width, remaining);
      assert tax + amountInSlab as real * slabs[i].rate + BandsTax(slabs[i + 1..], remaining - amountInSlab)
        == BandsTax(slabs, taxableIncome) by {
        SlabStep(slabs, i, remaining);
      }
      AllocationStep(slabs, i, remaining, amounts);
      SumAppend(amounts, amountInSlab);
      tax := tax + amountInSlab as real * slabs[i].rate;
      amounts := amounts + [amountInSlab];
      remaining := remaining - amountInSlab;
      i := i + 1;
    }
    assert Allocation(slabs[i..], remaining) == [];
    assert amounts + [] == amounts;
    AllocationWithinBands(slabs, taxableIncome);
    if slabs != [] && slabs[|slabs| - 1].width == Unbounded {
      AllocationCoversIncome(slabs, taxableIncome);
    }
  }

  /** `calculate_tax`: accumulates the deductions, clamps the taxable income,
      charges the regime's slabs, applies the rebate and adds the cess. */
  method CalculateTax(inputs: TaxInputs) returns (result: TaxBreakdown)
    ensures result == Breakdown(inputs)
  {
    var deductions := inputs.deductions;
    var grossIncome := inputs.salaryIncome + inputs.otherIncome;
    var totalDeductions: nat := 0;

    if inputs.regime.Old? {
      totalDeductions := totalDeductions + StandardDeduction;
      totalDeductions := totalDeductions + Claimed(deductions.section80C);
      totalDeductions := totalDeductions + Claimed(deductions.section80D);
      totalDeductions := totalDeductions + inputs.homeLoanInterest;
      totalDeductions := totalDeductions + inputs.hraExemption;
    } else if inputs.regime.New? {
      totalDeductions := totalDeductions + StandardDeduction;
    }

    var taxableIncome: nat := Max(0, grossIncome - totalDeductions);

    var tax: real := 0.0;
    if inputs.regime.Old? {
      tax := OldBracketTax(taxableIncome);
      if taxableIncome <= OldRebateLimit {
        tax := 0.0;
      }
    } else if inputs.regime.New? {
      ghost var amounts;
      tax, amounts := ChargeBands(NewRegimeBands, taxableIncome);
      NewRegimeClosedForm(taxableIncome);
      if taxableIncome <= NewRebateLimit {
        tax := 0.0;
      }
    }

    var cess := tax * CessRate;
    var totalTax := tax + cess;
    result := TaxBreakdown(grossIncome, totalDeductions, taxableIncome, tax, cess, totalTax);
  }

  // ---------------------------------------------------------------------------
  // Properties of the breakdown

  /** The relations between the six fields that hold for every input. */
  lemma BreakdownInvariants(inputs: TaxInputs)
    ensures var b := Breakdown(inputs);
      b.grossIncome == inputs.salaryIncome + inputs.otherIncome
      && b.taxableIncome == Max(0, b.grossIncome - b.totalDeductions)
      && b.taxableIncome <= b.grossIncome
      && b.taxBeforeCess >= 0.0
      && b.cess == 0.04 * b.taxBeforeCess
      && b.totalTaxPayable == b.taxBeforeCess + b.cess
  {
  }

  /** No slab tax exceeds the top rate of 30% of the taxable income. */
  lemma TaxAtMostTopRate(inputs: TaxInputs)
    ensures Breakdown(inputs).taxBeforeCess <= 0.30 * Breakdown(inputs).taxableIncome as real
  {
  }

  /** Old regime: the standard deduction plus 80C, 80D, home-loan interest and
      HRA, where a key missing from the dictionary counts as 0. */
  lemma OldRegimeDeductions(inputs: TaxInputs)
    requires inputs.regime == Old
    ensures Breakdown(inputs).totalDeductions ==
      50000 + Claimed(inputs.deductions.section80C) + Claimed(inputs.deductions.section80D)
        + inputs.homeLoanInterest + inputs.hraExemption
    ensures Breakdown(inputs.(deductions := NoDeductions)).totalDeductions ==
      50000 + inputs.homeLoanInterest + inputs.hraExemption
  {
  }

  /** New regime: only the standard deduction counts, so 80C, 80D, HRA and
      home-loan interest have no effect on any field of the breakdown. */
  lemma NewRegimeIgnoresDeductions(a: TaxInputs, b: TaxInputs)
    requires a.regime == New && b.regime == New
    requires a.salaryIncome == b.salaryIncome && a.otherIncome == b.otherIncome
    ensures Breakdown(a).totalDeductions == 50000
    ensures Breakdown(a) == Breakdown(b)
  {
  }

  /** Old regime: the tax is zero exactly when the taxable income is at most
      500,000; above it the tax is the bracket formula. */
  lemma OldRegimeRebate(inputs: TaxInputs)
    requires inputs.regime == Old
    ensures var b := Breakdown(inputs);
      (b.taxBeforeCess == 0.0 <==> b.taxableIncome <= 500000)
      && (b.taxableIncome <= 500000 ==> b.totalTaxPayable == 0.0)
      && (b.taxableIncome > 500000 ==> b.taxBeforeCess == BandsTax(OldRegimeBands, b.taxableIncome))
  {
    OldBracketIsMarginal(Breakdown(inputs).taxableIncome);
  }

  /** New regime: the tax is zero exactly when the taxable income is at most
      700,000; above it the tax is the band-by-band tax. */
  lemma NewRegimeRebate(inputs: TaxInputs)
    requires inputs.regime == New
    ensures var b := Breakdown(inputs);
      (b.taxBeforeCess == 0.0 <==> b.taxableIncome <= 700000)
      && (b.taxableIncome <= 700000 ==> b.totalTaxPayable == 0.0)
      && (b.taxableIncome > 700000 ==> b.taxBeforeCess == BandsTax(NewRegimeBands, b.taxableIncome))
  {
    NewRegimeClosedForm(Breakdown(inputs).taxableIncome);
  }

  /** A regime string other than "old" and "new" deducts nothing and taxes nothing. */
  lemma OtherRegimeOwesNothing(inputs: TaxInputs)
    requires inputs.regime == Other
    ensures var b := Breakdown(inputs);
      b.totalDeductions == 0 && b.taxableIncome == b.grossIncome
      && b.taxBeforeCess == 0.0 && b.cess == 0.0 && b.totalTaxPayable == 0.0
  {
  }

  /** Salary 600,000 under the new regime: taxable 550,000, inside the rebate. */
  lemma NewRegimeWithinRebate()
    ensures Breakdown(TaxInputs(600000, 0, New, NoDeductions, 0, 0))
      == TaxBreakdown(600000, 50000, 550000, 0.0, 0.0, 0.0)
  {
  }

  /** Salary 1,200,000 under the new regime: taxable 1,150,000 is charged
      0 + 15,000 + 30,000 + 37,500 = 82,500, plus 3,300 cess. */
  lemma NewRegimeAboveRebate()
    ensures Breakdown(WithDefaults(1200000, 0))
      == TaxBreakdown(1200000, 50000, 1150000, 82500.0, 3300.0, 85800.0)
    ensures BandsTax(NewRegimeBands, 1150000) == 82500.0
  {
    NewRegimeClosedForm(1150000);
  }

  /** Salary 900,000 under the old regime with 150,000 of 80C and 25,000 of 80D:
      taxable 675,000 is charged 12,500 + 35,000 = 47,500, plus 1,900 cess. */
  lemma OldRegimeAboveRebate()
    ensures Breakdown(TaxInputs(900000, 0, Old, Deductions(Some(150000), Some(25000)), 0, 0))
      == TaxBreakdown(900000, 225000, 675000, 47500.0, 1900.0, 49400.0)
  {
  }
}
