/** The `/calc` conversation: product, quantity, material, then a toggled
    selection of modifiers, and "done" hands the collected answers to the
    price calculation. One `CalcSession` object holds what the conversation
    state stores for one chat: the current step and the answers so far. */
module CalcHandler {
  import opened Wrappers
  import opened Text
  import opened Catalog
  import opened PriceEngine

  // ------------------------------------------------------------ quantity text

  /** The quantity a message's text gives: its value when the text is
      non-empty and all digits (no sign, no surrounding spaces), nothing
      otherwise. */
  function ParseQuantity(text: string): (q: Option<int>)
    ensures q.Some? ==> q.value >= 0
  {
    if IsDigits(text) then Some(DecimalValue(text)) else None
  }

  /** Every natural number typed in its usual decimal form is accepted. */
  lemma QuantityRoundTrip(n: nat)
    ensures ParseQuantity(DecimalDigits(n)) == Some(n)
  {
  }

  /** Leading zeros are accepted and change nothing, so "0", "00" and "007"
      all get through, and quantity 0 reaches the calculation. */
  lemma LeadingZerosAccepted(s: string)
    requires s != ""
    ensures ParseQuantity("0" + s) == ParseQuantity(s)
    ensures ParseQuantity("0") == Some(0)
  {
    if AllDigits(s) {
      LeadingZeroIgnored(s);
    } else {
      var i :| 0 <= i < |s| && !IsDigit(s[i]);
      assert ("0" + s)[i + 1] == s[i];
    }
  }

  /** The empty text, a sign and surrounding spaces are all rejected: the
      text is not stripped before the check. */
  lemma RejectedTexts(s: string)
    ensures ParseQuantity("") == None
    ensures ParseQuantity("-" + s) == None
    ensures ParseQuantity(" " + s) == None && ParseQuantity(s + " ") == None
  {
    assert ("-" + s)[0] == '-';
    assert (" " + s)[0] == ' ';
    assert !IsDigit((s + " ")[|s|]);
  }

  // ------------------------------------------------------------ selection

  /** Every code occurs at most once. */
  ghost predicate NoDup(s: seq<string>)
  {
    forall x :: multiset(s)[x] <= 1
  }

  /** `list.remove`: the list without its first occurrence of `c`. */
  function RemoveFirst(s: seq<string>, c: string): (r: seq<string>)
    requires c in s
    ensures |r| == |s| - 1
    ensures multiset(r) == multiset(s) - multiset{c}
  {
    if s[0] == c then
      assert s == [s[0]] + s[1..];
      s[1..]
    else
      assert s == [s[0]] + s[1..];
      [s[0]] + RemoveFirst(s[1..], c)
  }

  /** One press of a modifier button: remove the code when selected,
      append it otherwise. */
  function Toggled(s: seq<string>, c: string): seq<string>
  {
    if c in s then RemoveFirst(s, c) else s + [c]
  }

  /** The list with every occurrence of `c` dropped. */
  function Without(s: seq<string>, c: string): seq<string>
  {
    if s == [] then []
    else (if s[0] == c then [] else [s[0]]) + Without(s[1..], c)
  }

  /** A press keeps a selection free of duplicates, and flips exactly the
      pressed code in or out. */
  lemma ToggledFlipsOne(s: seq<string>, c: string)
    requires NoDup(s)
    ensures NoDup(Toggled(s, c))
    ensures forall x :: x in Toggled(s, c) <==> (if x == c then c !in s else x in s)
  {
    var t := Toggled(s, c);
    if c !in s {
      assert multiset(t) == multiset(s) + multiset{c};
    }
    forall x
      ensures x in t <==> (if x == c then c !in s else x in s)
    {
      assert x in t <==> multiset(t)[x] > 0;
      assert x in s <==> multiset(s)[x] > 0;
    }
  }

  /** The other codes stay selected, in the same relative order. */
  lemma {:induction false} OthersKeepOrder(s: seq<string>, c: string)
    ensures Without(Toggled(s, c), c) == Without(s, c)
  {
    if c in s {
      RemoveFirstThenWithout(s, c);
    } else {
      WithoutAppend(s, [c], c);
      assert Without([c], c) == [];
    }
  }

  lemma {:induction false} RemoveFirstThenWithout(s: seq<string>, c: string)
    requires c in s
    ensures Without(RemoveFirst(s, c), c) == Without(s, c)
  {
    if s[0] != c {
      RemoveFirstThenWithout(s[1..], c);
    } else if c in s[1..] {
      WithoutAbsentPrefix(s[1..], c);
    } else {
      WithoutAbsentPrefix(s[1..], c);
    }
  }

  lemma {:induction false} WithoutAbsentPrefix(s: seq<string>, c: string)
    ensures Without([c] + s, c) == Without(s, c)
  {
    assert ([c] + s)[1..] == s;
  }

  lemma {:induction false} WithoutAppend(a: seq<string>, b: seq<string>, c: string)
    ensures Without(a + b, c) == Without(a, c) + Without(b, c)
  {
    if a != [] {
      assert (a + b)[1..] == a[1..] + b;
      WithoutAppend(a[1..], b, c);
    } else {
      assert a + b == b;
    }
  }

  lemma {:induction false} RemoveFirstOfAppended(s: seq<string>, c: string)
    requires c !in s
    ensures RemoveFirst(s + [c], c) == s
  {
    if s != [] {
      assert (s + [c])[1..] == s[1..] + [c];
      RemoveFirstOfAppended(s[1..], c);
    }
  }

  /** Pressing an unselected code twice gives back the same list; pressing
      a selected one twice moves it to the end. */
  lemma ToggleTwice(s: seq<string>, c: string)
    ensures c !in s ==> Toggled(Toggled(s, c), c) == s
    ensures c in s && NoDup(s) ==> Toggled(Toggled(s, c), c) == RemoveFirst(s, c) + [c]
  {
    if c !in s {
      RemoveFirstOfAppended(s, c);
    } else if NoDup(s) {
      var r := RemoveFirst(s, c);
      assert multiset(r)[c] == 0;
    }
  }

  /** The selection after a sequence of presses, starting from none. */
  function ToggleAll(presses: seq<string>): seq<string>
  {
    if presses == [] then []
    else Toggled(ToggleAll(presses[..|presses| - 1]), presses[|presses| - 1])
  }

  /** Starting from no selection, any sequence of presses leaves each code
      at most once, selected exactly when it was pressed an odd number of
      times. */
  lemma {:induction false} ToggleAllParity(presses: seq<string>)
    ensures NoDup(ToggleAll(presses))
    ensures forall x :: x in ToggleAll(presses) <==> multiset(presses)[x] % 2 == 1
  {
    if presses != [] {
      var init, c := presses[..|presses| - 1], presses[|presses| - 1];
      ToggleAllParity(init);
      assert presses == init + [c];
      ToggleStepParity(ToggleAll(init), init, c);
    }
  }

  lemma ToggleStepParity(before: seq<string>, init: seq<string>, c: string)
    requires NoDup(before)
    requires forall x :: x in before <==> multiset(init)[x] % 2 == 1
    ensures NoDup(Toggled(before, c))
    ensures forall x :: x in Toggled(before, c) <==> multiset(init + [c])[x] % 2 == 1
  {
    ToggledFlipsOne(before, c);
    forall x
      ensures x in Toggled(before, c) <==> multiset(init + [c])[x] % 2 == 1
    {
      assert multiset(init + [c]) == multiset(init) + multiset{c};
      if x == c {
        assert multiset(init + [c])[x] == multiset(init)[x] + 1;
      } else {
        assert multiset(init + [c])[x] == multiset(init)[x];
      }
    }
  }

  // ------------------------------------------------------------ conversation

  /** The conversation state: which answer the bot waits for. */
  datatype Step = Idle | ChooseProduct | EnterQuantity | ChooseMaterial | ChooseModifiers

  class CalcSession {
    var step: Step
    var product: Option<string>
    var quantity: Option<int>
    var material: Option<string>
    var modifiers: seq<string>

    /** Each step has the answers of the steps before it, and the selection
        has no duplicates. */
    ghost predicate Valid()
      reads this
    {
      NoDup(modifiers)
      && (step == EnterQuantity ==> product.Some?)
      && (step == ChooseMaterial ==> product.Some? && quantity.Some?)
      && (step == ChooseModifiers ==> product.Some? && quantity.Some? && material.Some?)
    }

    constructor ()
      ensures Valid()
      ensures step == Idle && product == None && quantity == None && material == None
      ensures modifiers == []
    {
      step := Idle;
      product := None;
      quantity := None;
      material := None;
      modifiers := [];
    }

    /** `/calc`: wait for a product; earlier answers are kept. */
    method StartCalc()
      requires Valid()
      modifies this
      ensures Valid()
      ensures step == ChooseProduct
      ensures product == old(product) && quantity == old(quantity)
      ensures material == old(material) && modifiers == old(modifiers)
    {
      step := ChooseProduct;
    }

    /** A product button: store its code and wait for the quantity. */
    method SelectProduct(code: string)
      requires Valid() && step == ChooseProduct
      modifies this
      ensures Valid()
      ensures step == EnterQuantity && product == Some(code)
      ensures quantity == old(quantity) && material == old(material)
      ensures modifiers == old(modifiers)
    {
      product := Some(code);
      step := EnterQuantity;
    }

    /** A quantity message: a text of digits is stored and the material is
        asked next; any other text is refused and nothing changes. */
    method EnterQuantityText(text: string) returns (accepted: bool)
      requires Valid() && step == EnterQuantity
      modifies this
      ensures Valid()
      ensures accepted <==> IsDigits(text)
      ensures accepted ==> step == ChooseMaterial && quantity == ParseQuantity(text)
      ensures !accepted ==> step == old(step) && quantity == old(quantity)
      ensures product == old(product) && material == old(material)
      ensures modifiers == old(modifiers)
    {
      if !IsDigits(text) {
        return false;
      }
      quantity := Some(DecimalValue(text));
      step := ChooseMaterial;
      accepted := true;
    }

    /** A material button: store its code, start an empty selection and wait
        for modifier buttons. */
    method SelectMaterial(code: string)
      requires Valid() && step == ChooseMaterial
      modifies this
      ensures Valid()
      ensures step == ChooseModifiers && material == Some(code) && modifiers == []
      ensures product == old(product) && quantity == old(quantity)
    {
      material := Some(code);
      modifiers := [];
      step := ChooseModifiers;
    }

    /** A modifier button or "done". A modifier code is toggled in the
        selection and no price is computed. "done" computes the price from
        the stored answers and the selection as it is; when the calculation
        succeeds the conversation is cleared, when it fails nothing
        changes. */
    method ModifierCallback(t: Tables, data: string)
      returns (outcome: Option<Result<Quote, PriceError>>)
      requires Valid() && step == ChooseModifiers
      modifies this
      ensures Valid()
      ensures data != "done" ==>
        outcome == None && modifiers == Toggled(old(modifiers), data)
        && step == old(step) && product == old(product)
        && quantity == old(quantity) && material == old(material)
      ensures data == "done" ==>
        outcome == Some(Calculate(t, old(product).value, old(quantity).value,
                                  old(material).value, old(modifiers)))
      ensures data == "done" && outcome.value.Success? ==>
        step == Idle && product == None && quantity == None && material == None
        && modifiers == []
      ensures data == "done" && outcome.value.Failure? ==>
        step == old(step) && product == old(product) && quantity == old(quantity)
        && material == old(material) && modifiers == old(modifiers)
    {
      if data == "done" {
        var r := CalculatePrice(t, product.value, quantity.value, material.value, modifiers);
        outcome := Some(r);
        if r.Success? {
          step := Idle;
          product := None;
          quantity := None;
          material := None;
          modifiers := [];
        }
        return;
      }
      ToggledFlipsOne(modifiers, data);
      if data in modifiers {
        modifiers := RemoveFirst(modifiers, data);
      } else {
        modifiers := modifiers + [data];
      }
      outcome := None;
    }
  }
}
