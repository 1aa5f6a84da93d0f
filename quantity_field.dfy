/**
 * packages/client/src/components/QuantityField.tsx: a counter with add and
 * remove buttons and a text field. Every change is reported to the
 * `quantityChanged` callback before it is stored.
 */
module Quantity {
  import opened Wrappers

  /** The add button's new value: one more, but never above the maximum. */
  function AddStep(quantity: int, maxQuantity: int): (r: int)
    ensures r <= maxQuantity
    ensures quantity < maxQuantity ==> r == quantity + 1
    ensures quantity >= maxQuantity ==> r == maxQuantity
  {
    if maxQuantity < quantity + 1 then maxQuantity else quantity + 1
  }

  /** The remove button's new value: one less, but never below 0. */
  function RemoveStep(quantity: int): (r: int)
    ensures r >= 0
    ensures quantity > 0 ==> r == quantity - 1
    ensures quantity <= 0 ==> r == 0
  {
    if 0 > quantity - 1 then 0 else quantity - 1
  }

  /** Button steps keep a quantity within [0, max]. */
  lemma StepsStayInRange(quantity: int, maxQuantity: int)
    requires 0 <= quantity <= maxQuantity
    ensures 0 <= AddStep(quantity, maxQuantity) <= maxQuantity
    ensures 0 <= RemoveStep(quantity) <= maxQuantity
  {
  }

  /** A typed quantity above the maximum is lowered to the maximum by the add button. */
  lemma AddLowersTypedExcess(quantity: int, maxQuantity: int)
    requires quantity > maxQuantity
    ensures AddStep(quantity, maxQuantity) == maxQuantity
  {
  }

  /** What `parseFloat` made of the typed text, already cut to its integer part. */
  datatype Parsed = NotANumber | Infinite | Finite(integerPart: int)

  /** `~~x`: JavaScript's ToInt32, which wraps the integer part into the signed 32-bit range. */
  function ToInt32(x: int): (r: int)
    ensures -0x8000_0000 <= r < 0x8000_0000
    ensures (r - x) % 0x1_0000_0000 == 0
    ensures -0x8000_0000 <= x < 0x8000_0000 ==> r == x
  {
    var m := x % 0x1_0000_0000;
    if m >= 0x8000_0000 then m - 0x1_0000_0000 else m
  }

  /** The text field's value: NaN becomes 0, anything else its integer part as a 32-bit integer. */
  function TypedQuantity(parsed: Parsed): (r: int)
    ensures -0x8000_0000 <= r < 0x8000_0000
    ensures parsed.NotANumber? || parsed.Infinite? ==> r == 0
  {
    match parsed
    case NotANumber => 0
    case Infinite => 0
    case Finite(n) => ToInt32(n)
  }

  class QuantityField {
    var quantity: int
    const maxQuantity: int
    const enabled: bool
    /** Every value passed to `quantityChanged`, in order. */
    var reported: seq<int>

    constructor (maxQuantity: int, enabled: bool)
      ensures quantity == 0 && this.maxQuantity == maxQuantity && this.enabled == enabled && reported == []
    {
      quantity := 0;
      this.maxQuantity, this.enabled := maxQuantity, enabled;
      reported := [];
    }

    /** The add button is enabled unless the quantity is at the maximum. */
    function AddEnabled(): (r: bool)
      reads this
      ensures r <==> enabled && quantity != maxQuantity
    {
      if quantity == maxQuantity then false else enabled
    }

    /** The remove button is enabled unless the quantity is 0. */
    function RemoveEnabled(): (r: bool)
      reads this
      ensures r <==> enabled && quantity != 0
    {
      if quantity == 0 then false else enabled
    }

    /** `updateQuantity`: report the value, then store that same value. */
    method UpdateQuantity(desiredQuantity: int)
      modifies this`quantity, this`reported
      ensures quantity == desiredQuantity
      ensures reported == old(reported) + [quantity]
    {
      reported := reported + [desiredQuantity];
      quantity := desiredQuantity;
    }

    method AddClicked()
      modifies this`quantity, this`reported
      ensures quantity == AddStep(old(quantity), maxQuantity)
      ensures reported == old(reported) + [quantity]
      ensures 0 <= old(quantity) <= maxQuantity ==> 0 <= quantity <= maxQuantity
    {
      UpdateQuantity(if maxQuantity < quantity + 1 then maxQuantity else quantity + 1);
    }

    method RemoveClicked()
      modifies this`quantity, this`reported
      ensures quantity == RemoveStep(old(quantity))
      ensures reported == old(reported) + [quantity]
      ensures 0 <= old(quantity) <= maxQuantity ==> 0 <= quantity <= maxQuantity
    {
      UpdateQuantity(if 0 > quantity - 1 then 0 else quantity - 1);
    }

    /** The text field's `onChange`: the typed value is stored as is, without clamping. */
    method Typed(parsed: Parsed)
      modifies this`quantity, this`reported
      ensures quantity == TypedQuantity(parsed)
      ensures reported == old(reported) + [quantity]
    {
      UpdateQuantity(TypedQuantity(parsed));
    }
  }
}
