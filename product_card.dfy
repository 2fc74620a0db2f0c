/** The product card: its defaults and its plus/minus buttons. */
module ProductCard {
  import opened Common
  import opened Entities
  import opened LocalCart

  /** The `quantity = 0` default parameter: only a missing quantity is
      replaced. */
  function CardQuantity(quantity: Option<int>): (r: int)
    ensures quantity.None? ==> r == 0
    ensures quantity.Some? ==> r == quantity.value
  {
    quantity.GetOr(0)
  }

  /** `onPlus && onPlus(quantity + 1)`: the value handed to the callback,
      or nothing when there is no callback. */
  function HandlePlus(quantity: int, hasOnPlus: bool): (r: Option<int>)
    ensures r.Some? <==> hasOnPlus
    ensures r.Some? ==> r.value == quantity + 1
  {
    if hasOnPlus then Some(Increment(quantity)) else None
  }

  /** `onMinus && onMinus(Math.max(0, quantity - 1))` */
  function HandleMinus(quantity: int, hasOnMinus: bool): (r: Option<int>)
    ensures r.Some? <==> hasOnMinus
    ensures r.Some? ==> r.value >= 0
    ensures r.Some? && quantity > 0 ==> r.value == quantity - 1
    ensures r.Some? && quantity <= 0 ==> r.value == 0
  {
    if hasOnMinus then Some(Decrement(quantity)) else None
  }

  /** `defaultVariantId || defaultVariantID || variants?.[0]?.id` */
  function CardVariantId(p: Product): (r: Option<string>)
    ensures Truthy(p.defaultVariantId) ==> r == p.defaultVariantId
    ensures !Truthy(p.defaultVariantId) && Truthy(p.defaultVariantID) ==> r == p.defaultVariantID
    ensures !Truthy(p.defaultVariantId) && !Truthy(p.defaultVariantID) ==>
              (r.Some? <==> FirstVariant(p).Some?) && (r.Some? ==> r.value == FirstVariant(p).value.id)
  {
    if Truthy(p.defaultVariantId) then p.defaultVariantId
    else if Truthy(p.defaultVariantID) then p.defaultVariantID
    else match FirstVariant(p)
      case Some(v) => Some(v.id)
      case None => None
  }

  /** `variants?.[0]?.price || 0` */
  function CardPrice(p: Product): (r: int)
    ensures FirstVariant(p).None? ==> r == 0
    ensures FirstVariant(p).Some? && FirstVariant(p).value.price.None? ==> r == 0
    ensures FirstVariant(p).Some? && FirstVariant(p).value.price.Some? ==> r == FirstVariant(p).value.price.value
  {
    match FirstVariant(p)
    case Some(v) => OrZero(v.price)
    case None => 0
  }

  /** `variants?.[0]?.name || ''` */
  function CardVariantName(p: Product): (r: string)
    ensures FirstVariant(p).None? ==> r == ""
    ensures FirstVariant(p).Some? && Truthy(FirstVariant(p).value.name) ==> r == FirstVariant(p).value.name.value
    ensures FirstVariant(p).Some? && !Truthy(FirstVariant(p).value.name) ==> r == ""
  {
    match FirstVariant(p)
    case Some(v) => OrElse(v.name, "")
    case None => ""
  }

  /** `tags.color || '#000000'`; reading `tags.color` throws when the
      product has no tags. */
  function BorderColor(p: Product): (r: string)
    requires p.tags.Some?
    ensures Truthy(p.tags.value.color) ==> r == p.tags.value.color.value
    ensures !Truthy(p.tags.value.color) ==> r == "#000000"
  {
    OrElse(p.tags.value.color, "#000000")
  }
}
