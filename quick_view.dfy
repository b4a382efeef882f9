/** The quick-view modal of a product card: the size list parsed from `product.size`,
    the quantity stepper, the stock test and the "add to cart" button. */
module QuickView {
  import opened Wrappers
  import opened JsStrings
  import opened CartCalls
  import DetailCard

  const DefaultSize := "XS"

  /** `parts.filter(s => s.trim())`: keeps the pieces that are not blank, as they are. */
  function NonBlank(parts: seq<string>): (r: seq<string>)
    ensures forall i | 0 <= i < |r| :: !Blank(r[i]) && r[i] in parts
    ensures forall x | x in parts && !Blank(x) :: x in r
  {
    if parts == [] then []
    else (if Blank(parts[0]) then [] else [parts[0]]) + NonBlank(parts[1..])
  }

  /** `availableSizes`. A `size` that is truthy but not a string would make `split` throw;
      the field is taken to be a string or absent. */
  function AvailableSizes(size: Option<string>): seq<string> {
    if size.None? || size.value == "" then [] else NonBlank(SplitSizeRuns(size.value))
  }

  /** The minus button: `Math.max(1, quantity - 1)`. */
  function Decrement(q: int): (r: int)
    ensures r >= 1
    ensures q >= 2 ==> r == q - 1
    ensures q <= 2 ==> r == 1
  {
    if q - 1 > 1 then q - 1 else 1
  }

  /** The plus button. */
  function Increment(q: int): (r: int)
    ensures r == q + 1
  {
    q + 1
  }

  predicate IsInStock(stock: int) {
    stock > 0
  }

  /** The modal's state, `open` for whether it is shown, and the calls made into the
      cart. */
  datatype View = View(selectedSize: string, quantity: int, open: bool, calls: seq<CartCall>)

  const Initial := View(DefaultSize, 1, true, [])

  /** Clicking a size button selects that size (there is no toggle here). */
  function Select(v: View, size: string): View {
    v.(selectedSize := size)
  }

  /** A click on "add to cart": the button is disabled when out of stock; otherwise one
      item of the selected size is added, whatever the stepper shows, and the modal
      closes. */
  function AddToCart(v: View, stock: int): View {
    if !IsInStock(stock) then v
    else v.(calls := v.calls + [CartCall(v.selectedSize, 1)], open := false)
  }

  class QuickViewModal {
    var selectedSize: string
    var quantity: int
    var open: bool
    var calls: seq<CartCall>

    function Current(): View
      reads this
    {
      View(selectedSize, quantity, open, calls)
    }

    constructor ()
      ensures Current() == Initial
    {
      selectedSize := DefaultSize;
      quantity := 1;
      open := true;
      calls := [];
    }

    method ClickSize(size: string)
      modifies this
      ensures Current() == Select(old(Current()), size)
    {
      selectedSize := size;
    }

    method Minus()
      modifies this
      ensures Current() == old(Current()).(quantity := Decrement(old(quantity)))
    {
      quantity := if 1 > quantity - 1 then 1 else quantity - 1;
    }

    method Plus()
      modifies this
      ensures Current() == old(Current()).(quantity := Increment(old(quantity)))
    {
      quantity := quantity + 1;
    }

    method ClickAddToCart(stock: int)
      modifies this
      ensures Current() == AddToCart(old(Current()), stock)
    {
      if stock <= 0 {
        return;
      }
      calls := calls + [CartCall(selectedSize, 1)];
      open := false;
    }
  }

  // ------------------------------------------------------------ lemmas

  /** Pieces with no separator are never blank unless empty, so filtering them for a
      non-blank trim drops exactly the empty ones. */
  lemma {:induction false} NonBlankPieces(parts: seq<string>)
    requires forall i | 0 <= i < |parts| :: NoSizeSep(parts[i])
    ensures NonBlank(parts) == NonEmpty(parts)
    decreases |parts|
  {
    if parts != [] {
      assert parts[0] != "" ==> !IsSpace(parts[0][0]);
      NonBlankPieces(parts[1..]);
    }
  }

  /** The modal lists the same sizes as the product page does for a string field. */
  lemma SameSizesAsDetailPage(size: string)
    ensures AvailableSizes(Some(size)) == DetailCard.NormalizeSizes(DetailCard.Str(size))
  {
    NonBlankPieces(SplitSizeRuns(size));
    DetailCard.StringSizes(size);
  }

  /** So its sizes are the non-empty separator-free pieces, and nothing else of the
      field is lost. */
  lemma AvailableSizesPieces(size: string)
    ensures var r := AvailableSizes(Some(size));
      && (forall i | 0 <= i < |r| :: r[i] != "" && NoSizeSep(r[i]))
      && Concat(r) == StripSizeSeps(size)
  {
    SameSizesAsDetailPage(size);
    DetailCard.StringPieces(size);
  }

  /** Sizes separated by runs of commas or white space come back one by one, in order. */
  lemma AvailableSizesOfSizes(parts: seq<string>, seps: seq<string>)
    requires |parts| == |seps| + 1
    requires forall i | 0 <= i < |parts| :: parts[i] != "" && NoSizeSep(parts[i])
    requires forall i | 0 <= i < |seps| :: SepRun(seps[i])
    ensures AvailableSizes(Some(Interleave(parts, seps))) == parts
  {
    SameSizesAsDetailPage(Interleave(parts, seps));
    DetailCard.StringOfSizes(parts, seps);
  }

  /** The stepper never shows less than 1; plus then minus gives back any value of at
      least 1. */
  lemma StepperLaws(q: int)
    ensures Decrement(q) >= 1 && Increment(q) == q + 1
    ensures q >= 1 ==> Decrement(Increment(q)) == q
    ensures Decrement(Decrement(q)) >= 1
  {
  }

  /** From any reachable stepper value, any sequence of clicks keeps it at least 1. */
  lemma {:induction false} StepperStaysPositive(q: int, clicks: seq<bool>)
    requires q >= 1
    ensures Steps(q, clicks) >= 1
    decreases |clicks|
  {
    if clicks != [] {
      StepperStaysPositive(if clicks[0] then Increment(q) else Decrement(q), clicks[1..]);
    }
  }

  /** The stepper after a sequence of clicks, `true` for plus. */
  function Steps(q: int, clicks: seq<bool>): int
    decreases |clicks|
  {
    if clicks == [] then q
    else Steps(if clicks[0] then Increment(q) else Decrement(q), clicks[1..])
  }

  /** Adding to the cart records one call of quantity 1 and the selected size exactly
      when the product is in stock, whatever the stepper value; out of stock nothing
      changes. */
  lemma AddToCartLaws(v: View, stock: int)
    ensures IsInStock(stock) <==> stock > 0
    ensures IsInStock(stock) ==>
      AddToCart(v, stock).calls == v.calls + [CartCall(v.selectedSize, 1)] && !AddToCart(v, stock).open
    ensures !IsInStock(stock) ==> AddToCart(v, stock) == v
  {
  }

  /** Without a size click, the size added is the default `XS`. */
  lemma DefaultSizeAdded(stock: int, clicks: seq<bool>)
    requires stock > 0
    ensures AddToCart(Initial.(quantity := Steps(1, clicks)), stock).calls == [CartCall(DefaultSize, 1)]
  {
  }
}
