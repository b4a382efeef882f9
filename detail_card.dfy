/** The product detail page: `normalizeSizes`, which turns the product's `size` field,
    whatever its JavaScript type, into the list of size buttons; the size toggle; and the
    guards of "add to cart" and "buy now". The cart itself lives in a context that is
    not part of this model: the page's calls into it are recorded instead. */
module DetailCard {
  import opened JsStrings
  import opened CartCalls

  /** The JavaScript values a product's `size` field can hold. Numbers are integers
      here; `NaN` is left out. */
  datatype JsValue =
    | Undefined
    | Null
    | Bool(b: bool)
    | Num(n: int)
    | Str(s: string)
    | Arr(items: seq<JsValue>)
    | Obj

  /** JavaScript truthiness: arrays and objects are truthy even when empty. */
  predicate Truthy(v: JsValue) {
    match v
    case Undefined => false
    case Null => false
    case Bool(b) => b
    case Num(n) => n != 0
    case Str(s) => s != ""
    case Arr(_) => true
    case Obj => true
  }

  /** `map(s => typeof s === 'string' ? s : '')`, before the trim. */
  function StringsOf(items: seq<JsValue>): (r: seq<string>)
    ensures |r| == |items|
    ensures forall i | 0 <= i < |items| :: r[i] == (if items[i].Str? then items[i].s else "")
  {
    if items == [] then [] else [if items[0].Str? then items[0].s else ""] + StringsOf(items[1..])
  }

  /** `normalizeSizes(sizeField)`. */
  function NormalizeSizes(v: JsValue): (r: seq<string>)
    ensures !Truthy(v) || !(v.Arr? || v.Str?) ==> r == []
  {
    if !Truthy(v) then []
    else if v.Arr? then NonEmpty(TrimAll(StringsOf(v.items)))
    else if v.Str? then NonEmpty(TrimAll(SplitSizeRuns(v.s)))
    else []
  }

  /** An output entry: not empty, and left alone by `trim`. */
  predicate Clean(x: string) {
    x != "" && Trim(x) == x
  }

  /** The array a list of sizes is when passed back in. */
  function Strs(xs: seq<string>): (r: seq<JsValue>)
    ensures |r| == |xs|
    ensures forall i | 0 <= i < |xs| :: r[i] == Str(xs[i])
  {
    seq(|xs|, i requires 0 <= i < |xs| => Str(xs[i]))
  }

  /** The selection after clicking the button of `size`. */
  function Toggle(selected: string, size: string): (r: string)
    ensures selected == size ==> r == ""
    ensures selected != size ==> r == size
  {
    if selected == size then "" else size
  }

  /** The page state the handlers touch, and the calls made into the cart. */
  datatype View = View(selectedSize: string, quantity: int, calls: seq<CartCall>)

  const Initial := View("", 1, [])

  /** Clicking a size button. */
  function Select(v: View, size: string): View {
    v.(selectedSize := Toggle(v.selectedSize, size))
  }

  /** `!selectedSize || selectedSize.trim() === ''`. */
  predicate NoSize(v: View) {
    Blank(v.selectedSize)
  }

  /** `handleAddToCart`: refuses without a size; otherwise adds one item of the
      selected size and clears the selection. */
  function AddToCart(v: View): View {
    if NoSize(v) then v
    else v.(calls := v.calls + [CartCall(v.selectedSize, 1)], selectedSize := "")
  }

  /** `handleBuyNow`: refuses without a size; otherwise adds the chosen quantity and
      keeps the selection (the page moves to the cart). */
  function BuyNow(v: View): View {
    if NoSize(v) then v
    else v.(calls := v.calls + [CartCall(v.selectedSize, v.quantity)])
  }

  class DetailCardPage {
    var selectedSize: string
    var quantity: int
    var calls: seq<CartCall>

    function Current(): View
      reads this
    {
      View(selectedSize, quantity, calls)
    }

    constructor ()
      ensures Current() == Initial
    {
      selectedSize := "";
      quantity := 1;
      calls := [];
    }

    method ClickSize(size: string)
      modifies this
      ensures Current() == Select(old(Current()), size)
    {
      selectedSize := if selectedSize == size then "" else size;
    }

    /** Returns whether the item was added. */
    method AddToCartClick() returns (added: bool)
      modifies this
      ensures Current() == AddToCart(old(Current()))
      ensures added <==> !NoSize(old(Current()))
    {
      if selectedSize == "" || Trim(selectedSize) == "" {
        return false;
      }
      calls := calls + [CartCall(selectedSize, 1)];
      selectedSize := "";
      added := true;
    }

    /** Returns whether the page moves on to the cart. */
    method BuyNowClick() returns (navigated: bool)
      modifies this
      ensures Current() == BuyNow(old(Current()))
      ensures navigated <==> !NoSize(old(Current()))
    {
      if selectedSize == "" || Trim(selectedSize) == "" {
        return false;
      }
      calls := calls + [CartCall(selectedSize, quantity)];
      navigated := true;
    }
  }

  // ------------------------------------------------------------ lemmas

  lemma {:induction false} StringsOfAppend(a: seq<JsValue>, b: seq<JsValue>)
    ensures StringsOf(a + b) == StringsOf(a) + StringsOf(b)
  {
    var l := StringsOf(a + b);
    var r := StringsOf(a) + StringsOf(b);
    forall i | 0 <= i < |l|
      ensures l[i] == r[i]
    {
      if i < |a| {
        assert (a + b)[i] == a[i];
      } else {
        assert (a + b)[i] == b[i - |a|];
      }
    }
  }

  lemma {:induction false} TrimAllAppend(a: seq<string>, b: seq<string>)
    ensures TrimAll(a + b) == TrimAll(a) + TrimAll(b)
    decreases |a|
  {
    if a == [] {
      assert a + b == b;
    } else {
      assert (a + b)[0] == a[0] && (a + b)[1..] == a[1..] + b;
      TrimAllAppend(a[1..], b);
    }
  }

  lemma {:induction false} NonEmptyAppend(a: seq<string>, b: seq<string>)
    ensures NonEmpty(a + b) == NonEmpty(a) + NonEmpty(b)
    decreases |a|
  {
    if a == [] {
      assert a + b == b;
    } else {
      assert (a + b)[0] == a[0] && (a + b)[1..] == a[1..] + b;
      NonEmptyAppend(a[1..], b);
    }
  }

  /** For an array the sizes keep the input order: normalising a concatenation is
      concatenating the normalised halves. */
  lemma ArrayInOrder(a: seq<JsValue>, b: seq<JsValue>)
    ensures NormalizeSizes(Arr(a + b)) == NormalizeSizes(Arr(a)) + NormalizeSizes(Arr(b))
  {
    StringsOfAppend(a, b);
    TrimAllAppend(StringsOf(a), StringsOf(b));
    NonEmptyAppend(TrimAll(StringsOf(a)), TrimAll(StringsOf(b)));
  }

  /** One array element: a string contributes its trimmed value unless that is empty;
      anything else contributes nothing. */
  lemma ArrayElement(x: JsValue)
    ensures NormalizeSizes(Arr([x])) == if x.Str? && Trim(x.s) != "" then [Trim(x.s)] else []
  {
    assert StringsOf([x])[1..] == [];
  }

  /** Element `i` of an array is a string that trims to `x`. */
  predicate TrimsTo(items: seq<JsValue>, i: int, x: string) {
    0 <= i < |items| && items[i].Str? && Trim(items[i].s) == x
  }

  /** For an array, a size is listed exactly when some string element trims to it and it
      is not empty. */
  lemma ArrayMembers(items: seq<JsValue>, x: string)
    ensures x in NormalizeSizes(Arr(items)) <==> x != "" && exists i :: TrimsTo(items, i, x)
  {
    var strs := StringsOf(items);
    assert NormalizeSizes(Arr(items)) == NonEmpty(TrimAll(strs));
    TrimmedMembers(strs, x);
    if x != "" && exists i | 0 <= i < |strs| :: Trim(strs[i]) == x {
      var i :| 0 <= i < |strs| && Trim(strs[i]) == x;
      TrimsToText(items, i, x);
    }
    if x != "" && exists i :: TrimsTo(items, i, x) {
      var i :| TrimsTo(items, i, x);
      TrimsToText(items, i, x);
    }
  }

  lemma TrimsToText(items: seq<JsValue>, i: int, x: string)
    requires x != ""
    ensures TrimsTo(items, i, x) <==> 0 <= i < |items| && Trim(StringsOf(items)[i]) == x
  {
  }

  lemma TrimmedMembers(parts: seq<string>, x: string)
    ensures x in NonEmpty(TrimAll(parts)) <==> x != "" && exists i | 0 <= i < |parts| :: Trim(parts[i]) == x
  {
    var t := TrimAll(parts);
    if x != "" && exists i | 0 <= i < |parts| :: Trim(parts[i]) == x {
      var i :| 0 <= i < |parts| && Trim(parts[i]) == x;
      assert t[i] == x;
    }
  }

  lemma {:induction false} ConcatNonEmpty(parts: seq<string>)
    ensures Concat(NonEmpty(parts)) == Concat(parts)
    decreases |parts|
  {
    if parts != [] {
      ConcatNonEmpty(parts[1..]);
      ConcatAppend(if parts[0] == "" then [] else [parts[0]], NonEmpty(parts[1..]));
    }
  }

  lemma {:induction false} ConcatAppend(a: seq<string>, b: seq<string>)
    ensures Concat(a + b) == Concat(a) + Concat(b)
    decreases |a|
  {
    if a == [] {
      assert a + b == b;
    } else {
      assert (a + b)[0] == a[0] && (a + b)[1..] == a[1..] + b;
      ConcatAppend(a[1..], b);
    }
  }

  /** Pieces with no separator in them are left alone by `trim`. */
  lemma TrimAllPieces(parts: seq<string>)
    requires forall i | 0 <= i < |parts| :: NoSizeSep(parts[i])
    ensures TrimAll(parts) == parts
  {
    forall i | 0 <= i < |parts|
      ensures TrimAll(parts)[i] == parts[i]
    {
      TrimNoSpace(parts[i]);
    }
  }

  /** For a string, every size is a non-empty piece with no comma and no white space in
      it, and together the sizes hold every other character of the input, in order. */
  lemma StringPieces(s: string)
    ensures var r := NormalizeSizes(Str(s));
      && (forall i | 0 <= i < |r| :: r[i] != "" && NoSizeSep(r[i]))
      && Concat(r) == StripSizeSeps(s)
  {
    var parts := SplitSizeRuns(s);
    StringSizes(s);
    SplitSizeRunsCover(s);
    ConcatNonEmpty(parts);
    NonEmptyPieces(parts);
  }

  /** And the cuts fall at the separator runs: sizes written with commas or white space of
      any length between them come back one by one, in order. */
  lemma StringOfSizes(parts: seq<string>, seps: seq<string>)
    requires |parts| == |seps| + 1
    requires forall i | 0 <= i < |parts| :: parts[i] != "" && NoSizeSep(parts[i])
    requires forall i | 0 <= i < |seps| :: SepRun(seps[i])
    ensures NormalizeSizes(Str(Interleave(parts, seps))) == parts
  {
    SplitSizeRunsInterleave(parts, seps);
    StringSizes(Interleave(parts, seps));
    NonEmptyKeeps(parts);
  }

  /** A string's sizes are the non-empty pieces of its split, untouched by the trim. */
  lemma StringSizes(s: string)
    ensures NormalizeSizes(Str(s)) == NonEmpty(SplitSizeRuns(s))
  {
    var parts := SplitSizeRuns(s);
    TrimAllPieces(parts);
    if s == "" {
      assert parts == [""];
    }
  }

  lemma NonEmptyPieces(parts: seq<string>)
    requires forall i | 0 <= i < |parts| :: NoSizeSep(parts[i])
    ensures forall i | 0 <= i < |NonEmpty(parts)| :: NonEmpty(parts)[i] != "" && NoSizeSep(NonEmpty(parts)[i])
  {
    var r := NonEmpty(parts);
    forall i | 0 <= i < |r|
      ensures NoSizeSep(r[i])
    {
      assert r[i] in parts;
    }
  }

  /** Every output entry is clean, whatever the input. */
  lemma NormalizedClean(v: JsValue)
    ensures forall i | 0 <= i < |NormalizeSizes(v)| :: Clean(NormalizeSizes(v)[i])
  {
    if Truthy(v) && v.Arr? {
      TrimmedClean(StringsOf(v.items));
    } else if Truthy(v) && v.Str? {
      var r := NormalizeSizes(v);
      StringPieces(v.s);
      forall i | 0 <= i < |r|
        ensures Clean(r[i])
      {
        TrimNoSpace(r[i]);
      }
    }
  }

  lemma TrimmedClean(parts: seq<string>)
    ensures forall i | 0 <= i < |NonEmpty(TrimAll(parts))| :: Clean(NonEmpty(TrimAll(parts))[i])
  {
    var t := TrimAll(parts);
    var r := NonEmpty(t);
    forall i | 0 <= i < |r|
      ensures Clean(r[i])
    {
      assert r[i] in t;
      var k :| 0 <= k < |t| && t[k] == r[i];
      TrimIdempotent(parts[k]);
    }
  }

  lemma {:induction false} NonEmptyKeeps(xs: seq<string>)
    requires forall i | 0 <= i < |xs| :: xs[i] != ""
    ensures NonEmpty(xs) == xs
    decreases |xs|
  {
    if xs != [] {
      NonEmptyKeeps(xs[1..]);
      assert [xs[0]] + xs[1..] == xs;
    }
  }

  /** A list of clean sizes passed back in as an array comes out unchanged. */
  lemma CleanFixed(xs: seq<string>)
    requires forall i | 0 <= i < |xs| :: Clean(xs[i])
    ensures NormalizeSizes(Arr(Strs(xs))) == xs
  {
    StringsOfStrs(xs);
    TrimAllClean(xs);
    NonEmptyKeeps(xs);
  }

  lemma StringsOfStrs(xs: seq<string>)
    ensures StringsOf(Strs(xs)) == xs
  {
    var r := StringsOf(Strs(xs));
    assert |r| == |xs|;
    forall i | 0 <= i < |xs|
      ensures r[i] == xs[i]
    {
      assert Strs(xs)[i] == Str(xs[i]);
    }
  }

  lemma TrimAllClean(xs: seq<string>)
    requires forall i | 0 <= i < |xs| :: Clean(xs[i])
    ensures TrimAll(xs) == xs
  {
    var r := TrimAll(xs);
    forall i | 0 <= i < |xs|
      ensures r[i] == xs[i]
    {
      assert Clean(xs[i]);
    }
  }

  /** `normalizeSizes` is idempotent on its own output. */
  lemma NormalizeIdempotent(v: JsValue)
    ensures NormalizeSizes(Arr(Strs(NormalizeSizes(v)))) == NormalizeSizes(v)
  {
    NormalizedClean(v);
    CleanFixed(NormalizeSizes(v));
  }

  /** Clicking the selected size deselects it, clicking another selects it, and clicking
      the same size twice from no selection ends with none. */
  lemma ToggleLaws(v: View, size: string)
    ensures Select(v, size).selectedSize == (if v.selectedSize == size then "" else size)
    ensures size != "" ==> Select(Select(v.(selectedSize := ""), size), size).selectedSize == ""
    ensures Select(v, size).calls == v.calls
  {
  }

  /** Without a size, neither button touches the cart or the page. */
  lemma RefusedWithoutSize(v: View)
    requires Blank(v.selectedSize)
    ensures AddToCart(v) == v && BuyNow(v) == v
  {
  }

  /** With a size, "add to cart" records exactly one more call, of quantity 1 and that
      size, and clears the selection; "buy now" records one call of the chosen quantity. */
  lemma AddedWithSize(v: View)
    requires !Blank(v.selectedSize)
    ensures var w := AddToCart(v);
      && |w.calls| == |v.calls| + 1 && w.calls[..|v.calls|] == v.calls
      && w.calls[|v.calls|] == CartCall(v.selectedSize, 1)
      && w.selectedSize == "" && NoSize(w)
    ensures var w := BuyNow(v);
      && w.calls == v.calls + [CartCall(v.selectedSize, v.quantity)]
      && w.selectedSize == v.selectedSize
  {
    var w := AddToCart(v);
    assert w.calls[..|v.calls|] == v.calls;
  }

  /** The page never changes its quantity, so "buy now" from a fresh page adds one item. */
  lemma BuyNowFromFreshPage(size: string)
    requires !Blank(size)
    ensures BuyNow(Select(Initial, size)).calls == [CartCall(size, 1)]
  {
  }
}
