/** The admin product form: the comma lists of image URLs and sizes, split on submit and
    joined again when a product is opened for editing, the choice between update and
    create, and the form reset. */
module ProductForm {
  import opened Wrappers
  import opened JsStrings

  /** `s.split(',').map(x => x.trim())`. */
  function SplitList(s: string): (r: seq<string>)
    ensures |r| >= 1
    ensures forall i | 0 <= i < |r| :: ',' !in r[i] && Trim(r[i]) == r[i]
  {
    var parts := SplitOn(s, ',');
    forall i | 0 <= i < |parts|
      ensures Trim(Trim(parts[i])) == Trim(parts[i]) && ',' !in Trim(parts[i])
    {
      TrimIdempotent(parts[i]);
      TrimKeepsOut(parts[i], ',');
    }
    TrimAll(parts)
  }

  /** Trimming takes characters away and adds none. */
  lemma TrimKeepsOut(s: string, c: char)
    requires c !in s
    ensures c !in Trim(s)
  {
    var t := TrimStart(s);
    assert c !in t;
    assert c !in TrimEnd(t);
  }

  /** A product's `images` or `size` as stored: an array, some other value, or nothing. */
  datatype ListField = Items(items: seq<string>) | Text(value: string) | Missing

  /** The text the edit form shows: an array joined with `", "`, otherwise the value
      itself, or empty. */
  function ListText(f: ListField): string {
    match f
    case Items(xs) => Join(xs, ", ")
    case Text(v) => v
    case Missing => ""
  }

  /** The form's fields, all text. */
  datatype FormData = FormData(
    name: string, description: string, price: string, category: string,
    stock: string, images: string, size: string)

  const EmptyForm := FormData("", "", "", "", "", "", "")

  /** A product's category: the populated document, whose `_id` is used, or the
      reference itself. */
  datatype CategoryRef = Populated(catId: string) | Plain(ref: string)

  /** A product as listed; price and stock are whole numbers here. */
  datatype Product = Product(
    id: string, name: string, description: Option<string>, price: int,
    category: CategoryRef, stock: int, images: ListField, size: ListField)

  /** `handleEdit`'s form. */
  function Prefill(p: Product): (f: FormData)
    ensures f.images == ListText(p.images) && f.size == ListText(p.size)
    ensures f.stock == IntToString(p.stock) && f.price == IntToString(p.price)
  {
    FormData(
      p.name,
      if p.description.Some? && p.description.value != "" then p.description.value else "",
      IntToString(p.price),
      match p.category case Populated(id) => id case Plain(r) => r,
      IntToString(p.stock),
      ListText(p.images),
      ListText(p.size))
  }

  /** What `handleSubmit` sends: the form with the stock parsed and the two lists split.
      The price is kept as typed; its `parseFloat` is not part of this model. */
  datatype ProductData = ProductData(
    name: string, description: string, price: string, category: string,
    stock: Option<int>, images: seq<string>, size: seq<string>)

  function DataOf(f: FormData): ProductData {
    ProductData(f.name, f.description, f.price, f.category, ParseInt(f.stock),
                SplitList(f.images), SplitList(f.size))
  }

  datatype Request = Update(id: string, data: ProductData) | Create(data: ProductData)

  /** The page's state: the form, the id of the product being edited, if any, and
      whether the modal is shown. */
  datatype View = View(form: FormData, editing: Option<string>, showModal: bool)

  function RequestOf(v: View): (r: Request)
    ensures r.Update? <==> v.editing.Some?
    ensures r.data == DataOf(v.form)
  {
    if v.editing.Some? then Update(v.editing.value, DataOf(v.form)) else Create(DataOf(v.form))
  }

  /** `resetForm`. */
  function Reset(v: View): View {
    v.(form := EmptyForm, editing := None)
  }

  /** `handleEdit(p)`. */
  function OpenEdit(v: View, p: Product): View {
    View(Prefill(p), Some(p.id), true)
  }

  /** `handleSubmit` once the request is answered: on success the modal closes and the
      form is reset; when the request throws, everything stays. */
  function AfterSubmit(v: View, failed: bool): View {
    if failed then v else Reset(v.(showModal := false))
  }

  class ProductManagementPage {
    var form: FormData
    var editing: Option<string>
    var showModal: bool

    function Current(): View
      reads this
    {
      View(form, editing, showModal)
    }

    constructor ()
      ensures Current() == View(EmptyForm, None, false)
    {
      form := EmptyForm;
      editing := None;
      showModal := false;
    }

    method Edit(p: Product)
      modifies this
      ensures Current() == OpenEdit(old(Current()), p)
    {
      editing := Some(p.id);
      form := Prefill(p);
      showModal := true;
    }

    method ResetForm()
      modifies this
      ensures Current() == Reset(old(Current()))
    {
      form := EmptyForm;
      editing := None;
    }

    /** `sent` is the request made; `failed` says whether it threw. */
    method Submit(failed: bool) returns (sent: Request)
      modifies this
      ensures sent == RequestOf(old(Current()))
      ensures Current() == AfterSubmit(old(Current()), failed)
    {
      var data := DataOf(form);
      if editing.Some? {
        sent := Update(editing.value, data);
      } else {
        sent := Create(data);
      }
      if failed {
        return;
      }
      showModal := false;
      ResetForm();
    }
  }

  // ------------------------------------------------------------ lemmas

  /** An empty field is sent as a list of one empty string, not as an empty list. */
  lemma EmptyFieldIsOneEmptyEntry()
    ensures SplitList("") == [""]
  {
    assert ',' !in "";
  }

  /** Each entry gets a leading space from the join. */
  function Spaced(ys: seq<string>): (r: seq<string>)
    ensures |r| == |ys|
    ensures forall i | 0 <= i < |ys| :: r[i] == [' '] + ys[i]
  {
    seq(|ys|, i requires 0 <= i < |ys| => [' '] + ys[i])
  }

  lemma {:induction false} JoinSpaced(ys: seq<string>)
    requires |ys| >= 1
    ensures Join(Spaced(ys), ",") == [' '] + Join(ys, ", ")
    decreases |ys|
  {
    if |ys| > 1 {
      JoinSpaced(ys[1..]);
      assert Spaced(ys)[1..] == Spaced(ys[1..]);
      calc {
        Join(Spaced(ys), ",");
        ([' '] + ys[0]) + "," + Join(Spaced(ys[1..]), ",");
        ([' '] + ys[0]) + "," + ([' '] + Join(ys[1..], ", "));
        { assert ", " == [',', ' ']; }
        [' '] + (ys[0] + ", " + Join(ys[1..], ", "));
      }
    }
  }

  /** Joining with `", "` is joining with `,` after putting a space before every entry
      but the first. */
  lemma CommaSpaceJoin(xs: seq<string>)
    requires |xs| >= 1
    ensures Join(xs, ", ") == Join([xs[0]] + Spaced(xs[1..]), ",")
  {
    var parts := [xs[0]] + Spaced(xs[1..]);
    if |xs| > 1 {
      var tail := Join(xs[1..], ", ");
      assert parts[0] == xs[0] && parts[1..] == Spaced(xs[1..]);
      assert Join(parts, ",") == xs[0] + "," + Join(Spaced(xs[1..]), ",");
      JoinSpaced(xs[1..]);
      assert Join(xs, ", ") == xs[0] + ", " + tail;
      CommaThenSpace(xs[0], tail);
    }
  }

  lemma CommaThenSpace(a: string, b: string)
    ensures a + "," + ([' '] + b) == a + ", " + b
  {
    assert ", " == [','] + [' '];
  }

  /** Splitting the joined text of a list gives the list back when it is not empty and
      no entry holds a comma or has white space at an end. */
  lemma SplitJoinRoundTrip(xs: seq<string>)
    requires |xs| >= 1
    requires forall i | 0 <= i < |xs| :: ',' !in xs[i] && Trim(xs[i]) == xs[i]
    ensures SplitList(Join(xs, ", ")) == xs
  {
    var parts := [xs[0]] + Spaced(xs[1..]);
    CommaSpaceJoin(xs);
    SpacedPieces(xs);
    SplitOnJoin(parts, ',');
    TrimSpaced(xs);
  }

  lemma SpacedPieces(xs: seq<string>)
    requires |xs| >= 1
    requires forall i | 0 <= i < |xs| :: ',' !in xs[i]
    ensures forall i | 0 <= i < |xs| :: ',' !in ([xs[0]] + Spaced(xs[1..]))[i]
  {
    var parts := [xs[0]] + Spaced(xs[1..]);
    forall i | 0 <= i < |xs|
      ensures ',' !in parts[i]
    {
      if i > 0 {
        assert parts[i] == [' '] + xs[i];
      }
    }
  }

  lemma TrimSpaced(xs: seq<string>)
    requires |xs| >= 1
    requires forall i | 0 <= i < |xs| :: Trim(xs[i]) == xs[i]
    ensures TrimAll([xs[0]] + Spaced(xs[1..])) == xs
  {
    var sp := Spaced(xs[1..]);
    forall i | 0 <= i < |sp|
      ensures Trim(sp[i]) == xs[1..][i]
    {
      var x := xs[1..][i];
      assert ([' '] + x)[1..] == x;
    }
    assert TrimAll(sp) == xs[1..];
    assert TrimAll([xs[0]] + sp) == [Trim(xs[0])] + TrimAll(sp);
    assert [xs[0]] + xs[1..] == xs;
  }

  /** An empty array comes back as one empty entry, so the round trip needs a non-empty
      list. */
  lemma EmptyListDoesNotRoundTrip()
    ensures SplitList(Join([], ", ")) == [""]
  {
    EmptyFieldIsOneEmptyEntry();
  }

  /** Opening a product whose lists are clean and submitting the form unchanged sends
      the same lists back, as an update of that product. */
  lemma EditUnchangedKeepsLists(v: View, p: Product, xs: seq<string>, ys: seq<string>)
    requires p.images == Items(xs) && p.size == Items(ys)
    requires |xs| >= 1 && forall i | 0 <= i < |xs| :: ',' !in xs[i] && Trim(xs[i]) == xs[i]
    requires |ys| >= 1 && forall i | 0 <= i < |ys| :: ',' !in ys[i] && Trim(ys[i]) == ys[i]
    ensures var r := RequestOf(OpenEdit(v, p));
      r == Update(p.id, r.data) && r.data.images == xs && r.data.size == ys
  {
    SplitJoinRoundTrip(xs);
    SplitJoinRoundTrip(ys);
  }

  /** Opening a product and submitting unchanged sends its stock back when it is not
      negative. */
  lemma EditUnchangedKeepsStock(v: View, p: Product)
    requires p.stock >= 0
    ensures RequestOf(OpenEdit(v, p)).data.stock == Some(p.stock)
  {
    var f := OpenEdit(v, p).form;
    assert f.stock == NatToString(p.stock);
    ParseIntOfNatToString(p.stock);
    assert DataOf(f).stock == ParseInt(NatToString(p.stock));
  }

  /** A successful submit empties every field and forgets the product being edited; a
      failed one leaves the form as it was, so the admin can try again. */
  lemma SubmitOutcome(v: View)
    ensures AfterSubmit(v, false).form == EmptyForm && AfterSubmit(v, false).editing.None?
    ensures !AfterSubmit(v, false).showModal
    ensures AfterSubmit(v, true) == v
  {
  }
}
