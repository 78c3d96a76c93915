/** The office product-management page (app/office/page.tsx): an in-memory
    inventory of two lists, `available` and `upcoming`, an add form, an edit
    modal and an error banner. The outside inputs the page reads (the clock,
    `Date.now()` as a fresh id, the answer to `window.confirm`) are parameters. */
module Office {
  import opened JsString

  datatype Option<+T> = None | Some(value: T)

  /** The `type: 'available' | 'upcoming'` tag naming one of the two lists. */
  datatype Kind = Available | Upcoming

  function Other(k: Kind): Kind {
    if k == Available then Upcoming else Available
  }

  /** The value of a date input: `''` when nothing is chosen, otherwise the
      instant the chosen day parses to (`new Date(arrivalDate)`). */
  datatype DateInput = Blank | On(instant: int)

  /** A stored record. `arrivalDate` is `None` when the record has no such
      property, which is how available products are built. */
  datatype Product = Product(id: int, name: string, arrivalDate: Option<DateInput>)

  /** The two lists the page keeps in its `products` state. */
  datatype ProductsState = ProductsState(available: seq<Product>, upcoming: seq<Product>)
  {
    /** `prev[type]`: the list the type names. */
    function Get(k: Kind): (l: seq<Product>)
      ensures k == Available ==> l == available
      ensures k == Upcoming ==> l == upcoming
    {
      if k == Available then available else upcoming
    }

    /** `{ ...prev, [type]: l }`: replaces one list and keeps the other. */
    function Put(k: Kind, l: seq<Product>): (r: ProductsState)
      ensures r.Get(k) == l && r.Get(Other(k)) == Get(Other(k))
    {
      if k == Available then this.(available := l) else this.(upcoming := l)
    }
  }

  /** The add form. */
  datatype NewProduct = NewProduct(name: string, kind: Kind, arrivalDate: DateInput)

  /** The edit modal's copy of the record being edited. */
  datatype EditingProduct = EditingProduct(id: int, name: string, kind: Kind, arrivalDate: DateInput)

  /** The add form as the page opens it and as a successful add leaves it:
      no name, type available, no date. Submitting it untouched is rejected
      for the missing name, whatever the clock reads. */
  function EmptyForm(): (f: NewProduct)
    ensures f.name == [] && f.kind == Available && f.arrivalDate == Blank
    ensures forall now :: ValidateProduct(f.name, f.kind, f.arrivalDate, now) == Some(NameRequired)
  {
    NewProduct("", Available, Blank)
  }

  /** The reasons `validateProduct` can reject its input, in the order it
      tests them. */
  datatype Problem = NameRequired | NameTooShort | DateRequired | DateInPast

  /** The text `validateProduct` returns for a verdict: the message of the
      first guard that fires, or `''` when none does. */
  function Message(verdict: Option<Problem>): (text: string)
    ensures text == "" <==> verdict == None
  {
    match verdict
    case None => ""
    case Some(NameRequired) => "Product name is required"
    case Some(NameTooShort) => "Product name must be at least 2 characters"
    case Some(DateRequired) => "Arrival date is required for upcoming products"
    case Some(DateInPast) => "Arrival date must be in the future"
  }

  /** Different verdicts give different texts, so the string the page shows
      determines the verdict. */
  lemma MessageInjective(v: Option<Problem>, w: Option<Problem>)
    requires Message(v) == Message(w)
    ensures v == w
  {
  }

  /** A name that passes the two name guards: at least two UTF-16 code units
      once trimmed. */
  predicate NameAccepted(name: string) {
    Utf16Length(Trim(name)) >= 2
  }

  /** `validateProduct`, returning the verdict whose `Message` is the string
      the source returns: the first guard that fires decides. */
  function ValidateProduct(name: string, kind: Kind, arrivalDate: DateInput, now: int): (r: Option<Problem>)
    ensures r == Some(NameRequired) <==> forall i :: 0 <= i < |name| ==> IsWhitespace(name[i])
    ensures r == Some(NameTooShort) <==> |Trim(name)| == 1 && Trim(name)[0] as int < 0x10000
    ensures r == Some(DateRequired) <==> NameAccepted(name) && kind == Upcoming && arrivalDate == Blank
    ensures r == Some(DateInPast) <==>
      NameAccepted(name) && kind == Upcoming && arrivalDate.On? && arrivalDate.instant < now
    ensures r == None <==>
      NameAccepted(name) && (kind == Upcoming ==> arrivalDate.On? && now <= arrivalDate.instant)
  {
    ShortIffSingleBmp(Trim(name));
    if Trim(name) == [] then Some(NameRequired)
    else if Utf16Length(Trim(name)) < 2 then Some(NameTooShort)
    else if kind == Upcoming && arrivalDate == Blank then Some(DateRequired)
    else if kind == Upcoming && arrivalDate.On? && arrivalDate.instant < now then Some(DateInPast)
    else None
  }

  /** For an available product the date input plays no part in validation. */
  lemma AvailableIgnoresDate(name: string, d1: DateInput, d2: DateInput, now: int)
    ensures ValidateProduct(name, Available, d1, now) == ValidateProduct(name, Available, d2, now)
  {
  }

  /** The record a successful add appends: a fresh id, the trimmed name, and an
      arrival date only for an upcoming product. */
  function NewRecord(id: int, form: NewProduct): (p: Product)
    ensures p.id == id && p.name == Trim(form.name)
    ensures p.arrivalDate == if form.kind == Upcoming then Some(form.arrivalDate) else None
  {
    Product(id, Trim(form.name), if form.kind == Upcoming then Some(form.arrivalDate) else None)
  }

  /** The rewrite a successful update applies to a matching record: the
      trimmed name, and for an upcoming product the edited date. */
  function ApplyEdit(p: Product, e: EditingProduct): (q: Product)
    ensures q.id == p.id && q.name == Trim(e.name)
    ensures q.arrivalDate == if e.kind == Upcoming then Some(e.arrivalDate) else p.arrivalDate
  {
    if e.kind == Upcoming then p.(name := Trim(e.name), arrivalDate := Some(e.arrivalDate))
    else p.(name := Trim(e.name))
  }

  /** `list.filter(p => p.id !== id)` */
  function RemoveId(l: seq<Product>, id: int): (r: seq<Product>)
    ensures |r| <= |l|
    ensures forall p :: p in r <==> p in l && p.id != id
  {
    if l == [] then []
    else if l[0].id != id then [l[0]] + RemoveId(l[1..], id)
    else RemoveId(l[1..], id)
  }

  /** `list.map(p => p.id === e.id ? ApplyEdit(p, e) : p)` */
  function RewriteId(l: seq<Product>, e: EditingProduct): (r: seq<Product>)
    ensures |r| == |l|
    ensures forall i :: 0 <= i < |l| ==> r[i] == if l[i].id == e.id then ApplyEdit(l[i], e) else l[i]
  {
    if l == [] then [] else
      [if l[0].id == e.id then ApplyEdit(l[0], e) else l[0]] + RewriteId(l[1..], e)
  }

  /** Filtering distributes over concatenation, so the records that remain keep
      their relative order. */
  lemma {:induction false} RemoveIdConcat(a: seq<Product>, b: seq<Product>, id: int)
    ensures RemoveId(a + b, id) == RemoveId(a, id) + RemoveId(b, id)
  {
    if a == [] {
      assert a + b == b;
    } else {
      assert (a + b)[1..] == a[1..] + b;
      RemoveIdConcat(a[1..], b, id);
    }
  }

  /** Deleting an id no record carries changes nothing. */
  lemma {:induction false} RemoveIdAbsent(l: seq<Product>, id: int)
    requires forall p :: p in l ==> p.id != id
    ensures RemoveId(l, id) == l
  {
    if l != [] {
      RemoveIdAbsent(l[1..], id);
    }
  }

  /** Records whose ids are pairwise distinct. */
  predicate DistinctIds(l: seq<Product>) {
    forall i, j :: 0 <= i < j < |l| ==> l[i].id != l[j].id
  }

  function IdSet(l: seq<Product>): set<int> {
    set p | p in l :: p.id
  }

  /** With distinct ids, no record before or after index i shares its id. */
  lemma DistinctIdsAround(l: seq<Product>, i: nat)
    requires DistinctIds(l) && i < |l|
    ensures forall p :: p in l[..i] ==> p.id != l[i].id
    ensures forall p :: p in l[i + 1..] ==> p.id != l[i].id
  {
    forall p | p in l[..i] ensures p.id != l[i].id {
      var j :| 0 <= j < i && l[..i][j] == p;
    }
    forall p | p in l[i + 1..] ensures p.id != l[i].id {
      var j :| 0 <= j < |l| - i - 1 && l[i + 1..][j] == p;
      assert p == l[i + 1 + j];
    }
  }

  /** Deleting the id of a record no other record shares removes exactly
      that record. */
  lemma RemoveIdSplit(before: seq<Product>, x: Product, after: seq<Product>)
    requires forall p :: p in before ==> p.id != x.id
    requires forall p :: p in after ==> p.id != x.id
    ensures RemoveId(before + [x] + after, x.id) == before + after
  {
    assert RemoveId([x], x.id) == [] by {
      assert [x][1..] == [];
    }
    RemoveIdAbsent(before, x.id);
    RemoveIdConcat(before, [x], x.id);
    assert RemoveId(before + [x], x.id) == before;
    RemoveIdAbsent(after, x.id);
    RemoveIdConcat(before + [x], after, x.id);
  }

  /** With distinct ids, deleting the id of the record at index i removes that
      record and nothing else. */
  lemma RemoveIdAt(l: seq<Product>, i: nat)
    requires DistinctIds(l) && i < |l|
    ensures RemoveId(l, l[i].id) == l[..i] + l[i + 1..]
  {
    DistinctIdsAround(l, i);
    SplitAt(l, i);
    RemoveIdSplit(l[..i], l[i], l[i + 1..]);
  }

  lemma SplitAt(l: seq<Product>, i: nat)
    requires i < |l|
    ensures l == l[..i] + [l[i]] + l[i + 1..]
  {
  }

  /** Rewriting an id no record carries changes nothing. */
  lemma RewriteIdAbsent(l: seq<Product>, e: EditingProduct)
    requires forall p :: p in l ==> p.id != e.id
    ensures RewriteId(l, e) == l
  {
    assert forall i :: 0 <= i < |l| ==> l[i] in l;
  }

  /** Filtering keeps ids distinct. */
  lemma {:induction false} RemoveIdKeepsDistinct(l: seq<Product>, id: int)
    requires DistinctIds(l)
    ensures DistinctIds(RemoveId(l, id)) && IdSet(RemoveId(l, id)) <= IdSet(l)
  {
    if l != [] {
      RemoveIdKeepsDistinct(l[1..], id);
      var rest := RemoveId(l[1..], id);
      if l[0].id != id {
        forall j | 0 <= j < |rest| ensures rest[j].id != l[0].id {
          assert rest[j] in l[1..];
          var k :| 0 <= k < |l[1..]| && l[1..][k] == rest[j];
          assert l[1 + k] == rest[j];
        }
        assert RemoveId(l, id) == [l[0]] + rest;
      }
    }
  }

  /** Rewriting matching records keeps every id where it was. */
  lemma RewriteIdKeepsIds(l: seq<Product>, e: EditingProduct)
    ensures DistinctIds(RewriteId(l, e)) <==> DistinctIds(l)
    ensures IdSet(RewriteId(l, e)) == IdSet(l)
  {
    var r := RewriteId(l, e);
    assert forall i :: 0 <= i < |l| ==> r[i].id == l[i].id;
    forall x | x in IdSet(l) ensures x in IdSet(r) {
      var i :| 0 <= i < |l| && l[i].id == x;
      assert r[i] in r;
    }
    forall x | x in IdSet(r) ensures x in IdSet(l) {
      var i :| 0 <= i < |r| && r[i].id == x;
      assert l[i] in l;
    }
  }

  /** No id occurs twice, within either list or across the two. */
  predicate UniqueIds(ps: ProductsState) {
    DistinctIds(ps.available) && DistinctIds(ps.upcoming) && IdSet(ps.available) !! IdSet(ps.upcoming)
  }

  /** A stored record as the handlers build them: a trimmed name of at least
      two code units, no arrival date on an available product and a chosen
      date on an upcoming one. */
  predicate RecordOk(k: Kind, p: Product) {
    Trimmed(p.name) && TwoCodeUnits(p.name) &&
    if k == Available then p.arrivalDate == None else p.arrivalDate.Some? && p.arrivalDate.value.On?
  }

  predicate WellFormed(ps: ProductsState) {
    (forall p :: p in ps.available ==> RecordOk(Available, p)) &&
    (forall p :: p in ps.upcoming ==> RecordOk(Upcoming, p))
  }

  lemma WellFormedGet(ps: ProductsState, k: Kind)
    requires WellFormed(ps)
    ensures forall p :: p in ps.Get(k) ==> RecordOk(k, p)
  {
  }

  lemma WellFormedPut(ps: ProductsState, k: Kind, l: seq<Product>)
    requires WellFormed(ps)
    requires forall p :: p in l ==> RecordOk(k, p)
    ensures WellFormed(ps.Put(k, l))
  {
  }

  /** The name is at least two UTF-16 code units long, stated without
      counting: two characters, or one outside the Basic Multilingual Plane.
      `NameAccepted` states the same guard with `Utf16Length`, and
      `TwoCodeUnitsIff` proves the two agree. This form is the one
      `RecordOk` uses because it needs no recursion: proving the literal mock
      records well-formed then takes no unrolling of `Utf16Length` over
      their names. */
  predicate TwoCodeUnits(name: string) {
    |name| >= 2 || (|name| == 1 && name[0] as int >= 0x10000)
  }

  lemma TwoCodeUnitsIff(name: string)
    ensures TwoCodeUnits(name) <==> Utf16Length(name) >= 2
  {
    ShortIffSingleBmp(name);
  }

  /** Whatever passes validation becomes a well-formed record. */
  lemma ValidatedRecordOk(id: int, form: NewProduct, now: int)
    requires ValidateProduct(form.name, form.kind, form.arrivalDate, now) == None
    ensures RecordOk(form.kind, NewRecord(id, form))
  {
    TwoCodeUnitsIff(Trim(form.name));
  }

  /** An accepted edit keeps a well-formed record well-formed. */
  lemma ValidatedEditOk(p: Product, e: EditingProduct, now: int)
    requires RecordOk(e.kind, p)
    requires ValidateProduct(e.name, e.kind, e.arrivalDate, now) == None
    ensures RecordOk(e.kind, ApplyEdit(p, e))
  {
    TwoCodeUnitsIff(Trim(e.name));
  }

  /** A successful add keeps every stored record well-formed. */
  lemma AddKeepsWellFormed(ps: ProductsState, id: int, form: NewProduct, now: int)
    requires WellFormed(ps)
    requires ValidateProduct(form.name, form.kind, form.arrivalDate, now) == None
    ensures WellFormed(ps.Put(form.kind, ps.Get(form.kind) + [NewRecord(id, form)]))
  {
    ValidatedRecordOk(id, form, now);
    WellFormedGet(ps, form.kind);
    WellFormedPut(ps, form.kind, ps.Get(form.kind) + [NewRecord(id, form)]);
  }

  /** A successful update keeps every stored record well-formed. */
  lemma RewriteKeepsWellFormed(ps: ProductsState, e: EditingProduct, now: int)
    requires WellFormed(ps)
    requires ValidateProduct(e.name, e.kind, e.arrivalDate, now) == None
    ensures WellFormed(ps.Put(e.kind, RewriteId(ps.Get(e.kind), e)))
  {
    var l := ps.Get(e.kind);
    var edited := RewriteId(l, e);
    WellFormedGet(ps, e.kind);
    forall p | p in edited ensures RecordOk(e.kind, p) {
      var i :| 0 <= i < |edited| && edited[i] == p;
      assert l[i] in l;
      if l[i].id == e.id {
        ValidatedEditOk(l[i], e, now);
      }
    }
    WellFormedPut(ps, e.kind, edited);
  }

  /** A delete keeps every stored record well-formed. */
  lemma RemoveKeepsWellFormed(ps: ProductsState, k: Kind, id: int)
    requires WellFormed(ps)
    ensures WellFormed(ps.Put(k, RemoveId(ps.Get(k), id)))
  {
    WellFormedGet(ps, k);
    WellFormedPut(ps, k, RemoveId(ps.Get(k), id));
  }

  /** Appending a record with an unused id keeps ids unique, and the new id
      then occurs exactly once, in the list it was added to. */
  lemma AddKeepsUnique(ps: ProductsState, k: Kind, p: Product)
    requires UniqueIds(ps)
    requires p.id !in IdSet(ps.available) + IdSet(ps.upcoming)
    ensures UniqueIds(ps.Put(k, ps.Get(k) + [p]))
    ensures p.id in IdSet(ps.Put(k, ps.Get(k) + [p]).Get(k))
    ensures p.id !in IdSet(ps.Put(k, ps.Get(k) + [p]).Get(Other(k)))
  {
    var l := ps.Get(k) + [p];
    assert IdSet(l) == IdSet(ps.Get(k)) + {p.id} by {
      forall x | x in IdSet(l) ensures x in IdSet(ps.Get(k)) + {p.id} {
        var q :| q in l && q.id == x;
        if q != p { assert q in ps.Get(k); }
      }
      assert p in l;
      forall x | x in IdSet(ps.Get(k)) ensures x in IdSet(l) {
        var q :| q in ps.Get(k) && q.id == x;
        assert q in l;
      }
    }
    forall i, j | 0 <= i < j < |l| ensures l[i].id != l[j].id {
      if j == |l| - 1 {
        assert l[i] in ps.Get(k);
      }
    }
  }

  /** Deleting by id keeps ids unique, and no record with that id remains in
      that list. */
  lemma RemoveKeepsUnique(ps: ProductsState, k: Kind, id: int)
    requires UniqueIds(ps)
    ensures UniqueIds(ps.Put(k, RemoveId(ps.Get(k), id)))
    ensures id !in IdSet(ps.Put(k, RemoveId(ps.Get(k), id)).Get(k))
  {
    RemoveIdKeepsDistinct(ps.Get(k), id);
  }

  /** An update keeps ids unique. */
  lemma RewriteKeepsUnique(ps: ProductsState, e: EditingProduct)
    requires UniqueIds(ps)
    ensures UniqueIds(ps.Put(e.kind, RewriteId(ps.Get(e.kind), e)))
  {
    RewriteIdKeepsIds(ps.Get(e.kind), e);
  }

  /** What a successful add does to the two lists, as the handler relies on
      it: well-formedness is kept, and so is uniqueness of ids when the fresh
      id is unused. */
  lemma AddStep(ps: ProductsState, id: int, form: NewProduct, now: int)
    requires ValidateProduct(form.name, form.kind, form.arrivalDate, now) == None
    ensures var next := ps.Put(form.kind, ps.Get(form.kind) + [NewRecord(id, form)]);
      (WellFormed(ps) ==> WellFormed(next)) &&
      (UniqueIds(ps) && id !in IdSet(ps.available) + IdSet(ps.upcoming) ==> UniqueIds(next))
  {
    if WellFormed(ps) {
      AddKeepsWellFormed(ps, id, form, now);
    }
    if UniqueIds(ps) && id !in IdSet(ps.available) + IdSet(ps.upcoming) {
      AddKeepsUnique(ps, form.kind, NewRecord(id, form));
    }
  }

  /** What a successful update does to the two lists: well-formedness and
      uniqueness of ids are kept. */
  lemma UpdateStep(ps: ProductsState, e: EditingProduct, now: int)
    requires ValidateProduct(e.name, e.kind, e.arrivalDate, now) == None
    ensures var next := ps.Put(e.kind, RewriteId(ps.Get(e.kind), e));
      (WellFormed(ps) ==> WellFormed(next)) && (UniqueIds(ps) ==> UniqueIds(next))
  {
    if WellFormed(ps) {
      RewriteKeepsWellFormed(ps, e, now);
    }
    if UniqueIds(ps) {
      RewriteKeepsUnique(ps, e);
    }
  }

  /** What a confirmed delete does to the two lists: well-formedness and
      uniqueness of ids are kept. */
  lemma DeleteStep(ps: ProductsState, k: Kind, id: int)
    ensures var next := ps.Put(k, RemoveId(ps.Get(k), id));
      (WellFormed(ps) ==> WellFormed(next)) && (UniqueIds(ps) ==> UniqueIds(next))
  {
    if WellFormed(ps) {
      RemoveKeepsWellFormed(ps, k, id);
    }
    if UniqueIds(ps) {
      RemoveKeepsUnique(ps, k, id);
    }
  }

  /** The page's mock data (`initialProducts`); dates are the UTC-midnight
      instants, in milliseconds, of 2025-08-20, 2025-08-25, 2025-09-01 and
      2025-09-10. */
  const InitialProducts := ProductsState(
    [ Product(1, "Wireless Headphones", None),
      Product(2, "Smart Watch", None),
      Product(3, "Bluetooth Speaker", None),
      Product(4, "USB-C Cable", None) ],
    [ Product(5, "Gaming Laptop", Some(On(1755648000000))),
      Product(6, "Wireless Mouse", Some(On(1756080000000))),
      Product(7, "Mechanical Keyboard", Some(On(1756684800000))),
      Product(8, "4K Monitor", Some(On(1757462400000))) ])

  lemma InitialAvailableOk()
    ensures forall p :: p in InitialProducts.available ==> RecordOk(Available, p)
  {
    var l := InitialProducts.available;
    forall p | p in l ensures RecordOk(Available, p) {
      var i :| 0 <= i < |l| && l[i] == p;
    }
  }

  lemma InitialUpcomingOk()
    ensures forall p :: p in InitialProducts.upcoming ==> RecordOk(Upcoming, p)
  {
    var l := InitialProducts.upcoming;
    forall p | p in l ensures RecordOk(Upcoming, p) {
      var i :| 0 <= i < |l| && l[i] == p;
    }
  }

  lemma InitialProductsOk()
    ensures WellFormed(InitialProducts) && UniqueIds(InitialProducts)
  {
    InitialAvailableOk();
    InitialUpcomingOk();
    InitialIdsUnique();
  }

  lemma InitialIdsUnique()
    ensures UniqueIds(InitialProducts)
  {
    var a, u := InitialProducts.available, InitialProducts.upcoming;
    forall x | x in IdSet(a) ensures x <= 4 {
      var i :| 0 <= i < |a| && a[i].id == x;
    }
    forall x | x in IdSet(u) ensures x >= 5 {
      var i :| 0 <= i < |u| && u[i].id == x;
    }
  }

  /** The page's state: `products`, `editingProduct`, `newProduct` and
      `error`, with one method per handler. */
  class OfficePage {
    var products: ProductsState
    var editingProduct: Option<EditingProduct>
    var newProduct: NewProduct
    var error: string

    /** Every stored record is well-formed. */
    ghost predicate Valid()
      reads this
    {
      WellFormed(products)
    }

    constructor ()
      ensures Valid() && UniqueIds(products)
      ensures products == InitialProducts && editingProduct == None
      ensures newProduct == EmptyForm() && error == ""
    {
      products := InitialProducts;
      editingProduct := None;
      newProduct := EmptyForm();
      error := "";
      InitialProductsOk();
    }

    /** `handleAddProduct`, with `now` for `new Date()` and `freshId` for
        `Date.now()`. */
    method HandleAddProduct(now: int, freshId: int)
      requires Valid()
      modifies this
      ensures Valid()
      ensures editingProduct == old(editingProduct)
      ensures var form := old(newProduct);
        var verdict := ValidateProduct(form.name, form.kind, form.arrivalDate, now);
        if verdict.Some? then
          error == Message(verdict) && products == old(products) && newProduct == form
        else
          error == "" && newProduct == EmptyForm() &&
          products.Get(form.kind) == old(products).Get(form.kind) + [NewRecord(freshId, form)] &&
          products.Get(Other(form.kind)) == old(products).Get(Other(form.kind))
      ensures old(UniqueIds(products)) && freshId !in old(IdSet(products.available) + IdSet(products.upcoming))
        ==> UniqueIds(products)
    {
      error := "";
      var form := newProduct;
      var verdict := ValidateProduct(form.name, form.kind, form.arrivalDate, now);
      if verdict.Some? {
        error := Message(verdict);
        return;
      }
      AddStep(products, freshId, form, now);
      products := products.Put(form.kind, products.Get(form.kind) + [NewRecord(freshId, form)]);
      newProduct := EmptyForm();
    }

    /** `handleEditProduct`: opens the edit modal on a copy of the record,
        with `''` as the date of a record that has none. */
    method HandleEditProduct(product: Product, kind: Kind)
      modifies this
      ensures error == ""
      ensures editingProduct == Some(EditingProduct(product.id, product.name, kind,
        if product.arrivalDate.Some? then product.arrivalDate.value else Blank))
      ensures products == old(products) && newProduct == old(newProduct)
    {
      error := "";
      var date := match product.arrivalDate case Some(d) => d case None => Blank;
      editingProduct := Some(EditingProduct(product.id, product.name, kind, date));
    }

    /** `handleUpdateProduct`, with `now` for `new Date()`. */
    method HandleUpdateProduct(now: int)
      requires Valid()
      modifies this
      ensures Valid()
      ensures newProduct == old(newProduct)
      ensures old(editingProduct) == None ==>
        error == old(error) && products == old(products) && editingProduct == None
      ensures old(editingProduct).Some? ==>
        var e := old(editingProduct).value;
        var verdict := ValidateProduct(e.name, e.kind, e.arrivalDate, now);
        if verdict.Some? then
          error == Message(verdict) && products == old(products) && editingProduct == old(editingProduct)
        else
          error == "" && editingProduct == None &&
          products.Get(e.kind) == RewriteId(old(products).Get(e.kind), e) &&
          products.Get(Other(e.kind)) == old(products).Get(Other(e.kind))
      ensures old(UniqueIds(products)) ==> UniqueIds(products)
    {
      if editingProduct == None {
        return;
      }
      error := "";
      var e := editingProduct.value;
      var verdict := ValidateProduct(e.name, e.kind, e.arrivalDate, now);
      if verdict.Some? {
        error := Message(verdict);
        return;
      }
      UpdateStep(products, e, now);
      products := products.Put(e.kind, RewriteId(products.Get(e.kind), e));
      editingProduct := None;
    }

    /** `handleDeleteProduct`, with `confirmed` for the answer to
        `window.confirm`. */
    method HandleDeleteProduct(id: int, kind: Kind, confirmed: bool)
      requires Valid()
      modifies this
      ensures Valid()
      ensures error == old(error) && editingProduct == old(editingProduct) && newProduct == old(newProduct)
      ensures !confirmed ==> products == old(products)
      ensures confirmed ==>
        products.Get(kind) == RemoveId(old(products).Get(kind), id) &&
        products.Get(Other(kind)) == old(products).Get(Other(kind))
      ensures old(UniqueIds(products)) ==> UniqueIds(products)
    {
      if confirmed {
        DeleteStep(products, kind, id);
        products := products.Put(kind, RemoveId(products.Get(kind), id));
      }
    }

    /** `closeModal`: discards the edit and the error. */
    method CloseModal()
      modifies this
      ensures editingProduct == None && error == ""
      ensures products == old(products) && newProduct == old(newProduct)
    {
      editingProduct := None;
      error := "";
    }

    /** The add form's name input: stores the text and clears the error. */
    method SetNewName(name: string)
      modifies this
      ensures newProduct == old(newProduct).(name := name) && error == ""
      ensures products == old(products) && editingProduct == old(editingProduct)
    {
      newProduct := newProduct.(name := name);
      error := "";
    }

    /** The add form's type selector: switching to available clears the date,
        switching to upcoming keeps it; the error is left as it is. */
    method SetNewKind(kind: Kind)
      modifies this
      ensures newProduct.name == old(newProduct).name && newProduct.kind == kind
      ensures newProduct.arrivalDate == if kind == Available then Blank else old(newProduct).arrivalDate
      ensures products == old(products) && editingProduct == old(editingProduct) && error == old(error)
    {
      newProduct := newProduct.(kind := kind, arrivalDate := if kind == Available then Blank else newProduct.arrivalDate);
    }

    /** The add form's date input: stores the date and clears the error. */
    method SetNewArrivalDate(date: DateInput)
      modifies this
      ensures newProduct == old(newProduct).(arrivalDate := date) && error == ""
      ensures products == old(products) && editingProduct == old(editingProduct)
    {
      newProduct := newProduct.(arrivalDate := date);
      error := "";
    }

    /** The edit modal's name input: changes the open edit, if any, and
        clears the error. */
    method SetEditingName(name: string)
      modifies this
      ensures editingProduct == if old(editingProduct).Some? then Some(old(editingProduct).value.(name := name)) else None
      ensures error == "" && products == old(products) && newProduct == old(newProduct)
    {
      if editingProduct.Some? {
        editingProduct := Some(editingProduct.value.(name := name));
      }
      error := "";
    }

    /** The edit modal's date input: changes the open edit, if any, and
        clears the error. */
    method SetEditingArrivalDate(date: DateInput)
      modifies this
      ensures editingProduct ==
        if old(editingProduct).Some? then Some(old(editingProduct).value.(arrivalDate := date)) else None
      ensures error == "" && products == old(products) && newProduct == old(newProduct)
    {
      if editingProduct.Some? {
        editingProduct := Some(editingProduct.value.(arrivalDate := date));
      }
      error := "";
    }

    /** The close button on the error banner. */
    method DismissError()
      modifies this
      ensures error == ""
      ensures products == old(products) && editingProduct == old(editingProduct) && newProduct == old(newProduct)
    {
      error := "";
    }
  }
}
