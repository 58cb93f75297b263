/**
 * The product catalogue screen of one website: the add/edit dialog with its
 * required-field check, the upsert and delete that hand a new product list
 * to the parent, the search box combined with the category selector, and
 * the category-name lookup of the table.
 */
module ProductCatalog {
  import opened Seqs
  import opened Text
  import opened Domain

  /** The dialog's text fields, as typed. */
  datatype ProductForm = ProductForm(
    name: string,
    description: string,
    price: string,
    stock: string,
    categoryId: string,
    image: string)

  const EmptyForm := ProductForm("", "", "", "", "", "")

  const AllCategories := "all"

  const UnknownCategory := "Unknown"

  /** An optional text shown in a field: its value, or the empty string. */
  function OrEmpty(o: Option<string>): string
  {
    match o
    case Some(s) => s
    case None => ""
  }

  /** The four required fields are non-empty. */
  predicate IsComplete(form: ProductForm)
  {
    form.name != "" && form.price != "" && form.stock != "" && form.categoryId != ""
  }

  // ----- opening the dialog -----

  /** The category a new product starts with: the first category's id, or nothing. */
  function DefaultCategory(categories: seq<Category>): string
  {
    if categories == [] then "" else categories[0].categoryId
  }

  /** The form of a fresh dialog for a new product. */
  function NewProductForm(categories: seq<Category>): ProductForm
  {
    EmptyForm.(categoryId := DefaultCategory(categories))
  }

  /**
   * A new-product form in which the user types a name, a price and a stock
   * but leaves the category as preset passes the required-field check
   * exactly when there is a first category and its id is not empty; with no
   * categories such a form can never be submitted.
   */
  lemma NewProductFormComplete(categories: seq<Category>, name: string, price: string, stock: string)
    ensures var form := NewProductForm(categories).(name := name, price := price, stock := stock);
      (name != "" && price != "" && stock != "" ==>
        (IsComplete(form) <==> categories != [] && categories[0].categoryId != "")) &&
      (categories == [] ==> !IsComplete(form))
  {
  }

  /** The form of a dialog opened on an existing product: its fields, numbers written in decimal. */
  function EditForm(p: Product): ProductForm
  {
    ProductForm(p.name, OrEmpty(p.description), IntToString(p.price), IntToString(p.stock), p.categoryId, OrEmpty(p.image))
  }

  /**
   * A dialog opened on an existing product passes the required-field check
   * exactly when the product has a name and a category: its price and stock
   * always render as non-empty digit strings.
   */
  lemma EditFormComplete(p: Product)
    ensures IsComplete(EditForm(p)) <==> p.name != "" && p.categoryId != ""
    ensures p.price >= 0 ==> DigitsValue(EditForm(p).price) == p.price
    ensures p.stock >= 0 ==> DigitsValue(EditForm(p).stock) == p.stock
  {
    if p.price >= 0 {
      NatToStringRoundTrip(p.price);
    }
    if p.stock >= 0 {
      NatToStringRoundTrip(p.stock);
    }
  }

  // ----- the record built on submit -----

  /**
   * The record a submit builds. `price` and `stock` are the parsed form
   * fields and `now` the clock reading used for a fresh id.
   */
  function BuildRecord(websiteId: string, editing: Option<Product>, form: ProductForm, price: int, stock: int, now: int): Product
  {
    var id := if editing.Some? && editing.value.productId != "" then editing.value.productId else "prod-" + IntToString(now);
    Product(id, websiteId, form.categoryId, form.name, Some(form.description), price, stock, Some(form.image))
  }

  /**
   * The record belongs to the current website and carries every form field,
   * description and image included even when empty. It keeps the edited
   * product's id; a new product, and an edited one whose id is empty, gets
   * the id `prod-<now>`, whose digits read back to `now`.
   */
  lemma BuildRecordSpec(websiteId: string, editing: Option<Product>, form: ProductForm, price: int, stock: int, now: int)
    ensures var r := BuildRecord(websiteId, editing, form, price, stock, now);
      r.websiteId == websiteId &&
      r.name == form.name && r.categoryId == form.categoryId &&
      r.description == Some(form.description) && r.image == Some(form.image) &&
      r.price == price && r.stock == stock &&
      (editing.Some? && editing.value.productId != "" ==> r.productId == editing.value.productId) &&
      (editing.None? || editing.value.productId == "" ==> r.productId == "prod-" + IntToString(now)) &&
      ((editing.None? || editing.value.productId == "") && now >= 0 ==> DigitsValue(r.productId[5..]) == now)
  {
    var r := BuildRecord(websiteId, editing, form, price, stock, now);
    if (editing.None? || editing.value.productId == "") && now >= 0 {
      assert r.productId[5..] == NatToString(now);
      NatToStringRoundTrip(now);
    }
  }

  /** Every product with id `id` replaced by `x`; the rest stay where they are. */
  function ReplaceById(products: seq<Product>, id: string, x: Product): seq<Product>
  {
    seq(|products|, i requires 0 <= i < |products| => if products[i].productId == id then x else products[i])
  }

  /**
   * Replacing by id keeps the length, puts `x` at every position that held
   * the id and leaves every other position as it was.
   */
  lemma ReplaceByIdSpec(products: seq<Product>, id: string, x: Product)
    ensures |ReplaceById(products, id, x)| == |products|
    ensures forall i :: 0 <= i < |products| && products[i].productId == id ==> ReplaceById(products, id, x)[i] == x
    ensures forall i :: 0 <= i < |products| && products[i].productId != id ==> ReplaceById(products, id, x)[i] == products[i]
    ensures (forall i :: 0 <= i < |products| ==> products[i].productId != id) ==> ReplaceById(products, id, x) == products
  {
  }

  /**
   * An edit that keeps the id leaves the sequence of ids as it was, so ids
   * that were unique stay unique.
   */
  lemma ReplaceByIdKeepsIds(products: seq<Product>, id: string, x: Product)
    requires x.productId == id
    ensures forall i :: 0 <= i < |products| ==> ReplaceById(products, id, x)[i].productId == products[i].productId
  {
  }

  /**
   * The list a submit hands to the parent, or `None` when the form is
   * incomplete and nothing is handed on.
   */
  function Submitted(products: seq<Product>, websiteId: string, editing: Option<Product>, form: ProductForm, price: int, stock: int, now: int): Option<seq<Product>>
  {
    if !IsComplete(form) then None
    else
      var record := BuildRecord(websiteId, editing, form, price, stock, now);
      match editing
      case Some(e) => Some(ReplaceById(products, e.productId, record))
      case None => Some(products + [record])
  }

  /**
   * Submit reports the incomplete form and hands on nothing; an edit keeps
   * the length and ids and replaces the edited product in place; an add
   * appends the new record at the end.
   */
  lemma SubmittedSpec(products: seq<Product>, websiteId: string, editing: Option<Product>, form: ProductForm, price: int, stock: int, now: int)
    ensures var r := Submitted(products, websiteId, editing, form, price, stock, now);
      var record := BuildRecord(websiteId, editing, form, price, stock, now);
      (r.None? <==> !IsComplete(form)) &&
      (r.Some? && editing.None? ==> r.value == products + [record] && r.value[..|products|] == products) &&
      (r.Some? && editing.Some? ==>
        |r.value| == |products| &&
        (forall i :: 0 <= i < |products| && products[i].productId == editing.value.productId ==> r.value[i] == record) &&
        (forall i :: 0 <= i < |products| && products[i].productId != editing.value.productId ==> r.value[i] == products[i]))
  {
    if IsComplete(form) && editing.Some? {
      ReplaceByIdSpec(products, editing.value.productId, BuildRecord(websiteId, editing, form, price, stock, now));
    }
  }

  /** An edit of a product with an id never changes the ids of the list. */
  lemma SubmitEditKeepsIds(products: seq<Product>, websiteId: string, e: Product, form: ProductForm, price: int, stock: int, now: int)
    requires e.productId != ""
    requires IsComplete(form)
    ensures var r := Submitted(products, websiteId, Some(e), form, price, stock, now);
      r.Some? && |r.value| == |products| &&
      forall i :: 0 <= i < |products| ==> r.value[i].productId == products[i].productId
  {
    ReplaceByIdKeepsIds(products, e.productId, BuildRecord(websiteId, Some(e), form, price, stock, now));
  }

  // ----- delete -----

  function IsNotProduct(id: string): Product -> bool
  {
    (p: Product) => p.productId != id
  }

  /** The list a delete hands to the parent when confirmed, or `None` when declined. */
  function Deleted(products: seq<Product>, id: string, confirmed: bool): Option<seq<Product>>
  {
    if confirmed then Some(Filter(products, IsNotProduct(id))) else None
  }

  /**
   * A confirmed delete drops exactly the products with the id and keeps the
   * rest in order; a declined one hands on nothing; deleting twice is
   * deleting once.
   */
  lemma DeletedSpec(products: seq<Product>, id: string, confirmed: bool)
    ensures Deleted(products, id, confirmed).None? <==> !confirmed
    ensures confirmed ==> var r := Deleted(products, id, confirmed).value;
      (forall i :: 0 <= i < |r| ==> r[i].productId != id) &&
      (forall i :: 0 <= i < |products| && products[i].productId != id ==> products[i] in r) &&
      IsSubsequence(r, products) &&
      (forall x :: multiset(r)[x] == if x.productId != id then multiset(products)[x] else 0) &&
      Deleted(r, id, confirmed) == Some(r)
  {
    if confirmed {
      FilterIsSubsequence(products, IsNotProduct(id));
      FilterCounts(products, IsNotProduct(id));
      FilterIdempotent(products, IsNotProduct(id));
    }
  }

  // ----- search and category name -----

  /** Whether a product shows in the table for the search text and the selected category. */
  predicate Matches(product: Product, query: string, category: string)
  {
    var q := Lower(query);
    var matchesSearch :=
      Includes(Lower(product.name), q) ||
      (product.description.Some? && Includes(Lower(product.description.value), q));
    matchesSearch && (category == AllCategories || product.categoryId == category)
  }

  function MatchesFor(query: string, category: string): Product -> bool
  {
    (p: Product) => Matches(p, query, category)
  }

  /** The products shown in the table. */
  function Search(products: seq<Product>, query: string, category: string): seq<Product>
  {
    Filter(products, MatchesFor(query, category))
  }

  /**
   * The shown products are the matching ones, in their original order; with
   * a category selected, all of them have it.
   */
  lemma SearchSpec(products: seq<Product>, query: string, category: string)
    ensures var r := Search(products, query, category);
      IsSubsequence(r, products) &&
      (forall i :: 0 <= i < |r| ==> Matches(r[i], query, category)) &&
      (forall i :: 0 <= i < |products| && Matches(products[i], query, category) ==> products[i] in r) &&
      (forall x :: multiset(r)[x] == if Matches(x, query, category) then multiset(products)[x] else 0) &&
      (category != AllCategories ==> forall i :: 0 <= i < |r| ==> r[i].categoryId == category)
  {
    FilterIsSubsequence(products, MatchesFor(query, category));
    FilterCounts(products, MatchesFor(query, category));
  }

  /** With an empty search and every category the table shows the whole list. */
  lemma SearchEverything(products: seq<Product>)
    ensures Search(products, "", AllCategories) == products
  {
    forall i | 0 <= i < |products| ensures Matches(products[i], "", AllCategories) {
      IncludesEmpty(Lower(products[i].name));
    }
    FilterKeepsAll(products, MatchesFor("", AllCategories));
  }

  /** The search ignores the case of the query. */
  lemma SearchIgnoresCase(products: seq<Product>, query: string, category: string)
    ensures Search(products, Lower(query), category) == Search(products, query, category)
  {
    LowerIdempotent(query);
    FilterSameTest(products, MatchesFor(Lower(query), category), MatchesFor(query, category));
  }

  function IsCategory(id: string): Category -> bool
  {
    (c: Category) => c.categoryId == id
  }

  /** The name shown for a category id: the first category with that id, unless its name is empty. */
  function CategoryName(categories: seq<Category>, id: string): string
  {
    match Find(categories, IsCategory(id))
    case Some(c) => if c.name != "" then c.name else UnknownCategory
    case None => UnknownCategory
  }

  /**
   * The name is that of the first category with the id when it has one;
   * it is `Unknown` when no category has the id.
   */
  lemma CategoryNameSpec(categories: seq<Category>, id: string)
    ensures (forall i :: 0 <= i < |categories| ==> categories[i].categoryId != id) ==> CategoryName(categories, id) == UnknownCategory
    ensures forall i :: (0 <= i < |categories| && categories[i].categoryId == id &&
      (forall j :: 0 <= j < i ==> categories[j].categoryId != id)) ==>
        CategoryName(categories, id) == if categories[i].name != "" then categories[i].name else UnknownCategory
  {
    var found := Find(categories, IsCategory(id));
    forall i | 0 <= i < |categories| && categories[i].categoryId == id &&
      (forall j :: 0 <= j < i ==> categories[j].categoryId != id)
      ensures found == Some(categories[i])
    {
      assert IsCategory(id)(categories[i]);
      var k :| 0 <= k < |categories| && categories[k] == found.value && found.value.categoryId == id &&
        forall j :: 0 <= j < k ==> categories[j].categoryId != id;
      if k < i {
        assert false;
      } else if k > i {
        assert false;
      }
    }
  }

  /** The dialog state of the catalogue screen. */
  class ProductEditor {
    var isDialogOpen: bool
    var editing: Option<Product>
    var form: ProductForm

    /** The screen opens with the dialog closed and an empty form. */
    constructor()
      ensures !isDialogOpen && editing == None && form == EmptyForm
    {
      isDialogOpen := false;
      editing := None;
      form := EmptyForm;
    }

    /** Open the dialog on an existing product, or on a new one preset to the first category. */
    method OpenDialog(product: Option<Product>, categories: seq<Category>)
      modifies this
      ensures isDialogOpen && editing == product
      ensures product.Some? ==> form == EditForm(product.value)
      ensures product.None? ==> form == NewProductForm(categories) && form.name == "" && form.categoryId == DefaultCategory(categories)
    {
      editing := product;
      match product {
        case Some(p) => form := EditForm(p);
        case None => form := NewProductForm(categories);
      }
      isDialogOpen := true;
    }

    /** Close the dialog, forgetting the product and the form. */
    method CloseDialog()
      modifies this
      ensures !isDialogOpen && editing == None && form == EmptyForm
    {
      isDialogOpen := false;
      editing := None;
      form := EmptyForm;
    }

    /** Typing into the form. */
    method SetForm(f: ProductForm)
      modifies this
      ensures form == f && isDialogOpen == old(isDialogOpen) && editing == old(editing)
    {
      form := f;
    }

    /**
     * Submit the dialog: an incomplete form hands on nothing and leaves the
     * dialog as it is; otherwise the new list is handed on and the dialog
     * closes.
     */
    method Submit(products: seq<Product>, websiteId: string, price: int, stock: int, now: int) returns (handed: Option<seq<Product>>)
      modifies this
      ensures handed == Submitted(products, websiteId, old(editing), old(form), price, stock, now)
      ensures handed.None? <==> !IsComplete(old(form))
      ensures handed.None? ==> isDialogOpen == old(isDialogOpen) && editing == old(editing) && form == old(form)
      ensures handed.Some? ==> !isDialogOpen && editing == None && form == EmptyForm
    {
      if !IsComplete(form) {
        return None;
      }
      var record := BuildRecord(websiteId, editing, form, price, stock, now);
      match editing {
        case Some(e) => handed := Some(ReplaceById(products, e.productId, record));
        case None => handed := Some(products + [record]);
      }
      CloseDialog();
    }
  }
}
