/** The product settings page (src/pages/SettingsPage.tsx): the form schema
    a product must satisfy before it is saved, the default form, the role
    gate, and the editor that switches between adding a product and editing
    one. Saving goes through the inventory store. */
module Settings {
  import opened Types
  import opened Panels
  import Inventory
  import Routes

  /** What the form holds: a product whose perishable switch may be unset. */
  datatype FormValues = FormValues(
    id: string,
    name: string,
    category: Option<string>,
    unitOfMeasure: Option<string>,
    unitCost: Option<real>,
    supplierName: Option<string>,
    reorderLevel: Option<real>,
    reorderQuantity: Option<real>,
    storageLocation: Option<string>,
    shelfLifeDays: Option<real>,
    isPerishable: Option<bool>)

  /** The fields the schema can reject, in the schema's order. */
  datatype Field = Id | Name | UnitCost | ReorderLevel | ReorderQuantity | ShelfLifeDays

  predicate NonNegativeInteger(x: real) {
    x >= 0.0 && x == x.Floor as real
  }

  /** The rule of each field: id and name need at least one character, the
      cost, when given, is not negative, and the three counts, when given,
      are whole and not negative. */
  predicate Fails(v: FormValues, f: Field) {
    match f
    case Id => |v.id| < 1
    case Name => |v.name| < 1
    case UnitCost => v.unitCost.Some? && v.unitCost.value < 0.0
    case ReorderLevel => v.reorderLevel.Some? && !NonNegativeInteger(v.reorderLevel.value)
    case ReorderQuantity => v.reorderQuantity.Some? && !NonNegativeInteger(v.reorderQuantity.value)
    case ShelfLifeDays => v.shelfLifeDays.Some? && !NonNegativeInteger(v.shelfLifeDays.value)
  }

  datatype Validation = Accepted(product: Product) | Rejected(issues: seq<Field>)

  /** The form showing a product, as `form.reset(product)` fills it. */
  function FormOf(p: Product): FormValues {
    FormValues(p.id, p.name, p.category, p.unitOfMeasure, p.unitCost, p.supplierName, p.reorderLevel,
               p.reorderQuantity, p.storageLocation, p.shelfLifeDays, Some(p.isPerishable))
  }

  function IssueIf(b: bool, f: Field): seq<Field> {
    if b then [f] else []
  }

  /** The issues the schema reports, in field order. */
  function Issues(v: FormValues): seq<Field> {
    IssueIf(Fails(v, Id), Id) + IssueIf(Fails(v, Name), Name) + IssueIf(Fails(v, UnitCost), UnitCost)
      + IssueIf(Fails(v, ReorderLevel), ReorderLevel) + IssueIf(Fails(v, ReorderQuantity), ReorderQuantity)
      + IssueIf(Fails(v, ShelfLifeDays), ShelfLifeDays)
  }

  /** Every failing field is reported, and only those. */
  lemma IssuesExact(v: FormValues)
    ensures forall f :: f in Issues(v) <==> Fails(v, f)
  {
    forall f ensures f in Issues(v) <==> Fails(v, f) {
      match f {
        case Id =>
        case Name =>
        case UnitCost =>
        case ReorderLevel =>
        case ReorderQuantity =>
        case ShelfLifeDays =>
      }
    }
  }

  /** `productSchema`: every failing field is reported; a form with none
      becomes the product it shows, the perishable switch defaulting to off. */
  function Validate(v: FormValues): (r: Validation)
    ensures r.Accepted? <==> forall f :: !Fails(v, f)
    ensures r.Rejected? ==> |r.issues| > 0 && forall f :: f in r.issues <==> Fails(v, f)
    ensures r.Accepted? ==> FormOf(r.product) == v.(isPerishable := Some(v.isPerishable.GetOr(false)))
  {
    IssuesExact(v);
    if |Issues(v)| > 0 then Rejected(Issues(v))
    else
      Accepted(Product(v.id, v.name, v.category, v.unitOfMeasure, v.unitCost, v.supplierName, v.reorderLevel,
                       v.reorderQuantity, v.storageLocation, v.shelfLifeDays, v.isPerishable.GetOr(false)))
  }

  /** `defaultFormValues`: empty texts, zero numbers, switch off. */
  const DefaultForm := FormValues("", "", Some(""), Some(""), Some(0.0), Some(""), Some(0.0), Some(0.0), Some(""),
                                  Some(0.0), Some(false))

  /** The default form is refused for its empty id and name and nothing else;
      filling in those two makes it a product with zero numbers that is not
      perishable. */
  lemma DefaultFormNeedsIdAndName(id: string, name: string)
    ensures Validate(DefaultForm) == Rejected([Id, Name])
    ensures id != "" && name != "" ==>
      Validate(DefaultForm.(id := id, name := name))
        == Accepted(Product(id, name, Some(""), Some(""), Some(0.0), Some(""), Some(0.0), Some(0.0), Some(""), Some(0.0), false))
  {
    assert NonNegativeInteger(0.0);
  }

  /** A product the schema allows, shown in the form and saved unchanged,
      is saved as itself; any other product shown in the form is refused. */
  lemma EditedProductRoundTrip(p: Product)
    ensures Validate(FormOf(p)).Accepted? ==> Validate(FormOf(p)) == Accepted(p)
    ensures Validate(FormOf(p)).Rejected? <==> exists f :: Fails(FormOf(p), f)
  {
    var r := Validate(FormOf(p));
    if r.Accepted? {
      assert FormOf(r.product) == FormOf(p);
    }
  }

  /** A product the form lets through always passes the proxy's check of
      POST /api/products, which demands the same id and name. */
  lemma AcceptedProductPassesProxy(v: FormValues)
    ensures Validate(v).Accepted? ==>
      Routes.Dispatch(Routes.ProductPost(Validate(v).product)) == Routes.Forward(Routes.AddProduct(Validate(v).product))
  {
    if Validate(v).Accepted? {
      assert !Fails(v, Id) && !Fails(v, Name);
    }
  }

  /** The page: anyone but a warehouse manager, signed in or not, sees only
      the access-denied card; a manager sees the form and the product list. */
  datatype View = AccessDenied | Manage(productList: Panel<seq<Product>>)

  function ViewOf(currentUser: Option<User>, products: seq<Product>, loadingProducts: bool): (r: View)
    ensures r.AccessDenied? <==> !(currentUser.Some? && currentUser.value.role == WarehouseManager)
    ensures r.Manage? ==> (r.productList.Skeleton? <==> loadingProducts && products == [])
    ensures r.Manage? ==> (r.productList.EmptyState? <==> !loadingProducts && products == [])
    ensures r.Manage? ==> (r.productList.Filled? <==> products != []) && (r.productList.Filled? ==> r.productList.content == products)
  {
    if currentUser.Some? && currentUser.value.role == WarehouseManager then
      Manage(Choose(loadingProducts, |products| == 0, products))
    else AccessDenied
  }

  /** The edit state of the page and the values in its form. Whenever
      `editingProduct` changes the form is reset: to that product, or to the
      defaults when there is none. Setting it to the value it already has
      changes nothing, so the form then keeps what was typed. */
  class ProductEditor {
    var editingProduct: Option<Product>
    var form: FormValues

    /** While a product is edited its id field is disabled, so the form keeps
        that product's id. */
    ghost predicate Valid()
      reads this
    {
      editingProduct.Some? ==> form.id == editingProduct.value.id
    }

    constructor ()
      ensures editingProduct.None? && form == DefaultForm && Valid()
    {
      editingProduct, form := None, DefaultForm;
    }

    /** `handleEdit`: choosing another product fills the form with it;
        choosing the product already edited keeps the unsaved values. */
    method HandleEdit(p: Product)
      requires Valid()
      modifies this
      ensures editingProduct == Some(p) && Valid()
      ensures form == if old(editingProduct) == Some(p) then old(form) else FormOf(p)
    {
      if editingProduct != Some(p) {
        editingProduct, form := Some(p), FormOf(p);
      }
    }

    /** `handleCancelEdit`: leaving the edit empties the form; with nothing
        edited there is nothing to reset. */
    method HandleCancelEdit()
      modifies this
      ensures editingProduct.None? && Valid()
      ensures form == if old(editingProduct).Some? then DefaultForm else old(form)
    {
      if editingProduct.Some? {
        editingProduct, form := None, DefaultForm;
      }
    }

    /** The user types `values` into the form; the disabled id field keeps
        its value while a product is edited. */
    method Enter(values: FormValues)
      requires Valid()
      modifies this
      ensures editingProduct == old(editingProduct) && Valid()
      ensures form == if editingProduct.Some? then values.(id := old(form).id) else values
    {
      if editingProduct.Some? {
        form := values.(id := form.id);
      } else {
        form := values;
      }
    }

    /** `form.handleSubmit(onSubmit)`: a form the schema refuses changes
        nothing; otherwise the product is saved through the store (`reply`
        is the server's answer) and, whatever that answer, the editor
        returns to adding a new product. The form is emptied only when a
        product was being edited; after adding one it keeps the submitted
        values. An edited product keeps its id. */
    method Submit(store: Inventory.InventoryStore, reply: Outcome<seq<Product>>) returns (saved: Option<Product>)
      requires Valid()
      modifies this, store
      ensures saved == (if Validate(old(form)).Accepted? then Some(Validate(old(form)).product) else None)
      ensures saved.None? ==>
        editingProduct == old(editingProduct) && form == old(form) && store.State() == old(store.State())
      ensures saved.Some? ==>
        && editingProduct.None? && form == (if old(editingProduct).Some? then DefaultForm else old(form))
        && store.State() == Inventory.Step(old(store.State()), Inventory.Event.AddProduct(saved.value, reply))
      ensures saved.Some? && old(editingProduct).Some? ==> saved.value.id == old(editingProduct).value.id
      ensures Valid()
    {
      var checked := Validate(form);
      if checked.Accepted? {
        saved := Some(checked.product);
        store.AddProduct(checked.product, reply);
        if editingProduct.Some? {
          editingProduct, form := None, DefaultForm;
        }
      } else {
        saved := None;
      }
    }
  }
}
