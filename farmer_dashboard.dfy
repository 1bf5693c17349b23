/**
 * The farmer's dashboard: the farmer's own product list with delete, edit
 * and add, driven by one modal form.
 */
module FarmerDashboard {
  import opened Wrappers
  import opened Seqs
  import opened Toasts
  import MockData
  import Marketplace

  type Product = MockData.Product

  /**
   * The modal form. The price and quantity boxes are number inputs: each is
   * either empty or holds a number.
   */
  datatype Form = Form(name: string, price: Option<int>, quantity: Option<int>, category: string, unit: string)

  /** The form as the modal opens for a new product, and as every save leaves it. */
  const EmptyForm: Form := Form("", None, None, "vegetables", "kg")

  /** The categories the form's menu offers. */
  const FormCategories: seq<string> := ["vegetables", "fruits", "grains", "spices", "dairy"]

  /**
   * The form offers exactly the marketplace's category filters other than
   * `"all"`, in the same order, and the blank form starts on one of them, so
   * every product the farmer saves can be found under a marketplace filter.
   */
  lemma FormCategoriesAreFilters()
    ensures FormCategories == Marketplace.Categories[1..]
    ensures EmptyForm.category in FormCategories
    ensures forall c :: c in FormCategories ==> c in Marketplace.Categories && c != "all"
  {
  }

  /** Name, price and quantity are all filled in: the condition for a save to go through. */
  predicate Complete(f: Form) {
    f.name != "" && f.price.Some? && f.quantity.Some?
  }

  /**
   * The save guard tests only that the three boxes are filled: any name with
   * any numbers, zero and negative ones included, passes whatever the
   * category and unit, and emptying any one of the three boxes fails it.
   * The blank form therefore cannot be saved.
   */
  lemma CompleteIffThreeFilled(f: Form, name: string, price: int, quantity: int)
    requires name != ""
    ensures Complete(f.(name := name, price := Some(price), quantity := Some(quantity)))
    ensures !Complete(f.(name := "")) && !Complete(f.(price := None)) && !Complete(f.(quantity := None))
    ensures !Complete(EmptyForm)
  {
  }

  /**
   * `handleEdit` fills the form from a product: the form holds the product's
   * name, price, quantity, category and unit, so writing it back gives the
   * product again, and it can be saved exactly when the product has a name.
   */
  function FormOf(p: Product): (f: Form)
    ensures Complete(f) <==> p.name != ""
    ensures Complete(f) ==> Apply(p, f) == p
  {
    Form(p.name, Some(p.price), Some(p.quantity), p.category, p.unit)
  }

  /** A product with the form's fields written over it; its id, image and farmer stay. */
  function Apply(p: Product, f: Form): (q: Product)
    requires Complete(f)
    ensures q.id == p.id && q.image == p.image && q.farmer == p.farmer
    ensures q.name == f.name && q.price == f.price.value && q.quantity == f.quantity.value
    ensures q.category == f.category && q.unit == f.unit
  {
    p.(name := f.name, price := f.price.value, quantity := f.quantity.value,
       category := f.category, unit := f.unit)
  }

  /** Saving an edit: every product with the edited id takes the form's fields, the others stay. */
  function EditInList(products: seq<Product>, id: string, f: Form): (r: seq<Product>)
    requires Complete(f)
    ensures |r| == |products|
    ensures forall i :: 0 <= i < |r| && products[i].id != id ==> r[i] == products[i]
    ensures forall i :: 0 <= i < |r| && products[i].id == id ==> r[i] == Apply(products[i], f)
  {
    seq(|products|, i requires 0 <= i < |products| =>
      if products[i].id == id then Apply(products[i], f) else products[i])
  }

  /** A product added through the form, shown with the grain emoji as its image and "You" as its farmer. */
  function NewProduct(id: string, f: Form): (p: Product)
    requires Complete(f)
    ensures p.id == id && p.image == "🌾" && p.farmer == "You"
    ensures p.name == f.name && p.price == f.price.value && p.quantity == f.quantity.value
    ensures p.category == f.category && p.unit == f.unit
  {
    MockData.Product(id, f.name, f.price.value, f.quantity.value, f.category, "🌾", "You", f.unit)
  }

  /** `handleDelete`: the products whose id differs, in their order. */
  function RemoveId(products: seq<Product>, id: string): (r: seq<Product>)
    ensures forall i :: 0 <= i < |r| ==> r[i].id != id && r[i] in products
    ensures forall i :: 0 <= i < |products| && products[i].id != id ==> products[i] in r
  {
    Filter(products, (p: Product) => p.id != id)
  }

  /** Deleting removes exactly the products carrying the id: the count drops by their number. */
  lemma RemoveIdCount(products: seq<Product>, id: string)
    ensures |RemoveId(products, id)| ==
      |products| - Count(products, (p: Product) => p.id == id)
  {
    FilterLength(products, (p: Product) => p.id != id);
    CountSplit(products, id);
  }

  lemma {:induction false} CountSplit(products: seq<Product>, id: string)
    ensures Count(products, (p: Product) => p.id != id) + Count(products, (p: Product) => p.id == id) == |products|
  {
    if products != [] {
      CountSplit(products[1..], id);
    }
  }

  /**
   * Opening a product for editing and saving the untouched form gives the
   * list back unchanged, provided the product is the only one with its id.
   */
  lemma EditUntouchedKeepsList(products: seq<Product>, p: Product)
    requires p.name != ""
    requires forall i :: 0 <= i < |products| && products[i].id == p.id ==> products[i] == p
    ensures EditInList(products, p.id, FormOf(p)) == products
  {
    var r := EditInList(products, p.id, FormOf(p));
    forall i | 0 <= i < |products|
      ensures r[i] == products[i]
    {
      if products[i].id == p.id {
        assert Apply(p, FormOf(p)) == p;
      }
    }
  }

  /** The dashboard's state. */
  class Dashboard {
    var products: seq<Product>
    var showAddModal: bool
    var editProduct: Option<Product>
    var form: Form

    /** The list starts as the first four sample products. */
    constructor ()
      ensures products == MockData.Products[..4]
      ensures !showAddModal && editProduct == None && form == EmptyForm
    {
      products := MockData.Products[..4];
      showAddModal := false;
      editProduct := None;
      form := EmptyForm;
    }

    /** The add button: a blank form for a new product. */
    method OpenAdd()
      modifies this`editProduct, this`form, this`showAddModal
      ensures editProduct == None && form == EmptyForm && showAddModal
    {
      editProduct := None;
      form := EmptyForm;
      showAddModal := true;
    }

    /** Closing the modal (backdrop or close button) hides it and keeps the form and the edited product. */
    method CloseModal()
      modifies this`showAddModal
      ensures !showAddModal
    {
      showAddModal := false;
    }

    /** Typing into the form. */
    method SetForm(f: Form)
      modifies this`form
      ensures form == f
    {
      form := f;
    }

    /**
     * `handleDelete`: the products with the id go, which lowers the "my
     * products" figure (the length of the list) by their number, and the
     * deletion notice is shown.
     */
    method HandleDelete(id: string, t: string -> string) returns (toast: Toast)
      modifies this`products
      ensures products == RemoveId(old(products), id)
      ensures |products| == |old(products)| - Count(old(products), (p: Product) => p.id == id)
      ensures toast == Success(t("dashboard.productDeleted"))
    {
      RemoveIdCount(products, id);
      products := RemoveId(products, id);
      toast := Success(t("dashboard.productDeleted"));
    }

    /** `handleEdit`: remembers the product, fills the form from it and opens the modal. */
    method HandleEdit(p: Product)
      modifies this`editProduct, this`form, this`showAddModal
      ensures editProduct == Some(p) && form == FormOf(p) && showAddModal
    {
      editProduct := Some(p);
      form := FormOf(p);
      showAddModal := true;
    }

    /**
     * `handleSave`. With a name, price or quantity missing nothing changes
     * and the fill-all error notice is shown. Otherwise, when editing, the
     * products with the edited id take the form's fields and the list keeps
     * its length; when adding, a new product with `freshId` is put in front of
     * the list, one more than before. A successful save shows the updated or
     * added notice, closes the modal, forgets the edited product and empties
     * the form.
     */
    method HandleSave(freshId: string, t: string -> string) returns (saved: bool, toast: Toast)
      modifies this
      ensures saved == Complete(old(form))
      ensures !saved ==>
        && products == old(products) && form == old(form)
        && showAddModal == old(showAddModal) && editProduct == old(editProduct)
        && toast == Error(t("dashboard.fillAll"))
      ensures saved && old(editProduct).Some? ==>
        && products == EditInList(old(products), old(editProduct).value.id, old(form))
        && |products| == |old(products)|
        && toast == Success(t("dashboard.productUpdated"))
      ensures saved && old(editProduct).None? ==>
        && products == [NewProduct(freshId, old(form))] + old(products)
        && |products| == |old(products)| + 1
        && toast == Success(t("dashboard.productAdded"))
      ensures saved ==> !showAddModal && editProduct == None && form == EmptyForm
    {
      if !Complete(form) {
        return false, Error(t("dashboard.fillAll"));
      }
      if editProduct.Some? {
        products := EditInList(products, editProduct.value.id, form);
        toast := Success(t("dashboard.productUpdated"));
      } else {
        var p := NewProduct(freshId, form);
        products := [p] + products;
        toast := Success(t("dashboard.productAdded"));
      }
      showAddModal := false;
      editProduct := None;
      form := EmptyForm;
      saved := true;
    }
  }

  /** Edit then save with the form left as filled: a product whose id is unique comes back as it was. */
  method EditThenSave(d: Dashboard, p: Product, freshId: string, t: string -> string)
    requires p.name != ""
    requires forall i :: 0 <= i < |d.products| && d.products[i].id == p.id ==> d.products[i] == p
    modifies d
    ensures d.products == old(d.products)
    ensures !d.showAddModal && d.editProduct == None && d.form == EmptyForm
  {
    d.HandleEdit(p);
    var saved, toast := d.HandleSave(freshId, t);
    EditUntouchedKeepsList(old(d.products), p);
  }
}
