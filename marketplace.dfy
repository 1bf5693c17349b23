/**
 * The marketplace page: the sample catalogue filtered by category, the
 * product details modal, and the cart drawer. The cart itself belongs to a
 * cart store that is not part of this model; the page only reads its items
 * and totals and sends it requests, which are modelled as values.
 */
module Marketplace {
  import opened Wrappers
  import opened Seqs
  import opened Toasts
  import MockData
  import Navbar

  type Product = MockData.Product

  /** The filter buttons; `"all"` shows the whole catalogue. */
  const Categories: seq<string> := ["all", "vegetables", "fruits", "grains", "spices", "dairy"]

  /** `filtered`: under `"all"` the whole catalogue, otherwise exactly its products of that category, in order. */
  function Filtered(filter: string): (r: seq<Product>)
    ensures filter == "all" ==> r == MockData.Products
    ensures filter != "all" ==>
      forall i :: 0 <= i < |r| ==> r[i] in MockData.Products && r[i].category == filter
    ensures filter != "all" ==>
      forall i :: 0 <= i < |MockData.Products| && MockData.Products[i].category == filter ==>
        MockData.Products[i] in r
  {
    if filter == "all" then MockData.Products
    else Filter(MockData.Products, (p: Product) => p.category == filter)
  }

  /** Every sample product belongs to one of the category filters, so no product is reachable only through `"all"`. */
  lemma CatalogueCategoriesKnown()
    ensures forall i :: 0 <= i < |MockData.Products| ==>
      MockData.Products[i].category in Categories && MockData.Products[i].category != "all"
  {
  }

  /** What the page hands to the cart store's `addItem`. */
  datatype CartCandidate = CartCandidate(id: string, name: string, price: int, image: string, farmer: string)

  /** A cart line as the drawer reads it. */
  datatype CartItem = CartItem(id: string, name: string, price: int, image: string, quantity: int)

  /** The calls the page makes on the cart store. */
  datatype CartRequest =
    | AddItem(candidate: CartCandidate)
    | UpdateQuantity(id: string, quantity: int)
    | RemoveItem(id: string)

  /** `handleAddToCart`: the product's id, name, price, image and farmer, passed on unchanged. */
  function ToCandidate(p: Product): (c: CartCandidate)
    ensures c.id == p.id && c.name == p.name && c.price == p.price
    ensures c.image == p.image && c.farmer == p.farmer
  {
    CartCandidate(p.id, p.name, p.price, p.image, p.farmer)
  }

  /** The minus button asks for one less of the line. */
  function MinusRequest(item: CartItem): (r: CartRequest)
    ensures r.UpdateQuantity? && r.id == item.id && r.quantity + 1 == item.quantity
  {
    UpdateQuantity(item.id, item.quantity - 1)
  }

  /** The plus button asks for one more of the line. */
  function PlusRequest(item: CartItem): (r: CartRequest)
    ensures r.UpdateQuantity? && r.id == item.id && r.quantity == item.quantity + 1
  {
    UpdateQuantity(item.id, item.quantity + 1)
  }

  /** The remove button asks for the line to go. */
  function RemoveRequest(item: CartItem): (r: CartRequest)
    ensures r.RemoveItem? && r.id == item.id
  {
    RemoveItem(item.id)
  }

  /**
   * The price shown on a line: unit price times quantity. A single unit shows
   * its price, an emptied line shows nothing owed, and a line never shows a
   * negative amount for a non-negative price and quantity.
   */
  function LineTotal(item: CartItem): (total: int)
    ensures item.quantity == 1 ==> total == item.price
    ensures item.quantity == 0 ==> total == 0
    ensures item.price >= 0 && item.quantity >= 0 ==> total >= 0
  {
    item.price * item.quantity
  }

  /** One more of a line adds one unit price to its total, one less takes one away. */
  lemma LineTotalSteps(item: CartItem)
    ensures LineTotal(item.(quantity := PlusRequest(item).quantity)) == LineTotal(item) + item.price
    ensures LineTotal(item.(quantity := MinusRequest(item).quantity)) == LineTotal(item) - item.price
  {
    assert item.price * (item.quantity + 1) == item.price * item.quantity + item.price;
    assert item.price * (item.quantity - 1) == item.price * item.quantity - item.price;
  }

  /**
   * The count badge on the page's cart button: it appears for a non-empty
   * cart only, and so agrees with the navigation bar's badge, which is shown
   * on this page.
   */
  function BadgeShown(totalItems: int): (shown: bool)
    ensures shown <==> totalItems > 0
    ensures shown <==> Navbar.CartBadgeShown("/marketplace", totalItems)
  {
    totalItems > 0
  }

  /** One line of the drawer: the cart line and the amount shown beside it. */
  datatype DrawerLine = DrawerLine(item: CartItem, shownTotal: int)

  /** What the open drawer lists: the empty-cart message, or one line per cart item. */
  datatype DrawerView = EmptyMessage | Lines(lines: seq<DrawerLine>)

  /**
   * The drawer's contents: the empty-cart message exactly when the cart has
   * no lines; otherwise every cart line in order with its line total.
   */
  function Drawer(items: seq<CartItem>): (v: DrawerView)
    ensures v.EmptyMessage? <==> |items| == 0
    ensures v.Lines? ==> |v.lines| == |items| && forall i :: 0 <= i < |items| ==>
      v.lines[i].item == items[i] && v.lines[i].shownTotal == LineTotal(items[i])
  {
    if |items| == 0 then EmptyMessage
    else Lines(seq(|items|, i requires 0 <= i < |items| => DrawerLine(items[i], LineTotal(items[i]))))
  }

  /** The notice the checkout button shows in place of a payment. */
  const CheckoutNotice: Toast := Success("Checkout coming soon with Razorpay!")

  /** The page's own state: the filter, the product open in the details modal, and whether the drawer is open. */
  class MarketplacePage {
    var filter: string
    var selectedProduct: Option<Product>
    var cartOpen: bool

    constructor ()
      ensures filter == "all" && selectedProduct == None && !cartOpen
    {
      filter := "all";
      selectedProduct := None;
      cartOpen := false;
    }

    method SetFilter(f: string)
      modifies this`filter
      ensures filter == f
    {
      filter := f;
    }

    method OpenDetails(p: Product)
      modifies this`selectedProduct
      ensures selectedProduct == Some(p)
    {
      selectedProduct := Some(p);
    }

    method CloseDetails()
      modifies this`selectedProduct
      ensures selectedProduct == None
    {
      selectedProduct := None;
    }

    method SetCartOpen(open: bool)
      modifies this`cartOpen
      ensures cartOpen == open
    {
      cartOpen := open;
    }

    /**
     * The add button on a card: one request to the cart store and a success
     * notice naming the product, with no change to the page.
     */
    method AddToCart(p: Product, t: string -> string) returns (r: CartRequest, toast: Toast)
      ensures r == AddItem(ToCandidate(p))
      ensures toast == Success(p.name + " " + t("marketplace.addToCart") + "!")
    {
      r := AddItem(ToCandidate(p));
      toast := Success(p.name + " " + t("marketplace.addToCart") + "!");
    }

    /** The add button in the details modal: adds the product shown, with its notice, and closes the modal. */
    method AddFromDetails(t: string -> string) returns (r: CartRequest, toast: Toast)
      requires selectedProduct.Some?
      modifies this`selectedProduct
      ensures r == AddItem(ToCandidate(old(selectedProduct).value))
      ensures toast == Success(old(selectedProduct).value.name + " " + t("marketplace.addToCart") + "!")
      ensures selectedProduct == None
    {
      r, toast := AddToCart(selectedProduct.value, t);
      selectedProduct := None;
    }

    /** The checkout button in the drawer: only the notice, nothing is paid and the cart is kept. */
    method Checkout() returns (toast: Toast)
      ensures toast.Success? && toast.message == "Checkout coming soon with Razorpay!"
    {
      toast := CheckoutNotice;
    }
  }
}
