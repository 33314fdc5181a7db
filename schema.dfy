/**
 * The storefront's tables as records: products, orders, customers, inventory
 * log entries, reviews, carts and cart items. "Insert" records are what a
 * caller may supply: the columns the insert schemas omit (ids, timestamps and
 * a product's barcode) are absent, and columns with a default are optional.
 * Money columns are decimals with scale 2 and are held as integer cents.
 * Timestamps are milliseconds; ids are handed out by the store.
 */
module Schema {
  import opened Wrappers

  type Id = nat
  type Time = int
  type Cents = int

  /** One day in milliseconds. */
  const DayMillis := 1000 * 60 * 60 * 24

  datatype Address = Address(street: string, city: string, emirate: string, zipCode: string)

  datatype Product = Product(
    id: Id,
    name: string,
    description: string,
    price: Cents,
    categoryId: string,
    stock: int,
    images: seq<string>,
    specifications: map<string, string>,
    barcode: string,
    isActive: bool,
    createdAt: Time,
    updatedAt: Time)

  /** The product insert shape: no id, createdAt, updatedAt or barcode. */
  datatype NewProduct = NewProduct(
    name: string,
    description: string,
    price: Cents,
    categoryId: string,
    stock: Option<int>,
    images: Option<seq<string>>,
    specifications: Option<map<string, string>>,
    isActive: Option<bool>)

  /** A partial product insert shape: every field may be left out. */
  datatype ProductPatch = ProductPatch(
    name: Option<string>,
    description: Option<string>,
    price: Option<Cents>,
    categoryId: Option<string>,
    stock: Option<int>,
    images: Option<seq<string>>,
    specifications: Option<map<string, string>>,
    isActive: Option<bool>)

  const EmptyPatch := ProductPatch(None, None, None, None, None, None, None, None)

  /**
   * A stored product built from an insert record: the column defaults of the
   * products table fill what the caller left out (stock 0, no images, no
   * specifications, active).
   */
  function ProductFromInsert(id: Id, input: NewProduct, barcode: string, now: Time): Product
  {
    Product(
      id, input.name, input.description, input.price, input.categoryId,
      input.stock.GetOr(0), input.images.GetOr([]), input.specifications.GetOr(map[]),
      barcode, input.isActive.GetOr(true), now, now)
  }

  lemma ProductDefaults(id: Id, input: NewProduct, barcode: string, now: Time)
    requires input.stock.None? && input.images.None?
    requires input.specifications.None? && input.isActive.None?
    ensures var p := ProductFromInsert(id, input, barcode, now);
      p.stock == 0 && p.images == [] && p.specifications == map[] && p.isActive
  {
  }

  /** Inserting keeps every supplied value and the caller cannot choose id or barcode. */
  lemma ProductInsertKeepsInput(id: Id, input: NewProduct, barcode: string, now: Time)
    ensures var p := ProductFromInsert(id, input, barcode, now);
      && p.id == id && p.barcode == barcode && p.createdAt == now && p.updatedAt == now
      && p.name == input.name && p.description == input.description
      && p.price == input.price && p.categoryId == input.categoryId
      && (input.stock.Some? ==> p.stock == input.stock.value)
      && (input.images.Some? ==> p.images == input.images.value)
      && (input.specifications.Some? ==> p.specifications == input.specifications.value)
      && (input.isActive.Some? ==> p.isActive == input.isActive.value)
  {
  }

  /** A partial update: every field present in the patch overwrites, and updatedAt becomes `now`. */
  function PatchProduct(p: Product, patch: ProductPatch, now: Time): Product
  {
    p.(name := patch.name.GetOr(p.name),
       description := patch.description.GetOr(p.description),
       price := patch.price.GetOr(p.price),
       categoryId := patch.categoryId.GetOr(p.categoryId),
       stock := patch.stock.GetOr(p.stock),
       images := patch.images.GetOr(p.images),
       specifications := patch.specifications.GetOr(p.specifications),
       isActive := patch.isActive.GetOr(p.isActive),
       updatedAt := now)
  }

  /** A patch touches only the fields it names, plus updatedAt. */
  lemma PatchTouchesOnlyNamedFields(p: Product, patch: ProductPatch, now: Time)
    ensures var q := PatchProduct(p, patch, now);
      && q.id == p.id && q.barcode == p.barcode && q.createdAt == p.createdAt
      && q.updatedAt == now
      && (if patch.name.Some? then q.name == patch.name.value else q.name == p.name)
      && (if patch.description.Some? then q.description == patch.description.value
          else q.description == p.description)
      && (if patch.price.Some? then q.price == patch.price.value else q.price == p.price)
      && (if patch.categoryId.Some? then q.categoryId == patch.categoryId.value
          else q.categoryId == p.categoryId)
      && (if patch.stock.Some? then q.stock == patch.stock.value else q.stock == p.stock)
      && (if patch.images.Some? then q.images == patch.images.value else q.images == p.images)
      && (if patch.specifications.Some? then q.specifications == patch.specifications.value
          else q.specifications == p.specifications)
      && (if patch.isActive.Some? then q.isActive == patch.isActive.value
          else q.isActive == p.isActive)
  {
  }

  /** An empty patch changes nothing but updatedAt. */
  lemma EmptyPatchOnlyStamps(p: Product, now: Time)
    ensures PatchProduct(p, EmptyPatch, now) == p.(updatedAt := now)
  {
  }

  datatype OrderLine = OrderLine(productId: Id, quantity: int, price: Cents, productName: string)

  datatype Order = Order(
    id: Id,
    customerName: string,
    customerEmail: string,
    customerPhone: Option<string>,
    shippingAddress: Option<Address>,
    totalAmount: Cents,
    status: string,
    paymentStatus: Option<string>,
    trackingNumber: Option<string>,
    items: seq<OrderLine>,
    createdAt: Option<Time>,
    updatedAt: Option<Time>)

  /** The order insert shape: no id or timestamps; status and payment status have defaults. */
  datatype NewOrder = NewOrder(
    customerName: string,
    customerEmail: string,
    customerPhone: Option<string>,
    shippingAddress: Option<Address>,
    totalAmount: Cents,
    status: Option<string>,
    paymentStatus: Option<string>,
    trackingNumber: Option<string>,
    items: seq<OrderLine>)

  /** The default of both the status and the payment-status column. */
  const Pending := "pending"

  datatype Customer = Customer(
    id: Id,
    name: string,
    email: string,
    phone: Option<string>,
    address: Option<Address>,
    totalOrders: int,
    totalSpent: Cents,
    createdAt: Option<Time>,
    lastOrderAt: Option<Time>)

  datatype NewCustomer = NewCustomer(
    name: string,
    email: string,
    phone: Option<string>,
    address: Option<Address>,
    totalOrders: Option<int>,
    totalSpent: Option<Cents>,
    lastOrderAt: Option<Time>)

  /** A stored customer: totalOrders defaults to 0 and totalSpent to "0.00". */
  function CustomerFromInsert(id: Id, input: NewCustomer, now: Time): (c: Customer)
    ensures input.totalOrders.None? ==> c.totalOrders == 0
    ensures input.totalSpent.None? ==> c.totalSpent == 0
    ensures c.email == input.email && c.id == id
  {
    Customer(id, input.name, input.email, input.phone, input.address,
             input.totalOrders.GetOr(0), input.totalSpent.GetOr(0), Some(now), input.lastOrderAt)
  }

  /** The documented values of an inventory log's action column. */
  datatype Action = Add | Remove | Sale | Adjustment

  function ActionName(a: Action): string
  {
    match a
    case Add => "add"
    case Remove => "remove"
    case Sale => "sale"
    case Adjustment => "adjustment"
  }

  datatype InventoryLog = InventoryLog(
    id: Id,
    productId: Id,
    action: Action,
    quantity: int,
    previousStock: int,
    newStock: int,
    reason: Option<string>,
    createdAt: Time)

  datatype Review = Review(
    id: Id,
    productId: Id,
    userName: string,
    rating: int,
    comment: string,
    isVerified: bool,
    createdAt: Option<Time>)

  /** The review insert shape: no id or createdAt; isVerified has a default. */
  datatype NewReview = NewReview(
    productId: Id,
    userName: string,
    rating: int,
    comment: string,
    isVerified: Option<bool>)

  /** A shopping cart; its table is not declared in the schema file. */
  datatype Cart = Cart(id: Id, userId: Id)

  /** A line of a cart; its table is not declared in the schema file. */
  datatype CartItem = CartItem(id: Id, cartId: Id, productId: Id, quantity: int, priceAtTime: Cents)
}
