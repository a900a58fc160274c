/**
  The product controller: listing, lookup, creation with validation and
  derived pricing, partial update with recomputed pricing, and deletion,
  each as a pure function from a store and the request fields to the new
  store and the HTTP reply.
 */
module Products {
  import opened Options
  import opened JsValue
  import opened Store
  import opened Pricing
  import Request

  /** A stored product document (its id is the key it is stored under). */
  datatype Product = Product(
    name: Value,
    category: Value,
    description: Value,
    quantity: Numeric,
    price: Numeric,
    discount: Numeric,
    unitPrice: Numeric,
    total: Numeric,
    image: Option<string>,
    createdBy: Value)

  /** The public shape of a product: the storage id is renamed to
      `product_id`, the ten other fields are copied. */
  datatype ProductView = ProductView(
    productId: nat,
    name: Value,
    category: Value,
    description: Value,
    quantity: Numeric,
    price: Numeric,
    discount: Numeric,
    unitPrice: Numeric,
    total: Numeric,
    image: Option<string>,
    createdBy: Value)

  type ProductDb = Db<Product>

  /** The six body fields the create and update handlers read. */
  datatype ProductFields = ProductFields(
    name: Value,
    category: Value,
    description: Value,
    quantity: Value,
    price: Value,
    discount: Value)

  datatype Body =
    | Listing(list: seq<ProductView>)
    | Found(product: ProductView)
    | Saved(message: string, product: ProductView)
    | Removed(message: string, deletedId: nat)
    | Failed(error: string)

  datatype Reply = Reply(status: nat, body: Body)

  /** The store after a handler ran, and the reply it sent. */
  datatype Outcome = Outcome(db: ProductDb, reply: Reply)

  const NotFound := "Product not found"
  const MissingFields := "Missing required fields"
  const NotNumeric := "Quantity, price, discount must be numeric"
  const CreatedMessage := "Product created successfully"
  const UpdatedMessage := "Product updated successfully"
  const DeletedMessage := "Product deleted successfully"
  const UnknownCreator := "Unknown"

  /** The derived fields agree with the pricing inputs. */
  ghost predicate Priced(p: Product) {
    Consistent(p.price, p.discount, p.quantity, Derived(p.unitPrice, p.total))
  }

  /** The central invariant: every stored product is consistently priced. */
  ghost predicate AllPriced(db: ProductDb) {
    forall id :: id in db.rows ==> Priced(db.rows[id])
  }

  /** `normalizeProduct`. */
  function Normalize(id: nat, p: Product): ProductView {
    ProductView(id, p.name, p.category, p.description, p.quantity, p.price,
                p.discount, p.unitPrice, p.total, p.image, p.createdBy)
  }

  /** Reads a public product back into its id and stored document. */
  function Denormalize(v: ProductView): (nat, Product) {
    (v.productId, Product(v.name, v.category, v.description, v.quantity, v.price,
                          v.discount, v.unitPrice, v.total, v.image, v.createdBy))
  }

  /** The projection loses nothing: it only renames the id field. */
  lemma NormalizeRoundTrip(id: nat, p: Product)
    ensures Denormalize(Normalize(id, p)) == (id, p)
    ensures Normalize(id, p).productId == id
  {
  }

  /** `req.user?.username` is truthy. */
  predicate NamedUser(user: Option<Request.User>) {
    user.Some? && Truthy(user.value.username)
  }

  /** `req.user?.username || fallback`. */
  function CreatorOr(user: Option<Request.User>, fallback: Value): Value {
    if NamedUser(user) then user.value.username else fallback
  }

  /** The required-field test of `create`: five fields must be truthy, while
      `discount` only has to be other than `null`/`undefined`. */
  predicate HasRequiredFields(b: ProductFields) {
    && Truthy(b.name)
    && Truthy(b.category)
    && Truthy(b.description)
    && Truthy(b.quantity)
    && Truthy(b.price)
    && !IsNullish(b.discount)
  }

  /** None of `Number(quantity)`, `Number(price)`, `Number(discount)` is `NaN`. */
  predicate AllNumeric(b: ProductFields, parse: string -> Option<real>) {
    && ToNumber(b.quantity, parse).Finite?
    && ToNumber(b.price, parse).Finite?
    && ToNumber(b.discount, parse).Finite?
  }

  /** What `create` stores: the descriptive fields as sent, the converted
      (finite) pricing inputs, consistent derived fields, the uploaded image
      or none, and the token user's name or "Unknown" as creator. */
  ghost predicate BuiltFrom(p: Product, body: ProductFields, user: Option<Request.User>,
                            upload: Option<string>, parse: string -> Option<real>) {
    && p.name == body.name && p.category == body.category
    && p.description == body.description
    && p.quantity == ToNumber(body.quantity, parse)
    && p.price == ToNumber(body.price, parse)
    && p.discount == ToNumber(body.discount, parse)
    && p.quantity.Finite? && p.price.Finite? && p.discount.Finite?
    && Priced(p)
    && p.image == upload
    && (NamedUser(user) ==> p.createdBy == user.value.username)
    && (!NamedUser(user) ==> p.createdBy == Str(UnknownCreator))
  }

  /** A product built from pricing inputs, with its derived fields computed. */
  function Priced3(name: Value, category: Value, description: Value,
                   quantity: Numeric, price: Numeric, discount: Numeric,
                   image: Option<string>, createdBy: Value): (p: Product)
    ensures Priced(p)
  {
    var d := ComputeDerived(price, discount, quantity);
    Product(name, category, description, quantity, price, discount,
            d.unitPrice, d.total, image, createdBy)
  }

  /** `getById`: the stored product, normalized, or 404. */
  function GetById(db: ProductDb, id: nat): (r: Reply)
    ensures r.status == 200 <==> id in db.rows
    ensures id in db.rows ==> r.body == Found(Normalize(id, db.rows[id]))
    ensures id !in db.rows ==> r == Reply(404, Failed(NotFound))
  {
    if id in db.rows then Reply(200, Found(Normalize(id, db.rows[id])))
    else Reply(404, Failed(NotFound))
  }

  /** `getAll`: every stored product, normalized, newest (highest id) first. */
  method GetAll(db: ProductDb) returns (r: Reply)
    ensures r.status == 200 && r.body.Listing?
    ensures forall i, j :: 0 <= i < j < |r.body.list| ==>
              r.body.list[i].productId > r.body.list[j].productId
    ensures forall v :: v in r.body.list ==>
              v.productId in db.rows && v == Normalize(v.productId, db.rows[v.productId])
    ensures forall id :: id in db.rows ==> Normalize(id, db.rows[id]) in r.body.list
  {
    var list: seq<ProductView> := [];
    var i := db.nextId;
    while i > 0
      invariant i <= db.nextId
      invariant forall a, b :: 0 <= a < b < |list| ==> list[a].productId > list[b].productId
      invariant forall a :: 0 <= a < |list| ==> list[a].productId >= i
      invariant forall v :: v in list ==>
                  v.productId in db.rows && v == Normalize(v.productId, db.rows[v.productId])
      invariant forall id :: id in db.rows && id >= i ==> Normalize(id, db.rows[id]) in list
    {
      i := i - 1;
      if i in db.rows {
        list := list + [Normalize(i, db.rows[i])];
      }
    }
    r := Reply(200, Listing(list));
  }

  /** `create`. Missing fields, then non-numeric pricing inputs, are refused
      with 400 and store nothing; otherwise one product is stored under a
      fresh id newer than every existing one, with the converted numbers,
      consistent derived pricing, the uploaded image (or none) and the
      token user's name (or "Unknown") as creator. */
  function Create(db: ProductDb, body: ProductFields, user: Option<Request.User>,
                  upload: Option<string>, parse: string -> Option<real>): (out: Outcome)
    ensures !HasRequiredFields(body) ==> out == Outcome(db, Reply(400, Failed(MissingFields)))
    ensures HasRequiredFields(body) && !AllNumeric(body, parse) ==>
              out == Outcome(db, Reply(400, Failed(NotNumeric)))
    ensures out.reply.status == 201 <==> HasRequiredFields(body) && AllNumeric(body, parse)
    ensures out.reply.status == 201 ==>
              && out.reply.body.Saved?
              && var id := out.reply.body.product.productId;
                 && id !in db.rows
                 && (forall k :: k in db.rows ==> k < id)
                 && id in out.db.rows
                 && out.db.rows == db.rows[id := out.db.rows[id]]
                 && out.reply.body == Saved(CreatedMessage, Normalize(id, out.db.rows[id]))
                 && BuiltFrom(out.db.rows[id], body, user, upload, parse)
  {
    if !HasRequiredFields(body) then
      Outcome(db, Reply(400, Failed(MissingFields)))
    else
      var qty := ToNumber(body.quantity, parse);
      var pr := ToNumber(body.price, parse);
      var disc := ToNumber(body.discount, parse);
      if qty.NaN? || pr.NaN? || disc.NaN? then
        Outcome(db, Reply(400, Failed(NotNumeric)))
      else
        var p := Priced3(body.name, body.category, body.description, qty, pr, disc,
                         upload, CreatorOr(user, Str(UnknownCreator)));
        var (db', id) := Insert(db, p);
        Outcome(db', Reply(201, Saved(CreatedMessage, Normalize(id, p))))
  }

  /** The fields of `stored` after merging the update payload: a pricing input
      or a descriptive field is taken from the payload only when it is
      truthy, the image only when a file was uploaded, and the derived
      fields are recomputed from the merged triple. */
  function Merge(stored: Product, body: ProductFields, user: Option<Request.User>,
                 upload: Option<string>, parse: string -> Option<real>): Product
  {
    var qty := if Truthy(body.quantity) then ToNumber(body.quantity, parse) else stored.quantity;
    var pr := if Truthy(body.price) then ToNumber(body.price, parse) else stored.price;
    var disc := if Truthy(body.discount) then ToNumber(body.discount, parse) else stored.discount;
    Priced3(
      if Truthy(body.name) then body.name else stored.name,
      if Truthy(body.category) then body.category else stored.category,
      if Truthy(body.description) then body.description else stored.description,
      qty, pr, disc,
      if upload.Some? then upload else stored.image,
      CreatorOr(user, stored.createdBy))
  }

  /** `update`. An unknown id gives 404 and changes nothing. Otherwise only
      the product under `id` changes: each field is overwritten only by a
      truthy payload value (pricing inputs through `Number`, with no `NaN`
      check), the image only by an upload, the creator only by a named
      token user, and the derived pricing always agrees with the merged
      inputs. */
  function Update(db: ProductDb, id: nat, body: ProductFields, user: Option<Request.User>,
                  upload: Option<string>, parse: string -> Option<real>): (out: Outcome)
    ensures id !in db.rows ==> out == Outcome(db, Reply(404, Failed(NotFound)))
    ensures id in db.rows ==>
              && out.reply.status == 200
              && out.db.rows.Keys == db.rows.Keys
              && (forall k :: k in db.rows && k != id ==> out.db.rows[k] == db.rows[k])
              && var stored, p := db.rows[id], out.db.rows[id];
                 && out.reply.body == Saved(UpdatedMessage, Normalize(id, p))
                 && (Truthy(body.name) ==> p.name == body.name)
                 && (!Truthy(body.name) ==> p.name == stored.name)
                 && (Truthy(body.category) ==> p.category == body.category)
                 && (!Truthy(body.category) ==> p.category == stored.category)
                 && (Truthy(body.description) ==> p.description == body.description)
                 && (!Truthy(body.description) ==> p.description == stored.description)
                 && (Truthy(body.quantity) ==> p.quantity == ToNumber(body.quantity, parse))
                 && (!Truthy(body.quantity) ==> p.quantity == stored.quantity)
                 && (Truthy(body.price) ==> p.price == ToNumber(body.price, parse))
                 && (!Truthy(body.price) ==> p.price == stored.price)
                 && (Truthy(body.discount) ==> p.discount == ToNumber(body.discount, parse))
                 && (!Truthy(body.discount) ==> p.discount == stored.discount)
                 && (upload.Some? ==> p.image == upload)
                 && (upload.None? ==> p.image == stored.image)
                 && (NamedUser(user) ==> p.createdBy == user.value.username)
                 && (!NamedUser(user) ==> p.createdBy == stored.createdBy)
                 && Priced(p)
  {
    if id !in db.rows then
      Outcome(db, Reply(404, Failed(NotFound)))
    else
      var p := Merge(db.rows[id], body, user, upload, parse);
      Outcome(Put(db, id, p), Reply(200, Saved(UpdatedMessage, Normalize(id, p))))
  }

  /** `remove`: 404 and no change for an unknown id; otherwise exactly that
      product is deleted and the others are untouched. */
  function Remove(db: ProductDb, id: nat): (out: Outcome)
    ensures id !in db.rows ==> out == Outcome(db, Reply(404, Failed(NotFound)))
    ensures id in db.rows ==>
              && out.reply == Reply(200, Removed(DeletedMessage, id))
              && out.db.rows.Keys == db.rows.Keys - {id}
              && (forall k :: k in out.db.rows ==> out.db.rows[k] == db.rows[k])
  {
    if id !in db.rows then Outcome(db, Reply(404, Failed(NotFound)))
    else Outcome(Delete(db, id), Reply(200, Removed(DeletedMessage, id)))
  }
}
