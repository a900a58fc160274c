/**
  Properties of the product controller that relate several calls or
  fix concrete inputs: the pricing invariant, idempotent re-pricing, the
  JavaScript corner cases of validation and merging, lookup after
  creation, and two examples.
 */
module ProductLemmas {
  import opened Options
  import opened JsValue
  import opened Pricing
  import opened Products
  import Request

  /** Creating a product keeps every stored product consistently priced. */
  lemma CreatePreservesPricing(db: ProductDb, body: ProductFields, user: Option<Request.User>,
                               upload: Option<string>, parse: string -> Option<real>)
    requires AllPriced(db)
    ensures AllPriced(Create(db, body, user, upload, parse).db)
  {
  }

  /** Updating a product keeps every stored product consistently priced;
      the updated one is consistent even if it was not before. */
  lemma UpdatePreservesPricing(db: ProductDb, id: nat, body: ProductFields, user: Option<Request.User>,
                               upload: Option<string>, parse: string -> Option<real>)
    requires AllPriced(db)
    ensures AllPriced(Update(db, id, body, user, upload, parse).db)
  {
  }

  /** Removing a product keeps every remaining product consistently priced. */
  lemma RemovePreservesPricing(db: ProductDb, id: nat)
    requires AllPriced(db)
    ensures AllPriced(Remove(db, id).db)
  {
  }

  /** The payload that repeats a stored product's own field values. */
  function Echo(p: Product): ProductFields {
    ProductFields(p.name, p.category, p.description,
                  FromNumeric(p.quantity), FromNumeric(p.price), FromNumeric(p.discount))
  }

  /** An update whose payload equals the stored values leaves the derived
      fields of a consistently priced product as they were. */
  lemma EchoUpdateKeepsPricing(db: ProductDb, id: nat, user: Option<Request.User>,
                                                  upload: Option<string>, parse: string -> Option<real>)
    requires id in db.rows && Priced(db.rows[id])
    ensures var before, after := db.rows[id], Update(db, id, Echo(db.rows[id]), user, upload, parse).db.rows[id];
            after.unitPrice == before.unitPrice && after.total == before.total
  {
    var before := db.rows[id];
    var after := Update(db, id, Echo(before), user, upload, parse).db.rows[id];
    NumberRoundTrip(before.quantity, parse);
    NumberRoundTrip(before.price, parse);
    NumberRoundTrip(before.discount, parse);
    assert after.quantity == before.quantity;
    assert after.price == before.price;
    assert after.discount == before.discount;
    ConsistentIsFunctional(before.price, before.discount, before.quantity,
                           Derived(before.unitPrice, before.total), Derived(after.unitPrice, after.total));
  }

  /** A discount of numeric 0 counts as provided on create, where a missing
      or null discount does not. */
  lemma ZeroDiscountIsProvided(name: Value, category: Value, description: Value, quantity: Value, price: Value)
    requires Truthy(name) && Truthy(category) && Truthy(description) && Truthy(quantity) && Truthy(price)
    ensures HasRequiredFields(ProductFields(name, category, description, quantity, price, Number(0.0)))
    ensures !HasRequiredFields(ProductFields(name, category, description, quantity, price, Undefined))
    ensures !HasRequiredFields(ProductFields(name, category, description, quantity, price, Null))
  {
  }

  /** A numeric 0 in an update payload is falsy and keeps the stored value,
      whereas the text "0" is truthy and stores 0. */
  lemma ZeroInUpdatePayload(db: ProductDb, id: nat, user: Option<Request.User>,
                            upload: Option<string>, parse: string -> Option<real>)
    requires id in db.rows
    requires parse("0") == Some(0.0)
    ensures var p := db.rows[id];
            var kept := Update(db, id, ProductFields(Undefined, Undefined, Undefined, Number(0.0), Undefined, Undefined), user, upload, parse);
            var zeroed := Update(db, id, ProductFields(Undefined, Undefined, Undefined, Str("0"), Undefined, Undefined), user, upload, parse);
            kept.db.rows[id].quantity == p.quantity && zeroed.db.rows[id].quantity == Finite(0.0)
  {
    assert !IsBlank("0") by { assert !IsSpace("0"[0]); }
  }

  /** Text that does not read as a number is refused by create, while
      update, which has no `isNaN` check, hands a `NaN` quantity and a
      `NaN` total to the store. */
  lemma NonNumericUpdateStoresNaN(db: ProductDb, id: nat, body: ProductFields, user: Option<Request.User>,
                                  upload: Option<string>, parse: string -> Option<real>)
    requires id in db.rows
    requires body.quantity.Str? && !IsBlank(body.quantity.s) && parse(body.quantity.s) == None
    ensures HasRequiredFields(body) ==> Create(db, body, user, upload, parse).reply.status == 400
    ensures var p := Update(db, id, body, user, upload, parse).db.rows[id];
            p.quantity == NaN && p.total == NaN
  {
  }

  /** An example: Pen, quantity 10, price 100, discount 10 is stored
      with unit price 90 and total 900. */
  lemma PenExample(db: ProductDb, user: Option<Request.User>, parse: string -> Option<real>)
    ensures var out := Create(db, ProductFields(Str("Pen"), Str("Stationery"), Str("Blue ink"),
                                                Number(10.0), Number(100.0), Number(10.0)), user, None, parse);
            && out.reply.status == 201
            && out.reply.body.product.unitPrice == Finite(90.0)
            && out.reply.body.product.total == Finite(900.0)
  {
  }

  /** An example of a partial update: a stored product with quantity 10,
      price 100 and discount 10 updated with only quantity 5 keeps unit
      price 90 and gets total 450. */
  lemma QuantityOnlyUpdateExample(db: ProductDb, id: nat, user: Option<Request.User>, parse: string -> Option<real>)
    requires id in db.rows
    requires db.rows[id].quantity == Finite(10.0)
    requires db.rows[id].price == Finite(100.0)
    requires db.rows[id].discount == Finite(10.0)
    ensures var out := Update(db, id, ProductFields(Undefined, Undefined, Undefined, Number(5.0), Undefined, Undefined),
                              user, None, parse);
            && out.reply.body.product.unitPrice == Finite(90.0)
            && out.reply.body.product.total == Finite(450.0)
  {
  }

  /** A product just created is found by its new id, with the very fields
      the create reply showed. */
  lemma CreateThenGetById(db: ProductDb, body: ProductFields, user: Option<Request.User>,
                          upload: Option<string>, parse: string -> Option<real>)
    requires Create(db, body, user, upload, parse).reply.status == 201
    ensures var out := Create(db, body, user, upload, parse);
            GetById(out.db, out.reply.body.product.productId) == Reply(200, Found(out.reply.body.product))
  {
  }

  /** Lookup reads what update wrote: after a successful update, the
      product under that id is the one the update reply showed. */
  lemma UpdateThenGetById(db: ProductDb, id: nat, body: ProductFields, user: Option<Request.User>,
                          upload: Option<string>, parse: string -> Option<real>)
    requires id in db.rows
    ensures var out := Update(db, id, body, user, upload, parse);
            GetById(out.db, id) == Reply(200, Found(out.reply.body.product))
  {
  }

  /** After a remove succeeds, the id is no longer found. */
  lemma RemoveThenGetById(db: ProductDb, id: nat)
    requires id in db.rows
    ensures GetById(Remove(db, id).db, id) == Reply(404, Failed(NotFound))
  {
  }
}
