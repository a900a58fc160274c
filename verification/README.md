# Product and customer controllers, modelled in Dafny

This project models the decision logic of the two Express controllers of a
small shop backend:

- the **product controller** (`src/controller/products.controller.js`):
  listing, lookup, creation with required-field and numeric validation,
  partial update, and deletion, with the derived pricing fields
  `unit_price = price - price * discount / 100` and
  `total = quantity * unit_price`;
- the **customer controller** (`src/controller/customer.controller.js`):
  registration with an email/username uniqueness check, login by email,
  profile read, profile update, profile deletion, and the administrators'
  listing.

Each handler is a pure function from an in-memory store and the request
fields to the new store and the HTTP reply (status code plus payload).
`GetAll` for products is a method whose loop builds the newest-first list.

Modules:

| file | module | contents |
|---|---|---|
| `options.dfy` | `Options` | `Option` |
| `js_value.dfy` | `JsValue` | JavaScript values in a request body (`Undefined`, `Null`, `Bool`, `Str`, `Number`), truthiness, `== null`, the `Number(...)` conversion with `NaN` |
| `request.dfy` | `Request` | the `req.user` payload (`username`, `is_admin`) |
| `store.dfy` | `Store` | a collection keyed by ids from a counter (`Db`), insert/overwrite/delete |
| `pricing.dfy` | `Pricing` | the derived pricing fields and a reference definition of consistent pricing |
| `products.dfy` | `Products` | product documents, `normalizeProduct`, the five product handlers |
| `product_lemmas.dfy` | `ProductLemmas` | the pricing invariant and the corner cases of validation and merging |
| `customers.dfy` | `Customers` | customer documents, the reply projections, the six customer handlers |
| `customer_lemmas.dfy` | `CustomerLemmas` | uniqueness, register-then-login, uniform login failure, replies that never depend on a password hash |

Modelling choices:

- A body field is a `JsValue.Value`; a key that is absent reads as
  `Undefined`. `Truthy` is JavaScript truthiness (`""`, `0`, `false`,
  `null`, `undefined` are falsy), so `!x`, `x || y` and `x ? a : b` in the
  handlers become `Truthy` tests.
- `Number(x)` is `JsValue.ToNumber`: `undefined` is `NaN`, `null` and blank
  text are 0, booleans are 0/1, numbers are themselves, and how other text
  reads as a number is a parameter `parse` (`None` meaning `NaN`).
- Numbers are exact reals with an explicit `NaN` (`Numeric`); `NaN` absorbs
  in `-`, `*` and `/ 100`, as in JavaScript.
- bcrypt hashing, bcrypt comparison and JWT signing are the function fields
  `hash`, `matches` and `sign` of `Customers.Crypto`.
- The Cloudinary upload is `upload: Option<string>`: `None` when no file
  was sent, `Some(url)` with the URL the upload returned.
- The `req.user` the auth middleware attaches is `Option<Request.User>`;
  whether a route is gated is decided outside the handlers.
- The Mongoose collections are `Store.Db`, maps from `nat` ids to
  documents, with ids handed out by a counter. Sorting by `_id` is sorting
  by this id, and `Customer.findOne({ email })` returns the lowest matching
  id. The creation timestamp of a customer is a parameter `now`.

Behaviour of the handlers worth knowing:

- Product update converts `quantity`, `price` and `discount` with `Number`
  but has no `isNaN` check, unlike create. The handler hands a `NaN` value,
  and the `NaN` derived fields computed from it, to `findByIdAndUpdate`
  (`ProductLemmas.NonNumericUpdateStoresNaN`). The model's store keeps
  them. Whether Mongoose instead refuses the write, which gives a 500,
  depends on the product schema, which is not part of this model.
- In an update payload, a numeric `0` is falsy and keeps the stored value.
  The text `"0"` is truthy and stores 0 (`ProductLemmas.ZeroInUpdatePayload`).
- Profile update makes no uniqueness check before `customer.save()`. The
  handler can hand the store a customer whose email another customer
  already has (`CustomerLemmas.ProfileUpdateCanDuplicateEmail`). The
  model's store accepts it. Whether a unique index refuses it, which gives
  a 500, depends on the customer schema, which is not part of this model.
- The administrators' listing returns whole customer records, password
  hash included (`CustomerLemmas.ListAllExposesHashes`). The customer
  schema is not part of this model, so nothing hides that field.
- Login tokens carry `customer_id`, `email`, `username`, `phone` and
  `image`, but no `is_admin` claim. The admin check reads `is_admin` from
  whatever the middleware attached.

## Model

| member | source | states |
|---|---|---|
| `Pricing.ComputeDerived` | src/controller/products.controller.js:115-117 | the code's `price - price*discount/100` and `quantity*unit_price` equal the reference `price*(1 - discount/100)` and `quantity*price*(1 - discount/100)`; `NaN` in an input makes what it feeds `NaN`; discount 0 gives unit price = price; quantity 0 gives total 0 |
| `Pricing.ConsistentIsFunctional` | src/controller/products.controller.js:176-178 | consistent derived fields are determined by price, discount and quantity, so recomputing from unchanged inputs reproduces them |
| `JsValue.NumberRoundTrip` | src/controller/products.controller.js:172-174 | `Number` applied to a number gives that number back, whatever the text reader |
| `Store.Insert` | src/controller/products.controller.js:123-134 | a created document gets an id not yet used and greater than every stored id, and nothing else in the collection changes |
| `Products.NormalizeRoundTrip` | src/controller/products.controller.js:22-34 | `normalizeProduct` renames `_id` to `product_id` and copies the ten other fields unchanged: the stored id and document can be read back from it |
| `Products.GetAll` | src/controller/products.controller.js:39-45 | the list holds every stored product, normalized, and nothing else, in strictly decreasing id order (newest first) |
| `Products.GetById` | src/controller/products.controller.js:55-67 | 200 with the normalized product exactly when the id is stored, else 404 "Product not found" |
| `Products.Create` | src/controller/products.controller.js:77-141 | 400 "Missing required fields" with the store unchanged unless name, category, description, quantity and price are truthy and discount is not null/undefined; then 400 "Quantity, price, discount must be numeric" with the store unchanged if any `Number(...)` is `NaN`; otherwise 201 and one product added under a fresh newest id with the converted numbers, consistent pricing, the uploaded image or none, and the token user's name or "Unknown" as creator; other products unchanged |
| `Products.Update` | src/controller/products.controller.js:151-204 | 404 and no change for an unknown id; otherwise only that product changes: each field is replaced only by a truthy payload value (pricing inputs through `Number`), the image only by an upload, the creator only by a named token user, and the derived fields agree with the merged inputs |
| `Products.Remove` | src/controller/products.controller.js:214-227 | 404 and no change for an unknown id; otherwise exactly that product is deleted, the others are untouched, and the reply echoes the id |
| `ProductLemmas.CreatePreservesPricing` | src/controller/products.controller.js:115-134 | if every stored product has consistent derived fields, this still holds after create |
| `ProductLemmas.UpdatePreservesPricing` | src/controller/products.controller.js:171-196 | if every stored product has consistent derived fields, this still holds after update |
| `ProductLemmas.RemovePreservesPricing` | src/controller/products.controller.js:216-221 | if every stored product has consistent derived fields, this still holds after remove |
| `ProductLemmas.EchoUpdateKeepsPricing` | src/controller/products.controller.js:171-178 | an update whose payload repeats the stored values leaves a consistent product's unit price and total unchanged |
| `ProductLemmas.ZeroDiscountIsProvided` | src/controller/products.controller.js:82-93 | a discount of numeric 0 passes the required-field check, a null or missing discount does not |
| `ProductLemmas.ZeroInUpdatePayload` | src/controller/products.controller.js:171-174 | numeric 0 in an update payload keeps the stored quantity; the text "0" sets it to 0 |
| `ProductLemmas.NonNumericUpdateStoresNaN` | src/controller/products.controller.js:172-178 | non-numeric text that create refuses with 400 is converted by update to a `NaN` quantity and `NaN` total, which the handler writes to the store with no check |
| `ProductLemmas.CreateThenGetById` | src/controller/products.controller.js:123-141 | after a 201 create, looking up the new id returns 200 with exactly the product the create reply showed |
| `ProductLemmas.UpdateThenGetById` | src/controller/products.controller.js:183-204 | after an update of a stored id, looking it up returns 200 with exactly the product the update reply showed |
| `ProductLemmas.RemoveThenGetById` | src/controller/products.controller.js:216-227 | after a remove of a stored id, looking it up returns 404 "Product not found" |
| `ProductLemmas.PenExample` | src/controller/products.controller.js:103-134 | creating Pen with quantity 10, price 100, discount 10 stores unit price 90 and total 900 |
| `ProductLemmas.QuantityOnlyUpdateExample` | src/controller/products.controller.js:172-178 | with stored quantity 10, price 100, discount 10, an update with only quantity 5 gives unit price 90 and total 450 |
| `Customers.FindByEmail` | src/controller/customer.controller.js:71 | finds no customer exactly when none has the email; otherwise the earliest-created customer with that email |
| `Customers.Register` | src/controller/customer.controller.js:23-56 | 400 "All fields are required" with no change unless email, username and password are truthy; then 409 "Customer already exists" with no change exactly when some customer has that email or that username; otherwise always 201 and one customer added under a fresh id with the hashed password, no phone and a null image, replying with id, email, username and creation time only |
| `Customers.Login` | src/controller/customer.controller.js:64-101 | 400 unless email and password are truthy; 401 "Invalid email or password" exactly when no customer has the email or the password does not match the hash of the customer found by email; when it matches, always 200; on 200 the token signs id, email, username, phone and image and the reply carries those five fields and the token |
| `Customers.GetProfile` | src/controller/customer.controller.js:109-127 | 404 "Customer not found" for an unknown id, otherwise id, email, username, phone, image and creation time |
| `Customers.UpdateProfile` | src/controller/customer.controller.js:135-166 | 404 and no change for an unknown id; otherwise only that customer changes: username, email and phone only to truthy values, the password only to the hash of a truthy one, the image only to an upload; the reply carries id, email, username, phone and image |
| `Customers.DeleteProfile` | src/controller/customer.controller.js:174-182 | 404 and no change for an unknown id; otherwise exactly that customer is removed and the others are untouched |
| `Customers.ListAll` | src/controller/customer.controller.js:190-197 | 403 "Access denied" exactly when the request's user has no truthy `is_admin`; otherwise 200 with every stored customer record |
| `CustomerLemmas.RegisterPreservesUniqueness` | src/controller/customer.controller.js:31-46 | if emails and usernames are unique before register, they still are after it |
| `CustomerLemmas.DeletePreservesUniqueness` | src/controller/customer.controller.js:178-182 | deleting a profile keeps emails and usernames unique |
| `CustomerLemmas.SecondRegistrationConflicts` | src/controller/customer.controller.js:31-37 | after a successful register, a second one reusing its email or its username gets 409 |
| `CustomerLemmas.RegisterThenLogin` | src/controller/customer.controller.js:39-79 | logging in with the email and password just registered succeeds as the new customer, given that the comparison accepts a password against its own hash |
| `CustomerLemmas.LoginFailuresLookAlike` | src/controller/customer.controller.js:71-77 | an unknown email and a wrong password for a known email get the identical 401 reply |
| `CustomerLemmas.ProfileUpdateCanDuplicateEmail` | src/controller/customer.controller.js:144-155 | a store with unique emails and a profile update that gives one customer another's email: the handler makes no check, replies 200 and hands the store a duplicate email |
| `CustomerLemmas.ListAllExposesHashes` | src/controller/customer.controller.js:192-197 | for an administrator, two stores differing only in one customer's password hash give different listings, so the listing carries the hashes; a non-administrator gets the same 403 from both |
| `CustomerLemmas.ProfileHidesPassword` | src/controller/customer.controller.js:111-127 | the profile reply is the same for two stores that differ only in password hashes |
| `CustomerLemmas.UpdateReplyHidesPassword` | src/controller/customer.controller.js:157-166 | the profile-update reply depends neither on the stored hash nor on the new password |
| `CustomerLemmas.RegisterReplyHidesPassword` | src/controller/customer.controller.js:48-56 | the register reply depends on the password only through whether it is truthy |
| `CustomerLemmas.LoginRevealsOnlyTheMatch` | src/controller/customer.controller.js:79-101 | the login reply depends on the stored hashes only through whether the comparison accepts the password |

## Left out

- Cloudinary upload (`uploadToCloudinary` in both controllers): a network call, replaced by the `upload` parameter. The upload in `create` runs before the numeric check, so a refused create can leave an orphaned image; the model has no blob store to show that.
- bcrypt and JWT: the hash, the comparison and the signature are parameters. Salting, the cost factor of 10 rounds, the signing secret and the 7-day expiry are not modelled. bcrypt's failure on a non-string password is not modelled either; as written that gives a 500.
- The authentication middleware, which decides `req.user`, `req.customer` and which routes are gated, is not part of this model. Token verification and expiry are part of that middleware.
- Mongoose: schema casting and validation (a `NaN` number refused on write), unique indexes (a duplicate email or username refused on save), `ObjectId` parsing of `req.params.id` (a malformed id gives a 500), and the read-then-write and check-then-create races.
- The 500 catch-all branches and `console.error` logging.
- Floating point: prices are exact reals, so float rounding of `unit_price` and `total` and infinite results of `Number` are not modelled.
- JsValue.ToNumber: reading non-blank text as a number is the parameter `parse`, and only ASCII white space is treated as blank. JavaScript's decimal, exponent, hexadecimal and `Infinity` forms are whatever `parse` says.
- Arrays and objects in a request body, including Mongo query operators passed as `email`, are not modelled: body fields are null, undefined, booleans, strings or numbers.
- Products.GetAll: orders by the counter id, which stands in for Mongo's `_id` creation order.
- Customers.FindByEmail: `findOne` returns a document in natural order; the model takes the earliest-created one.
- Customers.ListAll: `Customer.find()` order is unspecified; the listing is the whole map of records.
- Customers.UpdateProfile: Mongoose's `updatedAt` timestamp is not modelled.
- Routing (`src/routes/*.js`) and the server bootstrap (`app.js`).
