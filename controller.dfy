/**
 * The backend controller's rules (backend/controllers/controller.js): the
 * product listing transform, the price fallback of product creation, and the
 * credential rules of register and login over the user collection.
 */
module Controller {
  import opened Wrappers

  /** A JavaScript number field: None stands for undefined, null or NaN. */
  type Num = Option<int>

  /** JavaScript truthiness of a number: present, not NaN and not zero. */
  predicate TruthyNum(n: Num) {
    n.Some? && n.value != 0
  }

  /** `a || b` on numbers: `a` when it is truthy, otherwise `b`. */
  function OrNum(a: Num, b: Num): (r: Num)
    ensures TruthyNum(a) ==> r == a
    ensures !TruthyNum(a) ==> r == b
    ensures TruthyNum(r) <==> TruthyNum(a) || TruthyNum(b)
    ensures r == a || r == b
  {
    if TruthyNum(a) then a else b
  }

  /** `s || fallback` on a string field: the empty string counts as missing. */
  function OrString(s: Option<string>, fallback: string): (r: string)
    ensures s.Some? && s.value != "" ==> r == s.value
    ensures s.None? || s.value == "" ==> r == fallback
    ensures r != "" <==> (s.Some? && s.value != "") || fallback != ""
  {
    if s.Some? && s.value != "" then s.value else fallback
  }

  /** The supplier a product document references, after `populate('supplier', 'name email')`. */
  datatype SupplierRef = SupplierRef(id: string, name: string, email: string)

  /** A stored product; `supplier` is None when the referenced user no longer exists. */
  datatype ProductDoc = ProductDoc(
    id: string,
    name: string,
    description: Option<string>,
    price: Num,
    pricePerKg: Num,
    image: Option<string>,
    category: Option<string>,
    unit: Option<string>,
    minOrderQty: Num,
    supplier: Option<SupplierRef>)

  /** One element of the `getProducts` response. */
  datatype ProductView = ProductView(
    id: string,
    name: string,
    pricePerKg: Num,
    supplierId: string,
    supplierName: string,
    category: string,
    unit: string,
    minOrderQty: int,
    description: Option<string>,
    imageUrl: Option<string>)

  /** The fields of a `createProduct` request body. */
  datatype ProductBody = ProductBody(
    name: string,
    description: Option<string>,
    price: Num,
    pricePerKg: Num,
    image: Option<string>,
    category: Option<string>,
    unit: Option<string>,
    minOrderQty: Num)

  /** An error answer: the HTTP status and the `msg` field. */
  datatype Failure = Failure(status: int, msg: string)

  datatype Listing = Listed(products: seq<ProductView>) | ListingFailed(failure: Failure)

  /** The listing transform of one populated product. */
  function ToView(p: ProductDoc): (v: ProductView)
    requires p.supplier.Some?
    ensures v.id == p.id && v.name == p.name && v.imageUrl == p.image && v.description == p.description
    ensures v.supplierId == p.supplier.value.id && v.supplierName == p.supplier.value.name
    ensures v.pricePerKg == (if TruthyNum(p.pricePerKg) then p.pricePerKg else p.price)
    ensures v.category == (if p.category.Some? && p.category.value != "" then p.category.value else "Other")
    ensures v.unit == (if p.unit.Some? && p.unit.value != "" then p.unit.value else "kg")
    ensures v.minOrderQty == (if TruthyNum(p.minOrderQty) then p.minOrderQty.value else 1)
    ensures v.minOrderQty != 0 && v.category != "" && v.unit != ""
  {
    ProductView(
      p.id,
      p.name,
      OrNum(p.pricePerKg, p.price),
      p.supplier.value.id,
      p.supplier.value.name,
      OrString(p.category, "Other"),
      OrString(p.unit, "kg"),
      OrNum(p.minOrderQty, Some(1)).value,
      p.description,
      p.image)
  }

  /**
   * `getProducts`: every product transformed, in store order. A product whose
   * supplier reference is dangling makes the transform read a field of null,
   * which the handler's catch turns into a 500 answer.
   */
  function GetProducts(store: seq<ProductDoc>): (r: Listing)
    ensures r.Listed? <==> forall k :: 0 <= k < |store| ==> store[k].supplier.Some?
    ensures r.Listed? ==> |r.products| == |store|
    ensures r.Listed? ==> forall k :: 0 <= k < |store| ==> r.products[k] == ToView(store[k])
    ensures r.ListingFailed? ==> r.failure.status == 500
  {
    if forall k :: 0 <= k < |store| ==> store[k].supplier.Some? then
      Listed(seq(|store|, k requires 0 <= k < |store| => ToView(store[k])))
    else
      ListingFailed(Failure(500, "Cannot read properties of null (reading '_id')"))
  }

  /** The document `createProduct` saves: `pricePerKg || price` goes into both price fields. */
  function NewProductDoc(body: ProductBody, id: string, supplier: SupplierRef): (d: ProductDoc)
    ensures d.price == d.pricePerKg
    ensures TruthyNum(body.pricePerKg) ==> d.pricePerKg == body.pricePerKg
    ensures !TruthyNum(body.pricePerKg) ==> d.pricePerKg == body.price
    ensures d.name == body.name && d.category == body.category && d.unit == body.unit
    ensures d.minOrderQty == body.minOrderQty && d.supplier == Some(supplier)
    ensures d.description == body.description && d.image == body.image && d.id == id
  {
    var price := OrNum(body.pricePerKg, body.price);
    ProductDoc(id, body.name, body.description, price, price, body.image,
               body.category, body.unit, body.minOrderQty, Some(supplier))
  }

  /**
   * Create-then-list: the price a created product is listed with is the price
   * it was created with, `pricePerKg || price`, whichever field the request used.
   */
  lemma CreatedProductListedPrice(body: ProductBody, id: string, supplier: SupplierRef)
    ensures ToView(NewProductDoc(body, id, supplier)).pricePerKg == OrNum(body.pricePerKg, body.price)
  {
  }

  /** A stored user: `password` is the bcrypt hash. */
  datatype UserDoc = UserDoc(id: string, name: string, email: string, password: string, role: string)

  datatype RegisterBody = RegisterBody(name: string, email: string, password: string, role: Option<string>)

  /** The public part of a user returned by a successful login. */
  datatype LoginUser = LoginUser(id: string, name: string, email: string, role: string)

  datatype Reply = Created(msg: string) | SignedIn(user: LoginUser) | Rejected(failure: Failure)

  /**
   * The user collection, keyed by email (the schema declares email unique).
   * Hashing, token signing and the database are outside the model: the hash
   * and the fresh document id come in as arguments, and `bcrypt.compare` is the
   * predicate `matches(plain, hash)`.
   */
  class UserCollection {
    var byEmail: map<string, UserDoc>

    ghost predicate Valid()
      reads this
    {
      forall e :: e in byEmail ==> byEmail[e].email == e
    }

    constructor ()
      ensures Valid() && byEmail == map[]
    {
      byEmail := map[];
    }

    method Register(body: RegisterBody, hashed: string, newId: string) returns (reply: Reply)
      requires Valid()
      modifies this
      ensures Valid()
      ensures body.email in old(byEmail) ==> reply == Rejected(Failure(400, "User already exists"))
      ensures body.email in old(byEmail) ==> byEmail == old(byEmail)
      ensures body.email !in old(byEmail) ==> reply == Created("User registered successfully")
      ensures body.email !in old(byEmail) ==>
                byEmail == old(byEmail)[body.email := UserDoc(newId, body.name, body.email, hashed, body.role.GetOr("customer"))]
    {
      if body.email in byEmail {
        return Rejected(Failure(400, "User already exists"));
      }
      byEmail := byEmail[body.email := UserDoc(newId, body.name, body.email, hashed, body.role.GetOr("customer"))];
      reply := Created("User registered successfully");
    }

    method Login(email: string, password: string, matches: (string, string) -> bool) returns (reply: Reply)
      requires Valid()
      ensures reply.SignedIn? <==> email in byEmail && matches(password, byEmail[email].password)
      ensures reply.SignedIn? ==> reply.user == LoginUser(byEmail[email].id, byEmail[email].name, email, byEmail[email].role)
      ensures !reply.SignedIn? ==> reply == Rejected(Failure(400, "Invalid credentials"))
    {
      if email !in byEmail {
        return Rejected(Failure(400, "Invalid credentials"));
      }
      var doc := byEmail[email];
      if !matches(password, doc.password) {
        return Rejected(Failure(400, "Invalid credentials"));
      }
      reply := SignedIn(LoginUser(doc.id, doc.name, doc.email, doc.role));
    }
  }
}
