/** The product-catalogue handlers: creating, updating, deleting and reading
    products, which are addressed by SKU. */
module Products {
  import opened Common
  import opened Db

  /** The fields of a product request body, as sent. */
  datatype ProductInput = ProductInput(
    sku: Option<string>,
    name: Option<string>,
    description: Option<string>,
    price: Json,
    stockQuantity: Json,
    categoryId: Option<CategoryId>,
    imageUrl: Option<string>,
    weight: Option<real>,
    dimensions: Option<string>,
    isActive: Option<bool>)

  /** The required-field check of create and update: a non-empty SKU and name, and a
      price and a stock quantity that are numbers other than zero. */
  predicate RequiredFieldsValid(sku: Option<string>, input: ProductInput): (b: bool)
    ensures b <==>
      && sku.Some? && sku.value != "" && input.name.Some? && input.name.value != ""
      && input.price.Num? && input.price.n != 0.0
      && input.stockQuantity.Num? && input.stockQuantity.n != 0.0
    ensures input.price.Str? || input.stockQuantity.Str? ==> !b
  {
    Present(sku) && Present(input.name) && NonZeroNumber(input.price) && NonZeroNumber(input.stockQuantity)
  }

  /** A stock quantity of zero is refused, like a missing one. */
  lemma ZeroStockRefused(sku: Option<string>, input: ProductInput)
    requires input.stockQuantity == Num(0.0) || input.stockQuantity == Absent
    ensures !RequiredFieldsValid(sku, input)
  {
  }

  /** The row `createProduct` inserts: the ten fields of the request. */
  function NewProduct(sku: string, input: ProductInput): (p: Product)
    requires NonZeroNumber(input.price) && NonZeroNumber(input.stockQuantity) && input.name.Some?
    ensures p.sku == sku && p.name == input.name.value
    ensures p.price == input.price.n && p.stockQuantity == input.stockQuantity.n
  {
    Product(sku, input.name.value, input.description, input.price.n, input.stockQuantity.n,
            input.categoryId, input.imageUrl, input.weight, input.dimensions, input.isActive)
  }

  /** Some product has this SKU. */
  predicate HasSku(products: map<ProductId, Product>, sku: string)
  {
    exists id :: id in products && products[id].sku == sku
  }

  /** `createProduct`: refuses a missing body, invalid required fields and a SKU
      already in use with 400; otherwise inserts one product. */
  method CreateProduct(db: Store, body: Option<ProductInput>) returns (code: Code)
    requires db.Valid()
    modifies db`products, db`nextId
    ensures db.Valid()
    ensures code == (
      if body.None? then BadRequest(MissingBody)
      else if !RequiredFieldsValid(body.value.sku, body.value) then BadRequest(InvalidProductData)
      else if HasSku(old(db.products), body.value.sku.value) then BadRequest(DuplicateSku)
      else Created)
    ensures code != Created ==> db.products == old(db.products) && db.nextId == old(db.nextId)
    ensures code == Created ==>
      && old(db.nextId) !in old(db.products)
      && db.products == old(db.products)[old(db.nextId) := NewProduct(body.value.sku.value, body.value)]
  {
    if body.None? {
      return BadRequest(MissingBody);
    }
    var input := body.value;
    if !RequiredFieldsValid(input.sku, input) {
      return BadRequest(InvalidProductData);
    }
    var sku := input.sku.value;
    if HasSku(db.products, sku) {
      return BadRequest(DuplicateSku);
    }
    var id := db.nextId;
    db.products := db.products[id := NewProduct(sku, input)];
    db.nextId := db.nextId + 1;
    code := Created;
  }

  /** A product with the nine non-SKU fields of `input` written over its own. */
  function Rewritten(p: Product, input: ProductInput): (r: Product)
    requires NonZeroNumber(input.price) && NonZeroNumber(input.stockQuantity) && input.name.Some?
    ensures r == NewProduct(p.sku, input)
  {
    p.(name := input.name.value, description := input.description, price := input.price.n,
       stockQuantity := input.stockQuantity.n, categoryId := input.categoryId, imageUrl := input.imageUrl,
       weight := input.weight, dimensions := input.dimensions, isActive := input.isActive)
  }

  /** The products table after `UPDATE products SET ... WHERE sku = $10`: the rows with
      that SKU are rewritten, no SKU changes and no row is added or removed. */
  function RewriteBySku(products: map<ProductId, Product>, sku: string, input: ProductInput)
    : (r: map<ProductId, Product>)
    requires NonZeroNumber(input.price) && NonZeroNumber(input.stockQuantity) && input.name.Some?
    ensures r.Keys == products.Keys
    ensures forall id :: id in r ==> r[id].sku == products[id].sku
    ensures forall id :: id in r && products[id].sku == sku ==> r[id] == NewProduct(sku, input)
    ensures forall id :: id in r && products[id].sku != sku ==> r[id] == products[id]
  {
    map id | id in products :: if products[id].sku == sku then Rewritten(products[id], input) else products[id]
  }

  /** `updateProduct`: refuses a missing body and invalid required fields with 400;
      otherwise rewrites the product with the route's SKU, and reports 200 whether or
      not such a product exists. */
  method UpdateProduct(db: Store, sku: Option<string>, body: Option<ProductInput>) returns (code: Code)
    requires db.Valid()
    modifies db`products
    ensures db.Valid()
    ensures code == (
      if body.None? then BadRequest(MissingBody)
      else if !RequiredFieldsValid(sku, body.value) then BadRequest(InvalidProductData)
      else Success)
    ensures code != Success ==> db.products == old(db.products)
    ensures code == Success ==> db.products == RewriteBySku(old(db.products), sku.value, body.value)
  {
    if body.None? {
      return BadRequest(MissingBody);
    }
    var input := body.value;
    if !RequiredFieldsValid(sku, input) {
      return BadRequest(InvalidProductData);
    }
    db.products := RewriteBySku(db.products, sku.value, input);
    code := Success;
  }

  /** `deleteProduct`: refuses a missing SKU with 400; otherwise deletes the products
      with that SKU and reports 200 whether or not one existed. */
  method DeleteProduct(db: Store, sku: Option<string>) returns (code: Code)
    requires db.Valid()
    modifies db`products
    ensures db.Valid()
    ensures code == if Present(sku) then Success else BadRequest(MissingSku)
    ensures code != Success ==> db.products == old(db.products)
    ensures code == Success ==> !HasSku(db.products, sku.value)
    ensures code == Success ==> forall id :: id in old(db.products) ==>
      (id in db.products <==> old(db.products)[id].sku != sku.value)
    ensures db.products.Keys <= old(db.products).Keys
    ensures forall id :: id in db.products ==> db.products[id] == old(db.products)[id]
  {
    if !Present(sku) {
      return BadRequest(MissingSku);
    }
    db.products := map id | id in db.products && db.products[id].sku != sku.value :: db.products[id];
    code := Success;
  }

  /** A product row joined with its category's name. */
  datatype ProductView = ProductView(product: Product, categoryName: string)

  /** Product `id` has this SKU and a category that exists (the inner join). */
  predicate Joins(products: map<ProductId, Product>, categories: map<CategoryId, Category>, id: ProductId, sku: string)
  {
    && id in products && products[id].sku == sku
    && products[id].categoryId.Some? && products[id].categoryId.value in categories
  }

  /** `getProduct`: refuses a missing SKU with 400; otherwise returns the first row of
      the join of the product with that SKU and its category, or nothing. */
  function GetProduct(db: Store, sku: Option<string>): (r: Result<Option<ProductView>>)
    reads db
    requires db.Valid()
    ensures !Present(sku) <==> r == Err(BadRequest(MissingSku))
    ensures r.Ok? && r.value.Some? ==>
      exists id :: Joins(db.products, db.categories, id, sku.value) &&
        r.value.value == ProductView(db.products[id], db.categories[db.products[id].categoryId.value].name)
    ensures r.Ok? && r.value.None? ==> forall id :: !Joins(db.products, db.categories, id, sku.value)
  {
    if !Present(sku) then Err(BadRequest(MissingSku))
    else if exists id :: id in db.products && Joins(db.products, db.categories, id, sku.value) then
      var id :| id in db.products && Joins(db.products, db.categories, id, sku.value);
      var p := db.products[id];
      Ok(Some(ProductView(p, db.categories[p.categoryId.value].name)))
    else Ok(None)
  }
}
