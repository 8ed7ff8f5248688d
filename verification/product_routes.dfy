/** The product routes: reading one product, create, update and delete. None
    of them is behind authentication. */
module ProductRoutes {
  import opened Base
  import opened ProductModel
  import opened Database

  /** The update route's field-by-field `req.body.x || product.x`. A price or
      stock of 0 and an empty title keep the stored value; any images array,
      even an empty one, replaces the stored list. */
  function MergeProduct(p: Product, f: Product): (r: Product)
    ensures TruthyNumber(f.price) ==> r.price == f.price
    ensures !TruthyNumber(f.price) ==> r.price == p.price
    ensures TruthyNumber(f.stock) ==> r.stock == f.stock
    ensures !TruthyNumber(f.stock) ==> r.stock == p.stock
    ensures f.images.Some? ==> r.images == f.images
    ensures f.images.None? ==> r.images == p.images
    ensures TruthyText(f.title) ==> r.title == f.title
    ensures !TruthyText(f.title) ==> r.title == p.title
    ensures TruthyText(f.description) ==> r.description == f.description
    ensures !TruthyText(f.description) ==> r.description == p.description
    ensures TruthyText(f.category) ==> r.category == f.category
    ensures !TruthyText(f.category) ==> r.category == p.category
  {
    Product(OrOptText(f.title, p.title),
            OrOptText(f.description, p.description),
            OrOptText(f.category, p.category),
            OrOptNumber(f.price, p.price),
            OrList(f.images, p.images),
            OrOptNumber(f.stock, p.stock))
  }

  /** Sending the same update twice changes nothing the first did not. */
  lemma MergeIdempotent(p: Product, f: Product)
    ensures MergeProduct(MergeProduct(p, f), f) == MergeProduct(p, f)
  {
  }

  /** An update never clears a text or number field the product has, and a
      non-zero stock can never be brought to 0 through it. (An empty images
      array does replace the stored list.) */
  lemma MergeNeverClears(p: Product, f: Product)
    ensures p.title.Some? ==> MergeProduct(p, f).title.Some?
    ensures p.description.Some? ==> MergeProduct(p, f).description.Some?
    ensures p.category.Some? ==> MergeProduct(p, f).category.Some?
    ensures p.price.Some? ==> MergeProduct(p, f).price.Some?
    ensures p.stock.Some? ==> MergeProduct(p, f).stock.Some?
    ensures TruthyNumber(p.stock) ==> TruthyNumber(MergeProduct(p, f).stock)
  {
  }

  /** `GET /:id`. */
  method GetProduct(db: Store, id: Id) returns (reply: Reply<Product>)
    ensures id !in db.products ==> reply == Fail(404, "Product not found")
    ensures id in db.products ==> reply == Ok(200, db.products[id])
  {
    if id !in db.products {
      return Fail(404, "Product not found");
    }
    reply := Ok(200, db.products[id]);
  }

  /** `POST /`: stores the six fields exactly as sent. `newId` is the ObjectId
      the database assigns. */
  method CreateProduct(db: Store, f: Product, newId: Id) returns (reply: Reply<Product>)
    requires db.Valid()
    requires newId !in db.products
    modifies db
    ensures db.Valid()
    ensures db.products == old(db.products)[newId := f]
    ensures db.orders == old(db.orders) && db.users == old(db.users)
    ensures db.courses == old(db.courses) && db.outbox == old(db.outbox)
    ensures reply == Ok(201, f)
  {
    db.products := db.products[newId := f];
    reply := Ok(201, f);
  }

  /** `PUT /:id`. */
  method UpdateProduct(db: Store, id: Id, f: Product) returns (reply: Reply<Product>)
    requires db.Valid()
    modifies db
    ensures db.Valid()
    ensures id !in old(db.products) ==> reply == Fail(404, "Product not found") && unchanged(db)
    ensures id in old(db.products) ==>
              && db.products == old(db.products)[id := MergeProduct(old(db.products)[id], f)]
              && db.orders == old(db.orders) && db.users == old(db.users)
              && db.courses == old(db.courses) && db.outbox == old(db.outbox)
              && reply == Ok(200, db.products[id])
  {
    if id !in db.products {
      return Fail(404, "Product not found");
    }
    var product := db.products[id];
    product := product.(title := OrOptText(f.title, product.title));
    product := product.(description := OrOptText(f.description, product.description));
    product := product.(category := OrOptText(f.category, product.category));
    product := product.(price := OrOptNumber(f.price, product.price));
    product := product.(images := OrList(f.images, product.images));
    product := product.(stock := OrOptNumber(f.stock, product.stock));
    db.products := db.products[id := product];
    reply := Ok(200, product);
  }

  /** `DELETE /:id`: removes exactly that product. */
  method DeleteProduct(db: Store, id: Id) returns (reply: Reply<string>)
    requires db.Valid()
    modifies db
    ensures db.Valid()
    ensures id !in old(db.products) ==> reply == Fail(404, "Product not found") && unchanged(db)
    ensures id in old(db.products) ==>
              && db.products == old(db.products) - {id}
              && db.orders == old(db.orders) && db.users == old(db.users)
              && db.courses == old(db.courses) && db.outbox == old(db.outbox)
              && reply == Ok(200, "Product removed")
  {
    if id !in db.products {
      return Fail(404, "Product not found");
    }
    db.products := db.products - {id};
    reply := Ok(200, "Product removed");
  }
}
