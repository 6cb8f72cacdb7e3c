/** The product admin handlers: add a product with its uploaded images, update
    one field by field and append new images, delete one together with its
    images on the image host.  The upload itself is an input: the function
    from a temporary file to the secure URL the host gives back. */
module ProductController {
  import opened Common
  import opened Text
  import opened ProductModel
  import opened Store

  /** `x ?? d`: only a null or missing value falls back. */
  function OrElse<T>(x: Option<T>, d: T): (r: T)
    ensures x.None? ==> r == d
    ensures x.Some? ==> r == x.value
  {
    if x.Some? then x.value else d
  }

  /** The secure URLs of `files`, in upload order. */
  function Uploads(files: seq<string>, upload: string -> string): (urls: seq<string>)
    ensures |urls| == |files|
    ensures forall k :: 0 <= k < |files| ==> urls[k] == upload(files[k])
  {
    if files == [] then [] else [upload(files[0])] + Uploads(files[1..], upload)
  }

  /** The upload loops of addProduct and updateProduct: one upload per file, in
      order, each pushed onto the list. */
  method UploadAll(files: seq<string>, upload: string -> string) returns (urls: seq<string>)
    ensures urls == Uploads(files, upload)
  {
    urls := [];
    for i := 0 to |files|
      invariant |urls| == i
      invariant forall k :: 0 <= k < i ==> urls[k] == upload(files[k])
    {
      urls := urls + [upload(files[i])];
    }
  }

  // ------------------------------------------------------------ add

  /** addProduct on the products; `name` is `None` when absent, which makes
      `name.trim()` throw. */
  function AddOn(products: map<Id, Product>, nextId: nat, name: Option<string>, desc: Option<string>,
                 price: Option<real>, quantity: Option<string>, files: seq<string>, upload: string -> string)
    : (Reply<Product>, map<Id, Product>, nat)
  {
    if |files| == 0 then (Fail(400, "At least one product image is required"), products, nextId)
    else if name.None? then (Fail(500, "Failed to add product"), products, nextId)
    else if NameTaken(products, Trim(name.value)) then
      (Fail(400, "Product with this name already exists"), products, nextId)
    else Insertion(products, nextId, Create(Trim(name.value), desc, price, quantity, Uploads(files, upload)))
  }

  /** Some product holds the name. */
  predicate NameTaken(products: map<Id, Product>, name: string) {
    exists a :: a in products && products[a].name == name
  }

  /** The `Product.create` step: a document with a missing required path or one
      the validators refuse is a 500; otherwise it is stored under the next id. */
  function Insertion(products: map<Id, Product>, nextId: nat, p: Option<Product>): (Reply<Product>, map<Id, Product>, nat) {
    if p.None? || !ValidProduct(p.value) then (Fail(500, "Failed to add product"), products, nextId)
    else (Ok(201, "Product added successfully", p.value), products[nextId := p.value], nextId + 1)
  }

  /** `addProduct`. */
  method AddProduct(db: Database, name: Option<string>, desc: Option<string>, price: Option<real>,
                    quantity: Option<string>, files: seq<string>, upload: string -> string)
    returns (reply: Reply<Product>)
    requires db.Valid()
    modifies db`products, db`nextId
    ensures db.Valid()
    ensures (reply, db.products, db.nextId) ==
      AddOn(old(db.products), old(db.nextId), name, desc, price, quantity, files, upload)
  {
    if |files| == 0 {
      return Fail(400, "At least one product image is required");
    }
    if name.None? {
      return Fail(500, "Failed to add product");
    }
    var n := Trim(name.value);
    TrimIdempotent(name.value);
    var existing := db.FindProductByName(n);
    if existing.Some? {
      return Fail(400, "Product with this name already exists");
    }
    var urls := UploadAll(files, upload);
    reply := Insert(db, Create(n, desc, price, quantity, urls));
  }

  /** The `Product.create` step of addProduct, once the name is known to be free. */
  method Insert(db: Database, p: Option<Product>) returns (reply: Reply<Product>)
    requires db.Valid()
    requires p.Some? ==> !NameTaken(db.products, p.value.name)
    modifies db`products, db`nextId
    ensures db.Valid()
    ensures (reply, db.products, db.nextId) == Insertion(old(db.products), old(db.nextId), p)
  {
    if p.None? {
      return Fail(500, "Failed to add product");
    }
    var created := db.InsertProduct(p.value);
    if created.Failure? {
      assert created.error == ValidationError;
      return Fail(500, "Failed to add product");
    }
    reply := Ok(201, "Product added successfully", p.value);
  }

  // ------------------------------------------------------------ update

  /** The document after updateProduct's assignments: new images appended
      after the old ones, and each field replaced by its input unless that is
      null or missing; the `trim` setters run on the assigned name and
      description. */
  function Merged(p: Product, name: Option<string>, desc: Option<string>, price: Option<real>,
                  quantity: Option<string>, newPhotos: seq<string>): Product
  {
    Product(Trim(OrElse(name, p.name)), Trim(OrElse(desc, p.desc)), p.photos + newPhotos,
            OrElse(price, p.price), OrElse(quantity, p.quantity))
  }

  /** updateProduct on the products. */
  function UpdateOn(products: map<Id, Product>, id: Id, name: Option<string>, desc: Option<string>,
                    price: Option<real>, quantity: Option<string>, files: seq<string>, upload: string -> string)
    : (Reply<Product>, map<Id, Product>)
  {
    if id !in products then (Fail(404, "Product not found"), products)
    else Saving(products, id, Merged(products[id], name, desc, price, quantity, Uploads(files, upload)))
  }

  /** The `product.save()` step of updateProduct: the validators and the unique
      name index decide between a 500 and storing `p` under `id`. */
  function Saving(products: map<Id, Product>, id: Id, p: Product): (Reply<Product>, map<Id, Product>) {
    if !ValidProduct(p) || NameClash(products, id, p.name) then (Fail(500, "Failed to update product"), products)
    else (Ok(200, "Product updated successfully", p), products[id := p])
  }

  /** `updateProduct`. */
  method UpdateProduct(db: Database, id: Id, name: Option<string>, desc: Option<string>, price: Option<real>,
                       quantity: Option<string>, files: seq<string>, upload: string -> string)
    returns (reply: Reply<Product>)
    requires db.Valid()
    modifies db`products
    ensures db.Valid()
    ensures (reply, db.products) == UpdateOn(old(db.products), id, name, desc, price, quantity, files, upload)
  {
    if id !in db.products {
      return Fail(404, "Product not found");
    }
    ghost var stored := db.products[id];
    var p := db.products[id];
    var photos := p.photos;
    if |files| > 0 {
      var newImages := UploadAll(files, upload);
      photos := photos + newImages;
    }
    assert photos == p.photos + Uploads(files, upload);
    p := p.(photos := photos);
    p := p.(name := Trim(OrElse(name, p.name)));
    p := p.(desc := Trim(OrElse(desc, p.desc)));
    p := p.(price := OrElse(price, p.price));
    p := p.(quantity := OrElse(quantity, p.quantity));
    assert p == Merged(stored, name, desc, price, quantity, Uploads(files, upload));
    reply := Save(db, id, p);
  }

  /** The `product.save()` step of updateProduct. */
  method Save(db: Database, id: Id, p: Product) returns (reply: Reply<Product>)
    requires db.Valid() && id in db.products
    modifies db`products
    ensures db.Valid()
    ensures (reply, db.products) == Saving(old(db.products), id, p)
  {
    var saved := db.SaveProduct(id, p);
    if saved.Failure? {
      assert saved.error == ValidationError || saved.error == DuplicateKey;
      return Fail(500, "Failed to update product");
    }
    reply := Ok(200, "Product updated successfully", p);
  }

  // ------------------------------------------------------------ delete

  /** The image-host ids `destroy` is called with, one per photo in order:
      `products/<public id>`. */
  function DestroyTargets(photos: seq<string>): (ids: seq<string>)
    ensures |ids| == |photos|
    ensures forall k :: 0 <= k < |photos| ==> ids[k] == "products/" + PublicId(photos[k])
  {
    seq(|photos|, k requires 0 <= k < |photos| => "products/" + PublicId(photos[k]))
  }

  /** deleteProduct on the products; the third component is what is destroyed
      on the image host. */
  function DeleteOn(products: map<Id, Product>, id: Id): (Reply<()>, map<Id, Product>, seq<string>) {
    if id !in products then (Fail(404, "Product not found"), products, [])
    else (Ok(200, "Product deleted successfully", ()), products - {id}, DestroyTargets(products[id].photos))
  }

  /** `deleteProduct`; `destroyed` lists the `cloudinary.uploader.destroy` calls. */
  method DeleteProduct(db: Database, id: Id) returns (reply: Reply<()>, destroyed: seq<string>)
    requires db.Valid()
    modifies db`products
    ensures db.Valid()
    ensures (reply, db.products, destroyed) == DeleteOn(old(db.products), id)
  {
    if id !in db.products {
      return Fail(404, "Product not found"), [];
    }
    var photos := db.products[id].photos;
    destroyed := [];
    for i := 0 to |photos|
      invariant |destroyed| == i
      invariant forall k :: 0 <= k < i ==> destroyed[k] == "products/" + PublicId(photos[k])
    {
      var publicId := PublicId(photos[i]);
      destroyed := destroyed + ["products/" + publicId];
    }
    assert destroyed == DestroyTargets(photos);
    db.DeleteProduct(id);
    reply := Ok(200, "Product deleted successfully", ());
  }

  // ------------------------------------------------------------ properties

  /** No image, no product; a name already held (after trimming) is refused;
      a refusal writes nothing. */
  lemma AddRefusals(products: map<Id, Product>, nextId: nat, name: Option<string>, desc: Option<string>,
                    price: Option<real>, quantity: Option<string>, files: seq<string>, upload: string -> string)
    ensures var (reply, products', nextId') := AddOn(products, nextId, name, desc, price, quantity, files, upload);
      && (reply.Fail? ==> products' == products && nextId' == nextId)
      && (|files| == 0 ==> reply == Fail(400, "At least one product image is required"))
      && (|files| > 0 && name.Some? && NameTaken(products, Trim(name.value)) ==>
            reply == Fail(400, "Product with this name already exists"))
  {
    if |files| > 0 && name.Some? && !NameTaken(products, Trim(name.value)) {
      var p := Create(Trim(name.value), desc, price, quantity, Uploads(files, upload));
      assert AddOn(products, nextId, name, desc, price, quantity, files, upload) == Insertion(products, nextId, p);
    }
  }

  /** An added product has the trimmed name, the uploaded URLs as its photos in
      upload order, 'instock' unless a flag was given, and a fresh id; names
      stay unique. */
  lemma AddedProductShape(products: map<Id, Product>, nextId: nat, name: Option<string>, desc: Option<string>,
                          price: Option<real>, quantity: Option<string>, files: seq<string>, upload: string -> string)
    requires forall a :: a in products ==> a < nextId
    requires forall a, b :: a in products && b in products && products[a].name == products[b].name ==> a == b
    ensures var (reply, products', nextId') := AddOn(products, nextId, name, desc, price, quantity, files, upload);
      reply.Ok? ==>
        && name.Some? && nextId !in products
        && products' == products[nextId := reply.body] && nextId' == nextId + 1
        && reply.body.name == Trim(name.value) && ValidProduct(reply.body)
        && |reply.body.photos| == |files|
        && (forall k :: 0 <= k < |files| ==> reply.body.photos[k] == upload(files[k]))
        && reply.body.quantity == OrElse(quantity, "instock")
        && (forall a, b :: a in products' && b in products' && products'[a].name == products'[b].name ==> a == b)
  {
    var (reply, products', nextId') := AddOn(products, nextId, name, desc, price, quantity, files, upload);
    if reply.Ok? {
      var n := Trim(name.value);
      var p := Create(n, desc, price, quantity, Uploads(files, upload));
      assert !NameTaken(products, n);
      assert p.Some? && ValidProduct(p.value);
      assert reply.body == p.value && products' == products[nextId := p.value] && nextId' == nextId + 1;
      TrimIdempotent(name.value);
      assert p.value.name == n;
      InsertKeepsNamesUnique(products, nextId, p.value);
    }
  }

  /** A product whose name no stored product holds keeps names unique. */
  lemma InsertKeepsNamesUnique(products: map<Id, Product>, nextId: nat, p: Product)
    requires forall a, b :: a in products && b in products && products[a].name == products[b].name ==> a == b
    requires !NameTaken(products, p.name)
    ensures var products' := products[nextId := p];
      forall a, b :: a in products' && b in products' && products'[a].name == products'[b].name ==> a == b
  {
    var products' := products[nextId := p];
    forall a, b | a in products' && b in products' && products'[a].name == products'[b].name
      ensures a == b
    {
      if a != nextId && b != nextId {
        assert products[a].name == products[b].name;
      }
    }
  }

  /** An unknown id is a 404 and changes nothing. */
  lemma UpdateUnknownIsNotFound(products: map<Id, Product>, id: Id, name: Option<string>, desc: Option<string>,
                                price: Option<real>, quantity: Option<string>, files: seq<string>, upload: string -> string)
    requires id !in products
    ensures UpdateOn(products, id, name, desc, price, quantity, files, upload) == (Fail(404, "Product not found"), products)
  {
  }

  /** The merge rule of updateProduct on a stored product: each of name,
      description, price and flag stays exactly as it was when its input is
      null or missing and otherwise takes the input (trimmed for name and
      description); new images come after all the old ones, which are kept. */
  lemma MergeRule(p: Product, name: Option<string>, desc: Option<string>, price: Option<real>,
                  quantity: Option<string>, newPhotos: seq<string>)
    requires ValidProduct(p)
    ensures var m := Merged(p, name, desc, price, quantity, newPhotos);
      && (name.None? ==> m.name == p.name) && (name.Some? ==> m.name == Trim(name.value))
      && (desc.None? ==> m.desc == p.desc) && (desc.Some? ==> m.desc == Trim(desc.value))
      && (price.None? ==> m.price == p.price) && (price.Some? ==> m.price == price.value)
      && (quantity.None? ==> m.quantity == p.quantity) && (quantity.Some? ==> m.quantity == quantity.value)
      && m.photos[..|p.photos|] == p.photos && m.photos[|p.photos|..] == newPhotos
  {
    TrimFixedIffTrimmed(p.name);
    TrimFixedIffTrimmed(p.desc);
    var m := Merged(p, name, desc, price, quantity, newPhotos);
    assert m.photos == p.photos + newPhotos;
  }

  /** A successful update stores the merge of the stored product with the
      inputs and the uploaded images, and touches no other product. */
  lemma UpdateAppendsImages(products: map<Id, Product>, id: Id, name: Option<string>, desc: Option<string>,
                            price: Option<real>, quantity: Option<string>, files: seq<string>, upload: string -> string)
    ensures var (reply, products') := UpdateOn(products, id, name, desc, price, quantity, files, upload);
      && (reply.Fail? ==> products' == products)
      && (reply.Ok? ==>
            && id in products && products'.Keys == products.Keys
            && products'[id] == Merged(products[id], name, desc, price, quantity, Uploads(files, upload))
            && products'[id].photos == products[id].photos + Uploads(files, upload)
            && (forall a :: a in products && a != id ==> products'[a] == products[a]))
  {
    if id in products {
      var p := Merged(products[id], name, desc, price, quantity, Uploads(files, upload));
      assert UpdateOn(products, id, name, desc, price, quantity, files, upload) == Saving(products, id, p);
    }
  }

  /** Deleting removes exactly that product and destroys one image per photo,
      the public id being the last path segment of the URL up to its first
      dot; an unknown id is a 404 that destroys nothing. */
  lemma DeleteRemovesProductAndImages(products: map<Id, Product>, id: Id)
    ensures var (reply, products', destroyed) := DeleteOn(products, id);
      && (reply.Ok? <==> id in products)
      && products' == products - {id}
      && (reply.Fail? ==> destroyed == [])
      && (reply.Ok? ==>
            && |destroyed| == |products[id].photos|
            && (forall k :: 0 <= k < |destroyed| ==> destroyed[k] == "products/" + PublicId(products[id].photos[k])))
  {
  }
}
