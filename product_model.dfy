/** The product schema and the public-id rule used when a product's images are
    removed from the image host. */
module ProductModel {
  import opened Common
  import opened Text

  datatype Product = Product(name: string, desc: string, photos: seq<string>, price: real, quantity: string)

  /** The stock flag; cart operations require 'instock'. */
  const StockFlags: set<string> := {"instock", "outofstock"}

  /** The schema's validators: name and description required (after their `trim`
      setters), at least one photo, a non-negative price and a flag from the enum. */
  predicate ValidProduct(p: Product) {
    && p.name != "" && Trimmed(p.name)
    && p.desc != "" && Trimmed(p.desc)
    && |p.photos| > 0
    && p.price >= 0.0
    && p.quantity in StockFlags
  }

  /** The document `Product.create` builds: setters applied to name and
      description, 'instock' when no flag is given; `None` when a required path
      has no value at all. */
  function Create(name: string, desc: Option<string>, price: Option<real>, quantity: Option<string>, photos: seq<string>)
    : (r: Option<Product>)
    ensures r.Some? <==> desc.Some? && price.Some?
    ensures r.Some? ==>
      && r.value.name == Trim(name) && r.value.desc == Trim(desc.value)
      && r.value.photos == photos && r.value.price == price.value
      && r.value.quantity == (if quantity.Some? then quantity.value else "instock")
  {
    if desc.None? || price.None? then None
    else Some(Product(Trim(name), Trim(desc.value), photos, price.value,
                      if quantity.Some? then quantity.value else "instock"))
  }

  /** `imageUrl.split("/").pop().split(".")[0]`: the last path segment up to its first dot. */
  function PublicId(url: string): (r: string)
    ensures '/' !in r && '.' !in r
  {
    BeforeFirst(AfterLast(url, '/'), '.')
  }

  /** For a URL ending in `/<id>.<ext>`, where the id has no dot and neither has
      a slash, the public id is exactly `<id>`. */
  lemma PublicIdOfImageUrl(prefix: string, id: string, ext: string)
    requires '/' !in id && '/' !in ext && '.' !in id
    ensures PublicId(prefix + "/" + id + "." + ext) == id
  {
    var tail := id + "." + ext;
    assert '/' !in tail by {
      forall k | 0 <= k < |tail| ensures tail[k] != '/' {
        if k < |id| { assert tail[k] == id[k]; }
        else if k > |id| { assert tail[k] == ext[k - |id| - 1]; }
      }
    }
    assert prefix + "/" + id + "." + ext == prefix + ['/'] + tail;
    AfterLastOfSuffix(prefix, '/', tail);
    assert tail == id + ['.'] + ext;
    BeforeFirstOfPrefix(id, '.', ext);
  }
}
