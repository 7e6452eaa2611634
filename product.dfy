/**
 * The product router: a seller's procedures over the product table. Every
 * procedure first looks up the caller's seller id; without one it answers
 * null and changes nothing. Each read or write is filtered by that seller
 * id, so a seller only ever sees or touches their own rows. Images live on
 * an external image host: the model keeps the requests sent to it (uploads
 * and deletions) and takes the host's answer to an upload as a function.
 */
module ProductRouter {
  import opened Wrappers
  import JsString

  datatype Product = Product(
    id: string,
    sellerId: string,
    title: string,
    priceInCents: string,
    description: string,
    image: string,
    category: int)

  /** The fields `create` receives. */
  datatype ProductInput = ProductInput(
    title: string,
    priceInCents: string,
    description: string,
    image: string,
    category: int)

  /** The fields `update` receives: the row's id, the new image and the image id stored so far. */
  datatype ProductUpdate = ProductUpdate(
    id: string,
    title: string,
    priceInCents: string,
    description: string,
    image: string,
    imageId: string,
    category: int)

  /** A row as `list` selects it (every field but the seller id). */
  datatype Listing = Listing(
    id: string,
    priceInCents: string,
    title: string,
    image: string,
    description: string,
    category: int)

  /** One upload sent to the image host: the image and, when replacing one, the public id to reuse. */
  datatype UploadRequest = UploadRequest(image: string, publicId: Option<string>)

  /** The image host's answer to an upload: the stored image id, or nothing. */
  type Uploader = (string, Option<string>) -> Option<string>

  /** JavaScript truthiness of a nullable string: present and not empty. */
  predicate Truthy(s: Option<string>) {
    s.Some? && s.value != ""
  }

  // ---------------------------------------------------------------------
  // Pure rules
  // ---------------------------------------------------------------------

  /** Categories above 7 become 7, the last known one; there is no lower clamp. */
  function ClampCategory(category: int): (r: int)
    ensures r <= 7
    ensures r == category <==> category <= 7
  {
    if category <= 7 then category else 7
  }

  /** `imageId.split('/')[2]`: the third `/`-separated segment, undefined when there are fewer. */
  function PublicId(imageId: string): Option<string> {
    var segments := JsString.Split(imageId, '/');
    if |segments| > 2 then Some(segments[2]) else None
  }

  /** The image id is the segments joined by `/`; the public id is the third of them. */
  lemma {:induction false} PublicIdOfSegments(segments: seq<string>)
    requires |segments| >= 1
    requires forall k :: 0 <= k < |segments| ==> '/' !in segments[k]
    ensures PublicId(JsString.Join(segments, '/')) == if |segments| > 2 then Some(segments[2]) else None
  {
    JsString.SplitJoin(segments, '/');
  }

  /** `update` uploads the image again only when it no longer contains the stored image id. */
  predicate NeedsReupload(image: string, imageId: string) {
    !JsString.Includes(image, imageId)
  }

  /** The image `update` stores, given what the upload answered when one was needed. */
  function StoredImage(image: string, imageId: string, uploaded: Option<string>): string {
    if NeedsReupload(image, imageId) then uploaded.GetOr(imageId) else imageId
  }

  /** An image string that embeds the stored id keeps that id and is not uploaded. */
  lemma {:induction false} EmbeddedIdIsKept(prefix: string, imageId: string, suffix: string, uploaded: Option<string>)
    ensures !NeedsReupload(prefix + imageId + suffix, imageId)
    ensures StoredImage(prefix + imageId + suffix, imageId, uploaded) == imageId
  {
    var image := prefix + imageId + suffix;
    assert image[|prefix|..|prefix| + |imageId|] == imageId;
    assert JsString.OccursAt(image, imageId, |prefix|);
    JsString.IncludesIff(image, imageId);
  }

  /** A stored image other than the old id is exactly the upload's answer to a needed re-upload. */
  lemma {:induction false} StoredImageChanged(image: string, imageId: string, uploaded: Option<string>)
    requires StoredImage(image, imageId, uploaded) != imageId
    ensures NeedsReupload(image, imageId)
    ensures uploaded == Some(StoredImage(image, imageId, uploaded))
    ensures forall i :: !JsString.OccursAt(image, imageId, i)
  {
    JsString.IncludesIff(image, imageId);
  }

  // ---------------------------------------------------------------------
  // The seller-scoped reads and writes
  // ---------------------------------------------------------------------

  /** The product with this id belongs to this seller (the filter of `update` and `delete`). */
  predicate Owned(p: Product, id: string, sellerId: string) {
    p.id == id && p.sellerId == sellerId
  }

  function AsListing(p: Product): Listing {
    Listing(p.id, p.priceInCents, p.title, p.image, p.description, p.category)
  }

  /** `findMany` filtered by seller: this seller's rows as listings, in table order. */
  function ListFor(products: seq<Product>, sellerId: string): (r: seq<Listing>)
    ensures |r| <= |products|
    ensures forall p :: p in products && p.sellerId == sellerId ==> AsListing(p) in r
    ensures forall l :: l in r ==> exists p :: p in products && p.sellerId == sellerId && AsListing(p) == l
  {
    if products == [] then []
    else
      var rest := ListFor(products[1..], sellerId);
      assert forall p :: p in products[1..] ==> p in products;
      if products[0].sellerId == sellerId then [AsListing(products[0])] + rest else rest
  }

  /** The fields `update` writes. */
  datatype ProductEdit = ProductEdit(title: string, priceInCents: string, description: string, image: string)

  function ApplyEdit(e: ProductEdit, p: Product): Product {
    p.(title := e.title, priceInCents := e.priceInCents, description := e.description, image := e.image)
  }

  /** `updateMany` filtered by id and seller. */
  function EditOwned(products: seq<Product>, id: string, sellerId: string, e: ProductEdit): seq<Product> {
    if products == [] then []
    else
      var head := if Owned(products[0], id, sellerId) then ApplyEdit(e, products[0]) else products[0];
      [head] + EditOwned(products[1..], id, sellerId, e)
  }

  /** The number of rows filtered by id and seller (the `count` `update` and `delete` answer). */
  function CountOwned(products: seq<Product>, id: string, sellerId: string): nat {
    if products == [] then 0
    else (if Owned(products[0], id, sellerId) then 1 else 0) + CountOwned(products[1..], id, sellerId)
  }

  /** `deleteMany` filtered by id and seller. */
  function DeleteOwned(products: seq<Product>, id: string, sellerId: string): (r: seq<Product>)
    ensures forall p :: p in r <==> p in products && !Owned(p, id, sellerId)
  {
    if products == [] then []
    else (if Owned(products[0], id, sellerId) then [] else [products[0]]) + DeleteOwned(products[1..], id, sellerId)
  }

  /**
   * `update` rewrites the title, price, description and image of the seller's
   * rows with that id, and leaves their id, seller and category, and every
   * other row, as they were.
   */
  lemma {:induction false} EditOwnedAt(products: seq<Product>, id: string, sellerId: string, e: ProductEdit)
    ensures |EditOwned(products, id, sellerId, e)| == |products|
    ensures forall i :: 0 <= i < |products| ==>
      var q := EditOwned(products, id, sellerId, e)[i];
      && q.id == products[i].id && q.sellerId == products[i].sellerId && q.category == products[i].category
      && (Owned(products[i], id, sellerId) ==>
            q.title == e.title && q.priceInCents == e.priceInCents
            && q.description == e.description && q.image == e.image)
      && (!Owned(products[i], id, sellerId) ==> q == products[i])
  {
    if products != [] {
      EditOwnedAt(products[1..], id, sellerId, e);
      var r := EditOwned(products, id, sellerId, e);
      forall i | 0 < i < |products| ensures r[i] == EditOwned(products[1..], id, sellerId, e)[i - 1] {
      }
    }
  }

  /** Another seller's products come out of `update` as they went in. */
  lemma {:induction false} OtherSellersUntouchedByEdit(products: seq<Product>, id: string, sellerId: string, e: ProductEdit)
    ensures forall i :: 0 <= i < |products| && products[i].sellerId != sellerId ==>
      i < |EditOwned(products, id, sellerId, e)| && EditOwned(products, id, sellerId, e)[i] == products[i]
  {
    EditOwnedAt(products, id, sellerId, e);
  }

  /** `delete` removes exactly as many rows as the filter matches, and keeps every other seller's. */
  lemma {:induction false} DeleteOwnedCount(products: seq<Product>, id: string, sellerId: string)
    ensures |DeleteOwned(products, id, sellerId)| + CountOwned(products, id, sellerId) == |products|
    ensures forall p :: p in products && p.sellerId != sellerId ==> p in DeleteOwned(products, id, sellerId)
  {
    if products != [] {
      DeleteOwnedCount(products[1..], id, sellerId);
    }
  }

  // ---------------------------------------------------------------------
  // The router
  // ---------------------------------------------------------------------

  /**
   * The product table and the requests sent to the image host. `sellerId`
   * is the caller's seller id as the identity lookup reports it; `None`
   * stands for every falsy answer. `upload` is the image host's answer to
   * an upload of an image under an optional public id.
   */
  class ProductStore {
    var products: seq<Product>
    var uploads: seq<UploadRequest>
    var deletedImages: seq<string>

    constructor ()
      ensures products == [] && uploads == [] && deletedImages == []
    {
      products := [];
      uploads := [];
      deletedImages := [];
    }

    /**
     * `create`: upload the image, then add one product carrying the caller's
     * seller id, the uploaded image id and the clamped category. `newId` is
     * the id the database gives the new row.
     */
    method Create(sellerId: Option<string>, input: ProductInput, upload: Uploader, newId: string) returns (r: Option<Product>)
      modifies this
      ensures deletedImages == old(deletedImages)
      ensures sellerId.None? ==> r.None? && products == old(products) && uploads == old(uploads)
      ensures sellerId.Some? ==> uploads == old(uploads) + [UploadRequest(input.image, None)]
      ensures sellerId.Some? && !Truthy(upload(input.image, None)) ==> r.None? && products == old(products)
      ensures sellerId.Some? && Truthy(upload(input.image, None)) ==>
        var created := Product(newId, sellerId.value, input.title, input.priceInCents, input.description,
                               upload(input.image, None).value, ClampCategory(input.category));
        r == Some(created) && products == old(products) + [created]
    {
      if sellerId.None? {
        return None;
      }
      uploads := uploads + [UploadRequest(input.image, None)];
      var imageId := upload(input.image, None);
      if !Truthy(imageId) {
        return None;
      }
      var itemCat := ClampCategory(input.category);
      var created := Product(newId, sellerId.value, input.title, input.priceInCents, input.description, imageId.value, itemCat);
      products := products + [created];
      r := Some(created);
    }

    /** `list`: the caller's products and no one else's. */
    method List(sellerId: Option<string>) returns (r: Option<seq<Listing>>)
      ensures sellerId.None? ==> r.None?
      ensures sellerId.Some? ==> r == Some(ListFor(products, sellerId.value))
      ensures sellerId.Some? ==> forall l :: l in r.value <==>
        exists p :: p in products && p.sellerId == sellerId.value && AsListing(p) == l
    {
      if sellerId.None? {
        return None;
      }
      r := Some(ListFor(products, sellerId.value));
    }

    /**
     * `update`: re-upload the image under the old public id when it no
     * longer contains the stored id, then rewrite the caller's rows with
     * that id.
     */
    method Update(sellerId: Option<string>, input: ProductUpdate, upload: Uploader) returns (r: Option<nat>)
      modifies this
      ensures deletedImages == old(deletedImages)
      ensures sellerId.None? ==> r.None? && products == old(products) && uploads == old(uploads)
      ensures sellerId.Some? ==>
        && uploads == old(uploads) + (if NeedsReupload(input.image, input.imageId)
                                      then [UploadRequest(input.image, PublicId(input.imageId))] else [])
        && products == EditOwned(old(products), input.id, sellerId.value,
             ProductEdit(input.title, input.priceInCents, input.description,
               StoredImage(input.image, input.imageId, upload(input.image, PublicId(input.imageId)))))
        && r == Some(CountOwned(old(products), input.id, sellerId.value))
    {
      if sellerId.None? {
        return None;
      }
      var updatedImage := input.imageId;
      if !JsString.Includes(input.image, input.imageId) {
        var publicId := PublicId(input.imageId);
        uploads := uploads + [UploadRequest(input.image, publicId)];
        updatedImage := upload(input.image, publicId).GetOr(input.imageId);
      }
      r := Some(CountOwned(products, input.id, sellerId.value));
      products := EditOwned(products, input.id, sellerId.value,
        ProductEdit(input.title, input.priceInCents, input.description, updatedImage));
    }

    /**
     * `delete`: remove the caller's rows with that id, then ask the image
     * host to delete `imageId`, whether or not a row was removed.
     */
    method Delete(sellerId: Option<string>, id: string, imageId: string) returns (r: Option<nat>)
      modifies this
      ensures uploads == old(uploads)
      ensures sellerId.None? ==> r.None? && products == old(products) && deletedImages == old(deletedImages)
      ensures sellerId.Some? ==>
        && products == DeleteOwned(old(products), id, sellerId.value)
        && r == Some(CountOwned(old(products), id, sellerId.value))
        && deletedImages == old(deletedImages) + [imageId]
    {
      if sellerId.None? {
        return None;
      }
      r := Some(CountOwned(products, id, sellerId.value));
      products := DeleteOwned(products, id, sellerId.value);
      deletedImages := deletedImages + [imageId];
    }
  }
}
