# Cart and product routers of a marketplace, in Dafny

This project models the two server routers of a small e-commerce marketplace:

- the **cart router** (`src/server/routers/cart.ts`), whose procedures read and change the
  table of *bags*. A bag is a cart line item: a cart, a product, an item count, a selection
  flag and a checked-out flag.
- the **product router** (`src/server/routers/product.ts`), whose procedures let a seller
  create, list, update and delete their own products. Images are kept on an external
  image host.

Every procedure starts by looking up the caller's identity: the cart id for the cart router,
the seller id for the product router. That lookup is a parameter of type `Option`. When it
is absent the procedure answers `None` (the router's `null`) and changes nothing.

Each database call becomes a function over a `seq` table:

- `BagWhere` and `BagData` are a `where` filter and a `data` clause, written field by field
  as the router writes them.
- `UpdateMany`, `DeleteMany`, `Select`, `CountWhere` and `SumWhere` model `updateMany`,
  `deleteMany`, `findMany`, the `count` in a result and the `_sum` aggregate (null when no
  row matches).
- `UpdateById` models the unique-key `update`. Its record-not-found error is the value
  `RecordNotFound`.

The routers themselves are classes:

- `CartRouter.BagTable` holds the bag table and the id the next created bag gets. Its
  invariant says bag ids are unique and below that next id.
- `ProductRouter.ProductStore` holds the product table and two logs of requests sent to
  the image host: uploads, and deletions.

Each class has one method per procedure. The methods' `ensures` give the new table as a
function of the old one. The lemmas beside them say which rows change, how they change,
and that all other rows stay as they were.

The model keeps these behaviours of the code as written:

- `addToCart` creates a new bag with an item count of 1, whatever the quantity.
- `incrementItemCount`, `decrementItemCount` and `updateItemCount` look a bag up by its id
  alone. They change a bag of any cart, as long as the caller has some cart.
- Decrementing has no lower bound.
- `deleteItem` also deletes a bag that is already checked out.
- The product `delete` asks the image host to delete the given image even when it removed
  no row.
- `create` treats an empty upload answer as a failure (`!imageId`). On the re-upload path,
  `update` falls back to the old id only when the answer is null (`??`), so an empty
  answer is stored as the image.

Files: `wrappers.dfy` (`Option`), `jsstring.dfy` (the JavaScript `includes`, `split` and
`join` the product router uses), `cart.dfy`, `product.dfy`.

## Model

| member | source | states |
|---|---|---|
| `CartRouter.BagTable.GetItemCount` | src/server/routers/cart.ts:7-22 | null without a cart; otherwise the total item count of the cart's bags that are not checked out, and 0 when there is none |
| `CartRouter.ItemCountIsOpenTotal` | src/server/routers/cart.ts:11-21 | the aggregate with its `?? 0` equals the plain total of the cart's open bags, and is 0 when the cart has no open bag |
| `CartRouter.SumWhereIsTotal` | src/server/routers/cart.ts:11-21 | the `_sum` aggregate is null exactly when no row matches, and otherwise the total of the matching rows |
| `CartRouter.BagTable.GetCartItems` | src/server/routers/cart.ts:23-59 | null without a cart; otherwise exactly the caller's open bags, in table order |
| `CartRouter.Select` | src/server/routers/cart.ts:32-35 | a filtered read holds a row exactly when the table holds it and it matches the filter |
| `CartRouter.SelectCount` | src/server/routers/cart.ts:32-35 | a filtered read returns as many rows as match |
| `CartRouter.BagTable.AddToCart` | src/server/routers/cart.ts:66-98 | null and no change without a cart; with open bags of the product in the cart, they are all merged, no id is used and the answer is their count; otherwise exactly one bag is appended with the next id, that cart, that product and count 1, the rest of the table unchanged |
| `CartRouter.MergeProductAt` | src/server/routers/cart.ts:72-83 | the merge raises each open bag of that product in that cart by exactly `quantity`, keeps its cart and product, and leaves every other bag as it was |
| `CartRouter.MergeProductRaisesItemCount` | src/server/routers/cart.ts:72-83 | after the merge the cart's item count is higher by `quantity` times the number of merged bags |
| `CartRouter.NewBagRaisesItemCount` | src/server/routers/cart.ts:85-94 | a created open bag of one unit raises the cart's item count by exactly 1 |
| `CartRouter.UpdateManyAt` | src/server/routers/cart.ts:72-83 | `updateMany` keeps the length and order, rewrites every matching row with the data clause and leaves every other row unchanged |
| `CartRouter.UpdateManyNoMatch` | src/server/routers/cart.ts:85 | an `updateMany` whose count is 0 leaves the table unchanged |
| `CartRouter.UpdateManyKeepsIds` | src/server/routers/cart.ts:72-83 | `updateMany` keeps row ids unique and below the next id |
| `CartRouter.BagTable.ToggleBagSelect` | src/server/routers/cart.ts:99-117 | null and no change without a cart; otherwise the table after the one-bag toggle and the number of bags it matched |
| `CartRouter.ToggleOneAt` | src/server/routers/cart.ts:105-114 | only the bag with that id, in that cart and not checked out, gets `selected = !isSelected`; every other bag and every other field is unchanged |
| `CartRouter.ToggleOneIdempotent` | src/server/routers/cart.ts:105-114 | toggling twice with the same input gives the same table as toggling once |
| `CartRouter.BagTable.ToggleAllBagsSelect` | src/server/routers/cart.ts:118-137 | null and no change without a cart; otherwise the table after the all-bags toggle and the number of open bags of the cart |
| `CartRouter.ToggleAllAt` | src/server/routers/cart.ts:124-134 | every open bag of the cart gets `selected` true unless `shouldDeselect` is true (absent counts as select); bags of other carts and checked-out bags are untouched |
| `CartRouter.ToggleAllIdempotent` | src/server/routers/cart.ts:124-134 | toggling all twice with the same input gives the same table as once |
| `CartRouter.SelectionKeepsItemCount` | src/server/routers/cart.ts:105-134 | an update that only sets selection flags leaves every cart's item count unchanged |
| `CartRouter.FindBag` | src/server/routers/cart.ts:155-158 | the unique-key lookup finds a position holding a bag with that id, and finds none exactly when no bag has that id |
| `CartRouter.UpdateByIdAt` | src/server/routers/cart.ts:155-158 | with unique ids, an update by id rewrites the one bag with that id and no other |
| `CartRouter.UpdateByIdIsUpdateMany` | src/server/routers/cart.ts:155-158 | with unique ids, an update by id is the same as `updateMany` filtered by that id |
| `CartRouter.BagTable.UpdateCount` | src/server/routers/cart.ts:155-164 | the update by id changes only that bag's count; record-not-found exactly when no bag has the id; the returned bag is the old one with its count changed |
| `CartRouter.BagTable.IncrementItemCount` | src/server/routers/cart.ts:149-167 | null and no change without a cart; otherwise the bag with that id, whatever its cart, goes up by one, or record-not-found |
| `CartRouter.IncrementCountAt` | src/server/routers/cart.ts:155-163 | the bag with that id, in any cart, gets exactly one more item; every other bag is unchanged |
| `CartRouter.BagTable.DecrementItemCount` | src/server/routers/cart.ts:168-186 | null and no change without a cart; otherwise the bag with that id, whatever its cart, goes down by one with no floor, or record-not-found |
| `CartRouter.DecrementCountAt` | src/server/routers/cart.ts:174-183 | the bag with that id, in any cart, gets exactly one item fewer, even below zero; every other bag is unchanged |
| `CartRouter.DecrementUndoesIncrement` | src/server/routers/cart.ts:155-183 | decrementing a bag after incrementing it gives back the original table |
| `CartRouter.BagTable.UpdateItemCount` | src/server/routers/cart.ts:188-204 | null and no change without a cart; otherwise the bag with that id, whatever its cart, gets count `quantity >= 1`, or record-not-found |
| `CartRouter.OverwriteCountAt` | src/server/routers/cart.ts:194-201 | the bag with that id, in any cart, gets count `quantity`; every other bag is unchanged |
| `CartRouter.OverwriteCountIdempotent` | src/server/routers/cart.ts:194-201 | setting the same count twice is the same as setting it once |
| `CartRouter.BagTable.DeleteItem` | src/server/routers/cart.ts:205-219 | null and no change without a cart; otherwise the table without the bag of that id in the caller's cart, and the number of bags removed |
| `CartRouter.DeleteMany` | src/server/routers/cart.ts:211-216 | a row survives `deleteMany` exactly when it was in the table and does not match |
| `CartRouter.DeleteManyCount` | src/server/routers/cart.ts:211-216 | `deleteMany` removes exactly as many rows as match |
| `CartRouter.DeleteManyKeepsIds` | src/server/routers/cart.ts:211-216 | `deleteMany` keeps bag ids unique |
| `CartRouter.RemoveBagEffect` | src/server/routers/cart.ts:211-216 | exactly the bags with that id and the caller's cart are removed, checked out or not; every other bag survives |
| `ProductRouter.ClampCategory` | src/server/routers/product.ts:17 | the category is at most 7, and equals the input exactly when the input is at most 7 (no lower clamp) |
| `ProductRouter.ProductStore.Create` | src/server/routers/product.ts:9-33 | no seller: null and nothing sent. Falsy upload answer: null and no product. Otherwise exactly one product appended, with the caller's seller id, the uploaded image id and the clamped category |
| `ProductRouter.ProductStore.List` | src/server/routers/product.ts:35-54 | null without a seller; otherwise a listing is returned exactly when it is the listing of one of the caller's products |
| `ProductRouter.ListFor` | src/server/routers/product.ts:39-51 | each of the seller's products is listed, and every listing comes from one of the seller's products |
| `ProductRouter.ProductStore.Update` | src/server/routers/product.ts:56-83 | null and no change without a seller; an upload is sent, under the old public id, exactly when the new image does not contain the stored id; the caller's rows with that id get the new fields and the stored image; the answer is their count |
| `ProductRouter.EmbeddedIdIsKept` | src/server/routers/product.ts:60-65 | an image string that contains the stored image id is not uploaded again and the stored id is kept |
| `ProductRouter.StoredImageChanged` | src/server/routers/product.ts:60-65 | a stored image other than the old id happens only when the image no longer contains the old id and the upload answered that very value; a null answer falls back to the old id |
| `ProductRouter.PublicIdOfSegments` | src/server/routers/product.ts:63 | the public id of an image id made of `/`-separated segments is the third segment, and undefined with fewer than three |
| `ProductRouter.EditOwnedAt` | src/server/routers/product.ts:69-80 | only rows with that id and the caller's seller id change, and only in title, price, description and image; id, seller and category stay |
| `ProductRouter.OtherSellersUntouchedByEdit` | src/server/routers/product.ts:69-80 | every product of another seller comes out of the update unchanged |
| `ProductRouter.ProductStore.Delete` | src/server/routers/product.ts:84-100 | null and no change without a seller; otherwise the caller's rows with that id are removed, the answer is their count, and the image deletion is requested whatever the count |
| `ProductRouter.DeleteOwned` | src/server/routers/product.ts:90-95 | a product survives exactly when it was in the table and is not the caller's product with that id |
| `ProductRouter.DeleteOwnedCount` | src/server/routers/product.ts:90-95 | `delete` removes as many rows as match, and every other seller's products survive |
| `JsString.IncludesIff` | src/server/routers/product.ts:62 | `includes` holds exactly when the substring occurs at some position |
| `JsString.Split` | src/server/routers/product.ts:63 | `split('/')` yields at least one segment, none of which contains the separator |
| `JsString.JoinSplit` | src/server/routers/product.ts:63 | joining the segments of a split with the separator gives the string back |
| `JsString.SplitJoin` | src/server/routers/product.ts:63 | splitting separator-free segments joined by the separator gives the segments back |

## Left out

- The identity lookups (`getCartId`, `getBuyerId`, `getSellerId`) are not part of this model. Their answers are parameters. `None` stands for every falsy answer (null, undefined, 0, the empty string).
- `getSelectedCartItems`, `getCartItemsPrice` and `removeFromCart` (src/server/routers/cart.ts:60-64, 138-148) only forward to helpers that are not part of this model.
- CartRouter.BagTable.GetCartItems: returns the cart's open bags themselves. The joined product fields (image, title, stock, price) and the seller's store name are not modelled, because the product-to-seller relation is not part of this model.
- CartRouter.BagTable.GetCartItems: assumes the looked-up cart row exists. The model has no cart table, so the `undefined` of `cart?.bags` for a missing cart is not modelled.
- The defaults the database gives a created bag's `selected` and `checkedOut` fields come from a schema that is not part of this model. `BagTable` takes them as constructor parameters.
- Bag ids are taken to be auto-incremented (the `nextId` field). Product ids are a parameter of `Create`, the id the database assigns.
- Database semantics beyond filter-and-update are not modelled: transactions, the race between `updateMany` and `create` in `addToCart`, and errors other than the record-not-found of a unique-key `update`. That error is returned as a `RecordNotFound` value instead of being thrown.
- Prices: `input.price * 100` is a floating-point conversion. The model takes the resulting `priceInCents` string as given and copies it through.
- ProductRouter.ClampCategory: takes an integer. The `+input.category` string-to-number conversion is not modelled, nor its NaN result (which the comparison sends to 7) or fractional values.
- The category `connect` fails when no category row has the clamped id. That failure is not modelled, because the category table is not part of this model.
- The image host is not modelled beyond its answers and the requests sent to it. An upload's answer is a function of the image and the optional public id. Failures and exceptions of the upload or the deletion are not modelled.
- Input validation is left to the schema library. `quantity >= 1` is a precondition of `AddToCart` and `UpdateItemCount`. Non-integer numbers are not modelled.
- Integers are unbounded. Overflow of a database integer column under repeated increments or decrements is not modelled.
- The React components (login form, address modal, image drop zone, order list) and the build configuration are outside the routers and are not modelled.
