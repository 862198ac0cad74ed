/**
 * The product controller (backend/src/controllers/product.controller.ts):
 * the public listings (all products with search, price and category
 * filters; featured; by seller; by category) with their pagination, lookup
 * by id, and the seller-only operations (create, update, soft delete,
 * replace attributes, replace tags) with their ownership checks.
 *
 * The products table is a sequence of rows in the order the database
 * returns them; the sort order a query asks for is not modelled. Prices are
 * integers (cents); query and body values arrive already parsed where
 * JavaScript's `parseFloat` would read them.
 */
module ProductController {
  import opened Wrappers
  import Strings
  import Seqs
  import opened ErrorHandler

  const Active := "ACTIVE"
  const Deleted := "DELETED"

  /** A product attribute: a name and a value. */
  datatype Attribute = Attribute(name: string, value: string)

  /** A product row with its attributes and tag names. */
  datatype Product = Product(
    id: string, name: string, description: string, price: int, discountPrice: Option<int>,
    stock: int, sku: Option<string>, images: seq<string>, sellerId: Option<string>,
    categoryId: string, status: string, featured: bool,
    attributes: seq<Attribute>, tags: seq<string>)

  /** `price: { gte?, lte? }` */
  datatype PriceRange = PriceRange(gte: Option<int>, lte: Option<int>)

  /**
   * A Prisma `where` clause over products, as the controller builds them
   * (types/prisma.ts declares the shape): every condition present must hold;
   * `search` stands for the `OR` of a name match and a description match.
   */
  datatype ProductFilter = ProductFilter(
    status: Option<string>, stockGt: Option<int>, search: Option<string>,
    price: Option<PriceRange>, categoryId: Option<string>,
    sellerId: Option<string>, featured: Option<bool>)

  const NoFilter := ProductFilter(None, None, None, None, None, None, None)

  /** The row satisfies the `where` clause. Text matching is case-sensitive here. */
  predicate Matches(f: ProductFilter, p: Product) {
    && (f.status.Some? ==> p.status == f.status.value)
    && (f.stockGt.Some? ==> p.stock > f.stockGt.value)
    && (f.search.Some? ==> Strings.Contains(p.name, f.search.value) || Strings.Contains(p.description, f.search.value))
    && (f.price.Some? ==>
          (f.price.value.gte.Some? ==> p.price >= f.price.value.gte.value) &&
          (f.price.value.lte.Some? ==> p.price <= f.price.value.lte.value))
    && (f.categoryId.Some? ==> p.categoryId == f.categoryId.value)
    && (f.sellerId.Some? ==> p.sellerId == f.sellerId)
    && (f.featured.Some? ==> p.featured == f.featured.value)
  }

  // ---------------------------------------------------------------------
  // Pagination
  // ---------------------------------------------------------------------

  /** The parsed `page` and `limit` query values. */
  datatype Paging = Paging(page: int, limit: int)

  /**
   * Read `page` and `limit` (defaults `'1'` and the given default limit). A
   * value that is not a number, a page below 1 or a limit below 1 goes to
   * the database as it is, whose reaction is not modelled: `None`.
   */
  function ParsePaging(page: Option<string>, limit: Option<string>, defaultLimit: string): (r: Option<Paging>)
    ensures r.Some? ==> r.value.page >= 1 && r.value.limit >= 1
  {
    var pageNum := Strings.ParseInt(page.GetOr("1"));
    var limitNum := Strings.ParseInt(limit.GetOr(defaultLimit));
    if pageNum.Some? && limitNum.Some? && pageNum.value >= 1 && limitNum.value >= 1 then
      Some(Paging(pageNum.value, limitNum.value))
    else None
  }

  /** Without `page` and `limit` the first page of ten is listed. */
  lemma DefaultPaging()
    ensures ParsePaging(None, None, "10") == Some(Paging(1, 10))
  {
    Strings.ParseDecimal(1);
    Strings.ParseDecimal(10);
    assert Strings.DecimalText(1) == "1";
    assert Strings.DecimalText(10) == "10";
  }

  /** `(pageNum - 1) * limitNum` */
  function Skip(paging: Paging): (s: int)
    requires paging.page >= 1 && paging.limit >= 1
    ensures s >= 0
  {
    (paging.page - 1) * paging.limit
  }

  /** `Math.ceil(total / limit)`: the fewest pages of `limit` rows that hold `total` rows. */
  function TotalPages(total: nat, limit: int): (pages: nat)
    requires limit >= 1
    ensures total == 0 ==> pages == 0
    ensures total > 0 ==> (pages - 1) * limit < total <= pages * limit
  {
    var q := (total + limit - 1) / limit;
    var m := (total + limit - 1) % limit;
    assert total + limit - 1 == q * limit + m;
    assert (q - 1) * limit == q * limit - limit;
    q
  }

  /** Multiplying by a positive limit keeps the order of page numbers. */
  lemma MulMonotone(a: int, b: int, limit: int)
    requires a <= b && limit >= 1
    ensures a * limit <= b * limit
  {
    assert b * limit - a * limit == (b - a) * limit;
  }

  /** The rows of one page: `skip` rows are passed over and at most `limit` taken. */
  function PageOf(rows: seq<Product>, paging: Paging): (r: seq<Product>)
    requires paging.page >= 1 && paging.limit >= 1
    ensures |r| <= paging.limit
    ensures Skip(paging) < |rows| ==> |r| == if Skip(paging) + paging.limit <= |rows| then paging.limit else |rows| - Skip(paging)
    ensures Skip(paging) >= |rows| ==> r == []
    ensures forall i :: 0 <= i < |r| ==> r[i] == rows[Skip(paging) + i]
  {
    var skip := Skip(paging);
    if skip >= |rows| then []
    else if skip + paging.limit <= |rows| then rows[skip..skip + paging.limit]
    else rows[skip..]
  }

  /** Row `i` of the matching rows is on page `i / limit + 1`, at position `i % limit`. */
  lemma EveryRowOnItsPage(rows: seq<Product>, limit: int, i: int)
    requires limit >= 1 && 0 <= i < |rows|
    ensures var paging := Paging(i / limit + 1, limit);
      i % limit < |PageOf(rows, paging)| && PageOf(rows, paging)[i % limit] == rows[i]
  {
    var paging := Paging(i / limit + 1, limit);
    assert Skip(paging) == (i / limit) * limit;
    assert Skip(paging) + i % limit == i;
  }

  /** The `pagination` object of a listing. */
  datatype PageInfo = PageInfo(total: nat, page: int, totalPages: nat, hasMore: bool)

  function Info(total: nat, paging: Paging): (info: PageInfo)
    requires paging.page >= 1 && paging.limit >= 1
    ensures info.total == total && info.page == paging.page
    ensures info.hasMore <==> info.page < info.totalPages
  {
    var totalPages := TotalPages(total, paging.limit);
    PageInfo(total, paging.page, totalPages, paging.page < totalPages)
  }

  /** There is a next page exactly when rows remain after this one. */
  lemma HasMoreIffRowsRemain(total: nat, paging: Paging)
    requires paging.page >= 1 && paging.limit >= 1
    ensures Info(total, paging).hasMore <==> Skip(paging) + paging.limit < total
  {
    var pages := TotalPages(total, paging.limit);
    assert Skip(paging) + paging.limit == paging.page * paging.limit;
    if total > 0 {
      if paging.page < pages {
        MulMonotone(paging.page, pages - 1, paging.limit);
      } else {
        MulMonotone(pages, paging.page, paging.limit);
      }
    }
  }

  /** `nextPage` and `prevPage`, which only the full listing reports. */
  datatype Links = Links(nextPage: Option<int>, prevPage: Option<int>)

  function LinksOf(info: PageInfo): (l: Links)
    ensures l.nextPage.Some? <==> info.hasMore
    ensures l.nextPage.Some? ==> l.nextPage.value == info.page + 1
    ensures l.prevPage.Some? <==> info.page > 1
    ensures l.prevPage.Some? ==> l.prevPage.value == info.page - 1
  {
    Links(if info.hasMore then Some(info.page + 1) else None,
          if info.page > 1 then Some(info.page - 1) else None)
  }

  /** A paginated listing's body: `count`, `pagination` (with the links, for the full listing) and `data`. */
  datatype Listing = Listing(count: nat, pagination: PageInfo, links: Option<Links>, data: seq<Product>)

  /** One page of the rows that pass `keep`, with its pagination info. */
  function Paginated(rows: seq<Product>, keep: Product -> bool, paging: Paging, withLinks: bool): (l: Listing)
    requires paging.page >= 1 && paging.limit >= 1
    ensures l.count == |l.data| <= paging.limit
    ensures l.pagination == Info(|Seqs.Filter(rows, keep)|, paging)
    ensures l.data == PageOf(Seqs.Filter(rows, keep), paging)
    ensures forall i :: 0 <= i < |l.data| ==> l.data[i] in rows && keep(l.data[i])
    ensures l.links.Some? <==> withLinks
  {
    var matching := Seqs.Filter(rows, keep);
    var data := PageOf(matching, paging);
    assert forall i :: 0 <= i < |data| ==> data[i] in matching;
    var info := Info(|matching|, paging);
    Listing(|data|, info, if withLinks then Some(LinksOf(info)) else None, data)
  }

  // ---------------------------------------------------------------------
  // getAllProducts
  // ---------------------------------------------------------------------

  /**
   * The query of `GET /products`. `minPrice` and `maxPrice` are the parsed
   * values of truthy query strings (`None` when absent or empty); `category`
   * is the raw query value.
   */
  datatype ListingQuery = ListingQuery(
    page: Option<string>, limit: Option<string>, search: string,
    minPrice: Option<int>, maxPrice: Option<int>, category: Option<string>)

  /** Which products the full listing shows, stated independently of the filter object. */
  predicate Listed(q: ListingQuery, p: Product) {
    && p.status == Active
    && p.stock > 0
    && (q.search == "" || Strings.Contains(p.name, q.search) || Strings.Contains(p.description, q.search))
    && (q.minPrice.None? || q.minPrice.value <= p.price)
    && (q.maxPrice.None? || p.price <= q.maxPrice.value)
    && (!Strings.Truthy(q.category) || p.categoryId == q.category.value)
  }

  /** The `filter` object `getAllProducts` builds, step by step. */
  method BuildListingFilter(q: ListingQuery) returns (filter: ProductFilter)
    ensures filter.status == Some(Active) && filter.stockGt == Some(0)
    ensures filter.search.Some? <==> q.search != ""
    ensures filter.price.Some? <==> q.minPrice.Some? || q.maxPrice.Some?
    ensures forall p :: Matches(filter, p) <==> Listed(q, p)
  {
    filter := NoFilter.(status := Some(Active), stockGt := Some(0));
    if q.search != "" {
      filter := filter.(search := Some(q.search));
    }
    if q.minPrice.Some? || q.maxPrice.Some? {
      var range := PriceRange(None, None);
      if q.minPrice.Some? {
        range := range.(gte := q.minPrice);
      }
      if q.maxPrice.Some? {
        range := range.(lte := q.maxPrice);
      }
      filter := filter.(price := Some(range));
    }
    if Strings.Truthy(q.category) {
      filter := filter.(categoryId := q.category);
    }
  }

  /** The full listing's test, as a function value. */
  function ListedBy(q: ListingQuery): Product -> bool {
    p => Listed(q, p)
  }

  /**
   * `getAllProducts`: the requested page of the listed products, in table
   * order; `total` counts every listed product; the links are reported.
   */
  function AllProducts(rows: seq<Product>, q: ListingQuery): (r: Option<Listing>)
    ensures r.Some? <==> ParsePaging(q.page, q.limit, "10").Some?
    ensures r.Some? ==> var paging := ParsePaging(q.page, q.limit, "10").value;
      && r.value.data == PageOf(Seqs.Filter(rows, ListedBy(q)), paging)
      && r.value.pagination == Info(|Seqs.Filter(rows, ListedBy(q))|, paging)
      && r.value.count == |r.value.data| <= paging.limit
      && r.value.links == Some(LinksOf(r.value.pagination))
    ensures r.Some? ==> forall i :: 0 <= i < |r.value.data| ==> r.value.data[i] in rows && Listed(q, r.value.data[i])
  {
    var paging := ParsePaging(q.page, q.limit, "10");
    if paging.None? then None
    else Some(Paginated(rows, ListedBy(q), paging.value, true))
  }

  // ---------------------------------------------------------------------
  // getFeaturedProducts, getProductsBySeller, getProductsByCategory
  // ---------------------------------------------------------------------

  predicate IsFeatured(p: Product) {
    p.featured && p.status == Active && p.stock > 0
  }

  /**
   * `getFeaturedProducts`: the first `limit` (default 8) featured, active,
   * in-stock products. A limit that is not a number or is negative is not
   * modelled.
   */
  function FeaturedProducts(rows: seq<Product>, limit: Option<string>): (r: Option<seq<Product>>)
    ensures r.Some? <==> Strings.ParseInt(limit.GetOr("8")).Some? && Strings.ParseInt(limit.GetOr("8")).value >= 0
    ensures r.Some? ==> |r.value| <= Strings.ParseInt(limit.GetOr("8")).value
    ensures r.Some? ==> forall i :: 0 <= i < |r.value| ==> r.value[i] in rows && IsFeatured(r.value[i])
    ensures r.Some? ==> var featured := Seqs.Filter(rows, IsFeatured);
      var n := Strings.ParseInt(limit.GetOr("8")).value;
      r.value == if n < |featured| then featured[..n] else featured
  {
    var limitNum := Strings.ParseInt(limit.GetOr("8"));
    if limitNum.None? || limitNum.value < 0 then None
    else
      var featured := Seqs.Filter(rows, IsFeatured);
      var taken := if limitNum.value < |featured| then featured[..limitNum.value] else featured;
      assert forall i :: 0 <= i < |taken| ==> taken[i] == featured[i] && featured[i] in featured;
      Some(taken)
  }

  /** The seller's listing shows active products whatever their stock. */
  predicate SellerListed(sellerId: string, p: Product) {
    p.sellerId == Some(sellerId) && p.status == Active
  }

  /** The category listing shows active products in stock. */
  predicate CategoryListed(categoryId: string, p: Product) {
    p.categoryId == categoryId && p.status == Active && p.stock > 0
  }

  function SellerListedBy(sellerId: string): Product -> bool {
    p => SellerListed(sellerId, p)
  }

  function CategoryListedBy(categoryId: string): Product -> bool {
    p => CategoryListed(categoryId, p)
  }

  /** `getProductsBySeller`: the requested page of the seller's active products, with their total; no links. */
  function ProductsBySeller(rows: seq<Product>, sellerId: string, page: Option<string>, limit: Option<string>)
    : (r: Option<Listing>)
    ensures r.Some? <==> ParsePaging(page, limit, "10").Some?
    ensures r.Some? ==> var paging := ParsePaging(page, limit, "10").value;
      && r.value.data == PageOf(Seqs.Filter(rows, SellerListedBy(sellerId)), paging)
      && r.value.pagination == Info(|Seqs.Filter(rows, SellerListedBy(sellerId))|, paging)
      && r.value.count == |r.value.data| <= paging.limit
      && r.value.links.None?
    ensures r.Some? ==> forall i :: 0 <= i < |r.value.data| ==> r.value.data[i] in rows && SellerListed(sellerId, r.value.data[i])
  {
    var paging := ParsePaging(page, limit, "10");
    if paging.None? then None
    else Some(Paginated(rows, SellerListedBy(sellerId), paging.value, false))
  }

  /** `getProductsByCategory`: the requested page of the category's active products in stock, with their total; no links. */
  function ProductsByCategory(rows: seq<Product>, categoryId: string, page: Option<string>, limit: Option<string>)
    : (r: Option<Listing>)
    ensures r.Some? <==> ParsePaging(page, limit, "10").Some?
    ensures r.Some? ==> var paging := ParsePaging(page, limit, "10").value;
      && r.value.data == PageOf(Seqs.Filter(rows, CategoryListedBy(categoryId)), paging)
      && r.value.pagination == Info(|Seqs.Filter(rows, CategoryListedBy(categoryId))|, paging)
      && r.value.count == |r.value.data| <= paging.limit
      && r.value.links.None?
    ensures r.Some? ==> forall i :: 0 <= i < |r.value.data| ==> r.value.data[i] in rows && CategoryListed(categoryId, r.value.data[i])
  {
    var paging := ParsePaging(page, limit, "10");
    if paging.None? then None
    else Some(Paginated(rows, CategoryListedBy(categoryId), paging.value, false))
  }

  /** The category listing is the full listing restricted to that category, with no search and no price range. */
  lemma CategoryIsFilteredListing(categoryId: string, page: Option<string>, limit: Option<string>, p: Product)
    requires categoryId != ""
    ensures CategoryListed(categoryId, p) <==> Listed(ListingQuery(page, limit, "", None, None, Some(categoryId)), p)
  {
  }

  /** An active product out of stock is on its seller's listing but on no public listing. */
  lemma OutOfStockOnlyOnSellerListing(p: Product, q: ListingQuery)
    requires p.status == Active && p.stock <= 0 && p.sellerId.Some?
    ensures SellerListed(p.sellerId.value, p)
    ensures !Listed(q, p) && !CategoryListed(p.categoryId, p) && !IsFeatured(p)
  {
  }

  /** A product that is not active (a deleted one, say) is on no listing at all. */
  lemma InactiveNeverListed(p: Product, q: ListingQuery, sellerId: string, categoryId: string)
    requires p.status != Active
    ensures !Listed(q, p) && !SellerListed(sellerId, p) && !CategoryListed(categoryId, p) && !IsFeatured(p)
  {
  }

  // ---------------------------------------------------------------------
  // getProductById and the ownership check
  // ---------------------------------------------------------------------

  predicate UniqueIds(rows: seq<Product>) {
    forall i, j :: 0 <= i < j < |rows| ==> rows[i].id != rows[j].id
  }

  /** `findUnique({ where: { id } })`: the row with that id, or -1. */
  function IndexOf(rows: seq<Product>, id: string): (k: int)
    ensures -1 <= k < |rows|
    ensures k >= 0 ==> rows[k].id == id && forall j :: 0 <= j < k ==> rows[j].id != id
    ensures k == -1 <==> forall j :: 0 <= j < |rows| ==> rows[j].id != id
  {
    if rows == [] then -1
    else if rows[0].id == id then 0
    else
      var k := IndexOf(rows[1..], id);
      if k == -1 then -1 else k + 1
  }

  const NotFound := HttpError("Product not found", 404)

  /** The 403 of the ownership check; `verb` names the operation. */
  function Forbidden(verb: string): HttpError {
    HttpError("You are not authorized to " + verb + " this product", 403)
  }

  /** `getProductById`: the product whatever its status, or 404. */
  function ProductById(rows: seq<Product>, id: string): (r: Result<Product, HttpError>)
    ensures r.Ok? <==> exists j :: 0 <= j < |rows| && rows[j].id == id
    ensures r.Ok? ==> r.value.id == id && r.value in rows
    ensures r.Err? ==> r.error == NotFound
  {
    var k := IndexOf(rows, id);
    if k == -1 then Err(NotFound) else Ok(rows[k])
  }

  /**
   * `existingProduct.sellerId === sellerId`: the row's seller (a string, or
   * `null` when it has none) against the caller's seller profile (a string,
   * or `undefined` without one). `null` and `undefined` differ under `===`,
   * so a caller without a profile owns no row.
   */
  predicate Owns(row: Product, sellerId: Option<string>) {
    sellerId.Some? && row.sellerId == sellerId
  }

  /**
   * The check at the start of every seller operation: the product must exist
   * (404) and belong to the caller's seller profile (403). `verb` names the
   * operation in the message.
   */
  function Authorize(rows: seq<Product>, id: string, sellerId: Option<string>, verb: string): (r: Result<nat, HttpError>)
    ensures r.Ok? <==> IndexOf(rows, id) >= 0 && sellerId.Some? && rows[IndexOf(rows, id)].sellerId == sellerId
    ensures r.Ok? ==> r.value == IndexOf(rows, id)
    ensures IndexOf(rows, id) == -1 ==> r == Err(NotFound)
    ensures IndexOf(rows, id) >= 0 && r.Err? ==>
      r.error == Forbidden(verb)
  {
    var k := IndexOf(rows, id);
    if k == -1 then Err(NotFound)
    else if !Owns(rows[k], sellerId) then Err(Forbidden(verb))
    else Ok(k)
  }

  /**
   * A caller without a seller profile (an admin, say) is refused on every
   * product: 404 when there is no such product, 403 otherwise, whether or
   * not the product has a seller.
   */
  lemma NoProfileNoAccess(rows: seq<Product>, id: string, verb: string)
    ensures Authorize(rows, id, None, verb) == if IndexOf(rows, id) >= 0 then Err(Forbidden(verb)) else Err(NotFound)
  {
  }

  // ---------------------------------------------------------------------
  // Seller operations
  // ---------------------------------------------------------------------

  /** What an operation answers and the table afterwards. */
  datatype Outcome<T> = Outcome(response: Result<T, HttpError>, rows: seq<Product>)

  /**
   * The body of `POST /products`, with `price` and `stock` parsed;
   * `discountPrice` is the parsed value when present.
   */
  datatype NewProduct = NewProduct(
    name: string, description: string, price: int, discountPrice: Option<int>, stock: int,
    sku: Option<string>, images: Option<seq<string>>, categoryId: string,
    attributes: seq<Attribute>, tags: seq<string>)

  /**
   * The row `createProduct` writes: a zero or missing discount is `null`,
   * missing images are `[]`, the seller is the caller's seller profile and
   * the status is ACTIVE. A new product is not featured.
   */
  function Created(id: string, sellerId: Option<string>, input: NewProduct): (p: Product)
    ensures p.id == id && p.sellerId == sellerId && p.status == Active && !p.featured
    ensures p.name == input.name && p.description == input.description && p.price == input.price
    ensures p.stock == input.stock && p.sku == input.sku && p.categoryId == input.categoryId
    ensures p.discountPrice.Some? <==> input.discountPrice.Some? && input.discountPrice.value != 0
    ensures p.discountPrice.Some? ==> p.discountPrice == input.discountPrice
    ensures input.images.None? ==> p.images == []
    ensures input.images.Some? ==> p.images == input.images.value
    ensures p.attributes == input.attributes && p.tags == input.tags
  {
    var discount := if input.discountPrice.Some? && input.discountPrice.value != 0 then input.discountPrice else None;
    Product(id, input.name, input.description, input.price, discount, input.stock, input.sku,
            input.images.GetOr([]), sellerId, input.categoryId, Active, false, input.attributes, input.tags)
  }

  /** The fields of an update body that are set; `data: req.body` writes each of them as given. */
  datatype ProductPatch = ProductPatch(
    name: Option<string>, description: Option<string>, price: Option<int>,
    discountPrice: Option<Option<int>>, stock: Option<int>, sku: Option<Option<string>>,
    images: Option<seq<string>>, categoryId: Option<string>, status: Option<string>,
    featured: Option<bool>, sellerId: Option<Option<string>>)

  /** The row after `prisma.product.update({ data: req.body })`: set fields replaced, the rest kept. */
  function Patched(p: Product, patch: ProductPatch): (r: Product)
    ensures r.id == p.id && r.attributes == p.attributes && r.tags == p.tags
    ensures r.name == patch.name.GetOr(p.name) && r.description == patch.description.GetOr(p.description)
    ensures r.price == patch.price.GetOr(p.price) && r.stock == patch.stock.GetOr(p.stock)
    ensures r.discountPrice == patch.discountPrice.GetOr(p.discountPrice) && r.sku == patch.sku.GetOr(p.sku)
    ensures r.images == patch.images.GetOr(p.images) && r.categoryId == patch.categoryId.GetOr(p.categoryId)
    ensures r.status == patch.status.GetOr(p.status) && r.featured == patch.featured.GetOr(p.featured)
    ensures r.sellerId == patch.sellerId.GetOr(p.sellerId)
  {
    p.(name := patch.name.GetOr(p.name), description := patch.description.GetOr(p.description),
       price := patch.price.GetOr(p.price), discountPrice := patch.discountPrice.GetOr(p.discountPrice),
       stock := patch.stock.GetOr(p.stock), sku := patch.sku.GetOr(p.sku),
       images := patch.images.GetOr(p.images), categoryId := patch.categoryId.GetOr(p.categoryId),
       status := patch.status.GetOr(p.status), featured := patch.featured.GetOr(p.featured),
       sellerId := patch.sellerId.GetOr(p.sellerId))
  }

  /** An empty update body leaves the row as it is. */
  lemma EmptyPatchKeepsRow(p: Product)
    ensures Patched(p, ProductPatch(None, None, None, None, None, None, None, None, None, None, None)) == p
  {
  }

  /** A checked operation on the row with that id: the table changes only when the check passes. */
  function Checked<T>(rows: seq<Product>, id: string, sellerId: Option<string>, verb: string,
                      change: Product -> Product, answer: Product -> T): (o: Outcome<T>)
    ensures Authorize(rows, id, sellerId, verb).Err? ==>
      o.response == Err(Authorize(rows, id, sellerId, verb).error) && o.rows == rows
    ensures Authorize(rows, id, sellerId, verb).Ok? ==>
      var k := IndexOf(rows, id);
      o.rows == rows[k := change(rows[k])] && o.response == Ok(answer(change(rows[k])))
  {
    var check := Authorize(rows, id, sellerId, verb);
    if check.Err? then Outcome(Err(check.error), rows)
    else
      var k := check.value;
      var changed := change(rows[k]);
      Outcome(Ok(answer(changed)), rows[k := changed])
  }

  function Identity(p: Product): Product {
    p
  }

  function Nothing(p: Product): () {
    ()
  }

  /**
   * `updateProduct`: the owner's update patches that row and answers it; any
   * other request answers the check's 404 or 403 and leaves the table alone.
   */
  function AfterUpdate(rows: seq<Product>, id: string, sellerId: Option<string>, patch: ProductPatch)
    : (o: Outcome<Product>)
    ensures Authorize(rows, id, sellerId, "update").Err? ==>
      o == Outcome(Err(Authorize(rows, id, sellerId, "update").error), rows)
    ensures Authorize(rows, id, sellerId, "update").Ok? ==> var k := IndexOf(rows, id);
      o == Outcome(Ok(Patched(rows[k], patch)), rows[k := Patched(rows[k], patch)])
  {
    Checked(rows, id, sellerId, "update", p => Patched(p, patch), Identity)
  }

  /**
   * `deleteProduct`: for the owner the row stays, with status DELETED; any
   * other request answers the check's 404 or 403 and leaves the table alone.
   */
  function AfterDelete(rows: seq<Product>, id: string, sellerId: Option<string>): (o: Outcome<()>)
    ensures Authorize(rows, id, sellerId, "delete").Err? ==>
      o == Outcome(Err(Authorize(rows, id, sellerId, "delete").error), rows)
    ensures Authorize(rows, id, sellerId, "delete").Ok? ==> var k := IndexOf(rows, id);
      o == Outcome(Ok(()), rows[k := rows[k].(status := Deleted)])
  {
    Checked(rows, id, sellerId, "delete", (p: Product) => p.(status := Deleted), Nothing)
  }

  /**
   * `addProductAttributes`: for the owner the attributes are replaced by the
   * given list; any other request answers the check's 404 or 403 and leaves
   * the table alone.
   */
  function AfterAttributes(rows: seq<Product>, id: string, sellerId: Option<string>, attributes: seq<Attribute>)
    : (o: Outcome<Product>)
    ensures Authorize(rows, id, sellerId, "update").Err? ==>
      o == Outcome(Err(Authorize(rows, id, sellerId, "update").error), rows)
    ensures Authorize(rows, id, sellerId, "update").Ok? ==> var k := IndexOf(rows, id);
      o == Outcome(Ok(rows[k].(attributes := attributes)), rows[k := rows[k].(attributes := attributes)])
  {
    Checked(rows, id, sellerId, "update", (p: Product) => p.(attributes := attributes), Identity)
  }

  /**
   * `addProductTags`: for the owner the tags are replaced by the given list;
   * any other request answers the check's 404 or 403 and leaves the table
   * alone.
   */
  function AfterTags(rows: seq<Product>, id: string, sellerId: Option<string>, tags: seq<string>)
    : (o: Outcome<Product>)
    ensures Authorize(rows, id, sellerId, "update").Err? ==>
      o == Outcome(Err(Authorize(rows, id, sellerId, "update").error), rows)
    ensures Authorize(rows, id, sellerId, "update").Ok? ==> var k := IndexOf(rows, id);
      o == Outcome(Ok(rows[k].(tags := tags)), rows[k := rows[k].(tags := tags)])
  {
    Checked(rows, id, sellerId, "update", (p: Product) => p.(tags := tags), Identity)
  }

  /** Replacing one row by a row with the same id keeps ids unique and every other row. */
  lemma ReplaceKeepsIds(rows: seq<Product>, k: int, p: Product)
    requires 0 <= k < |rows| && rows[k].id == p.id && UniqueIds(rows)
    ensures UniqueIds(rows[k := p])
    ensures IndexOf(rows[k := p], p.id) == k
  {
    var r := rows[k := p];
    assert r[k].id == p.id;
    assert forall j :: 0 <= j < k ==> r[j].id != p.id;
  }

  /** Update, delete, attributes and tags keep product ids unique and change only the product named. */
  lemma CheckedKeepsIds<T>(rows: seq<Product>, id: string, sellerId: Option<string>, verb: string,
                           change: Product -> Product, answer: Product -> T)
    requires UniqueIds(rows)
    requires forall p :: change(p).id == p.id
    ensures var o := Checked(rows, id, sellerId, verb, change, answer);
      UniqueIds(o.rows) && |o.rows| == |rows| &&
      forall j :: 0 <= j < |rows| && rows[j].id != id ==> o.rows[j] == rows[j]
  {
    if Authorize(rows, id, sellerId, verb).Ok? {
      ReplaceKeepsIds(rows, IndexOf(rows, id), change(rows[IndexOf(rows, id)]));
    }
  }

  /** A deleted product is still returned by id (with status DELETED) but is on no listing. */
  lemma SoftDelete(rows: seq<Product>, id: string, sellerId: Option<string>, q: ListingQuery, seller: string, category: string)
    requires UniqueIds(rows)
    requires AfterDelete(rows, id, sellerId).response.Ok?
    ensures var after := AfterDelete(rows, id, sellerId).rows;
      ProductById(after, id).Ok? && ProductById(after, id).value.status == Deleted &&
      !Listed(q, ProductById(after, id).value) && !SellerListed(seller, ProductById(after, id).value) &&
      !CategoryListed(category, ProductById(after, id).value) && !IsFeatured(ProductById(after, id).value)
  {
    var k := IndexOf(rows, id);
    ReplaceKeepsIds(rows, k, rows[k].(status := Deleted));
  }

  /**
   * Because the update writes the body as given, the owner can set any
   * status (bringing back a deleted product) or hand the product to another
   * seller, after which the former owner is refused.
   */
  lemma UpdateWritesAnyField(rows: seq<Product>, id: string, sellerId: Option<string>, newOwner: Option<string>)
    requires UniqueIds(rows)
    requires Authorize(rows, id, sellerId, "update").Ok?
    requires newOwner != sellerId
    ensures var patch := ProductPatch(None, None, None, None, None, None, None, None, Some(Active), None, Some(newOwner));
      var after := AfterUpdate(rows, id, sellerId, patch).rows;
      after[IndexOf(rows, id)].status == Active &&
      Authorize(after, id, sellerId, "update") == Err(Forbidden("update"))
  {
    var patch := ProductPatch(None, None, None, None, None, None, None, None, Some(Active), None, Some(newOwner));
    var k := IndexOf(rows, id);
    ReplaceKeepsIds(rows, k, Patched(rows[k], patch));
  }

  /** Replacing the attributes twice leaves the second list; likewise for tags. */
  lemma LastReplacementWins(rows: seq<Product>, id: string, sellerId: Option<string>,
                            a1: seq<Attribute>, a2: seq<Attribute>, t1: seq<string>, t2: seq<string>)
    requires UniqueIds(rows)
    ensures AfterAttributes(AfterAttributes(rows, id, sellerId, a1).rows, id, sellerId, a2).rows
      == AfterAttributes(rows, id, sellerId, a2).rows
    ensures AfterTags(AfterTags(rows, id, sellerId, t1).rows, id, sellerId, t2).rows
      == AfterTags(rows, id, sellerId, t2).rows
  {
    var k := IndexOf(rows, id);
    if k >= 0 {
      ReplaceKeepsIds(rows, k, rows[k].(attributes := a1));
      ReplaceKeepsIds(rows, k, rows[k].(tags := t1));
    }
  }

  /** `createProduct`: the new row is added and answered (with 201). */
  function AfterCreate(rows: seq<Product>, id: string, sellerId: Option<string>, input: NewProduct): (o: Outcome<Product>)
    requires IndexOf(rows, id) == -1
    ensures o.response == Ok(Created(id, sellerId, input))
    ensures o.rows == rows + [Created(id, sellerId, input)]
  {
    var p := Created(id, sellerId, input);
    Outcome(Ok(p), rows + [p])
  }

  /**
   * A created product can be read back by id, and is listed in its category
   * when in stock. Its creator may change it exactly when the creator has a
   * seller profile: a row created without one (by an admin) belongs to
   * nobody.
   */
  lemma CreateThenRead(rows: seq<Product>, id: string, sellerId: Option<string>, input: NewProduct)
    requires UniqueIds(rows) && IndexOf(rows, id) == -1
    ensures var after := AfterCreate(rows, id, sellerId, input).rows;
      UniqueIds(after) && ProductById(after, id) == Ok(Created(id, sellerId, input)) &&
      (Authorize(after, id, sellerId, "update").Ok? <==> sellerId.Some?) &&
      (input.stock > 0 ==> CategoryListed(input.categoryId, Created(id, sellerId, input)))
  {
    var after := AfterCreate(rows, id, sellerId, input).rows;
    assert IndexOf(after, id) == |rows| by {
      assert after[|rows|].id == id;
      assert forall j :: 0 <= j < |rows| ==> after[j] == rows[j];
    }
  }

  /** The products table, changed in place by the seller operations. */
  class ProductStore {
    var rows: seq<Product>

    predicate Valid()
      reads this
    {
      UniqueIds(rows)
    }

    constructor (rows: seq<Product>)
      ensures this.rows == rows
    {
      this.rows := rows;
    }

    /** `createProduct`, under the fresh id the database generates. */
    method CreateProduct(id: string, sellerId: Option<string>, input: NewProduct) returns (response: Result<Product, HttpError>)
      requires IndexOf(rows, id) == -1
      modifies this
      ensures response == AfterCreate(old(rows), id, sellerId, input).response
      ensures rows == AfterCreate(old(rows), id, sellerId, input).rows
      ensures old(Valid()) ==> Valid()
    {
      if Valid() {
        CreateThenRead(rows, id, sellerId, input);
      }
      var product := Created(id, sellerId, input);
      rows := rows + [product];
      response := Ok(product);
    }

    /** `updateProduct` */
    method UpdateProduct(id: string, sellerId: Option<string>, patch: ProductPatch) returns (response: Result<Product, HttpError>)
      modifies this
      ensures response == AfterUpdate(old(rows), id, sellerId, patch).response
      ensures rows == AfterUpdate(old(rows), id, sellerId, patch).rows
      ensures old(Valid()) ==> Valid()
    {
      var k := IndexOf(rows, id);
      if k == -1 {
        return Err(NotFound);
      }
      if !Owns(rows[k], sellerId) {
        return Err(Forbidden("update"));
      }
      var updated := Patched(rows[k], patch);
      if Valid() {
        ReplaceKeepsIds(rows, k, updated);
      }
      rows := rows[k := updated];
      response := Ok(updated);
    }

    /** `deleteProduct` */
    method DeleteProduct(id: string, sellerId: Option<string>) returns (response: Result<(), HttpError>)
      modifies this
      ensures response == AfterDelete(old(rows), id, sellerId).response
      ensures rows == AfterDelete(old(rows), id, sellerId).rows
      ensures old(Valid()) ==> Valid()
    {
      var k := IndexOf(rows, id);
      if k == -1 {
        return Err(NotFound);
      }
      if !Owns(rows[k], sellerId) {
        return Err(Forbidden("delete"));
      }
      if Valid() {
        ReplaceKeepsIds(rows, k, rows[k].(status := Deleted));
      }
      rows := rows[k := rows[k].(status := Deleted)];
      response := Ok(());
    }

    /** `addProductAttributes`: the old attributes are deleted, then the given ones created. */
    method AddProductAttributes(id: string, sellerId: Option<string>, attributes: seq<Attribute>)
      returns (response: Result<Product, HttpError>)
      modifies this
      ensures response == AfterAttributes(old(rows), id, sellerId, attributes).response
      ensures rows == AfterAttributes(old(rows), id, sellerId, attributes).rows
      ensures old(Valid()) ==> Valid()
    {
      var k := IndexOf(rows, id);
      if k == -1 {
        return Err(NotFound);
      }
      if !Owns(rows[k], sellerId) {
        return Err(Forbidden("update"));
      }
      var cleared := rows[k].(attributes := []);
      var updated := cleared.(attributes := attributes);
      if Valid() {
        ReplaceKeepsIds(rows, k, updated);
      }
      rows := rows[k := updated];
      response := Ok(updated);
    }

    /** `addProductTags`: the old tags are deleted, then the given ones created. */
    method AddProductTags(id: string, sellerId: Option<string>, tags: seq<string>)
      returns (response: Result<Product, HttpError>)
      modifies this
      ensures response == AfterTags(old(rows), id, sellerId, tags).response
      ensures rows == AfterTags(old(rows), id, sellerId, tags).rows
      ensures old(Valid()) ==> Valid()
    {
      var k := IndexOf(rows, id);
      if k == -1 {
        return Err(NotFound);
      }
      if !Owns(rows[k], sellerId) {
        return Err(Forbidden("update"));
      }
      var cleared := rows[k].(tags := []);
      var updated := cleared.(tags := tags);
      if Valid() {
        ReplaceKeepsIds(rows, k, updated);
      }
      rows := rows[k := updated];
      response := Ok(updated);
    }
  }
}
