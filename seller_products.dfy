/**
 * The seller's product list (frontend/src/pages/seller/ProductsPage.tsx):
 * the products, an "add product" form in a modal that prepends a new
 * product, and a delete button per product.
 */
module SellerProducts {
  import opened Wrappers
  import Seqs
  import Strings

  /**
   * A listed product. Prices are in cents; a price or stock that did not
   * parse (JavaScript's NaN) is `None`.
   */
  datatype Product = Product(
    id: string, name: string, price: Option<int>, description: string,
    category: string, stock: Option<int>, image: Option<string>)

  /** The form's text fields, as typed. */
  datatype ProductForm = ProductForm(name: string, price: string, description: string, category: string, stock: string)

  /** The input a change event comes from (its `name` attribute). */
  datatype FormField = NameField | PriceField | DescriptionField | CategoryField | StockField

  const EmptyForm := ProductForm("", "", "", "", "")

  /** `{ ...prev, [name]: value }` */
  function WithField(form: ProductForm, field: FormField, value: string): (r: ProductForm)
    ensures field.NameField? ==> r == form.(name := value)
    ensures field.PriceField? ==> r == form.(price := value)
    ensures field.DescriptionField? ==> r == form.(description := value)
    ensures field.CategoryField? ==> r == form.(category := value)
    ensures field.StockField? ==> r == form.(stock := value)
  {
    match field
    case NameField => form.(name := value)
    case PriceField => form.(price := value)
    case DescriptionField => form.(description := value)
    case CategoryField => form.(category := value)
    case StockField => form.(stock := value)
  }

  /**
   * The product `handleSubmit` builds from the form: the form's text fields,
   * a fresh id, the parsed price and stock, and no image. `parseFloat` is
   * not modelled; the parsed price is given.
   */
  function Submitted(form: ProductForm, id: string, price: Option<int>): (p: Product)
    ensures p.id == id && p.price == price && p.image == None
    ensures p.name == form.name && p.description == form.description && p.category == form.category
    ensures p.stock == Strings.ParseInt(form.stock)
  {
    Product(id, form.name, price, form.description, form.category, Strings.ParseInt(form.stock), None)
  }

  /** The test of `prev.filter(product => product.id !== productId)`. */
  function IdIsNot(productId: string): Product -> bool {
    (p: Product) => p.id != productId
  }

  /** The products after `handleDelete(productId)`: all others, in order. */
  function WithoutProduct(products: seq<Product>, productId: string): (r: seq<Product>)
    ensures forall i :: 0 <= i < |r| ==> r[i].id != productId && r[i] in products
    ensures forall i :: 0 <= i < |products| && products[i].id != productId ==> products[i] in r
  {
    Seqs.Filter(products, IdIsNot(productId))
  }

  /** Deleting an id that is not listed changes nothing. */
  lemma DeleteAbsent(products: seq<Product>, productId: string)
    requires forall i :: 0 <= i < |products| ==> products[i].id != productId
    ensures WithoutProduct(products, productId) == products
  {
    Seqs.FilterKeepsAll(products, IdIsNot(productId));
  }

  /** Deleting a product just added under a fresh id gives back the list as it was. */
  lemma SubmitThenDelete(products: seq<Product>, form: ProductForm, id: string, price: Option<int>)
    requires forall i :: 0 <= i < |products| ==> products[i].id != id
    ensures WithoutProduct([Submitted(form, id, price)] + products, id) == products
  {
    Seqs.FilterConcat([Submitted(form, id, price)], products, IdIsNot(id));
    Seqs.FilterDropsAll([Submitted(form, id, price)], IdIsNot(id));
    DeleteAbsent(products, id);
  }

  /** The page's state. */
  class ProductsPage {
    var loading: bool
    var products: seq<Product>
    var showAddModal: bool
    var newProduct: ProductForm

    /** First render: loading, no products, the modal closed and the form empty. */
    constructor ()
      ensures loading && products == [] && !showAddModal && newProduct == EmptyForm
    {
      loading := true;
      products := [];
      showAddModal := false;
      newProduct := EmptyForm;
    }

    /** The products arrive. */
    method ProductsLoaded(loaded: seq<Product>)
      modifies this`products, this`loading
      ensures products == loaded && !loading
    {
      products := loaded;
      loading := false;
    }

    /** "Add New Product" opens the modal. */
    method OpenAddModal()
      modifies this`showAddModal
      ensures showAddModal
    {
      showAddModal := true;
    }

    /** The modal's "Cancel" button closes it and keeps the form as typed. */
    method CloseAddModal()
      modifies this`showAddModal
      ensures !showAddModal
    {
      showAddModal := false;
    }

    /** `handleInputChange`: one field of the form takes the typed value. */
    method HandleInputChange(field: FormField, value: string)
      modifies this`newProduct
      ensures newProduct == WithField(old(newProduct), field, value)
    {
      newProduct := WithField(newProduct, field, value);
    }

    /**
     * `handleSubmit`: the new product goes first, the form is cleared and the
     * modal closes. `id` stands for the random id and `price` for the parsed price.
     */
    method HandleSubmit(id: string, price: Option<int>)
      modifies this`products, this`newProduct, this`showAddModal
      ensures products == [Submitted(old(newProduct), id, price)] + old(products)
      ensures newProduct == EmptyForm && !showAddModal
    {
      var newProductWithId := Submitted(newProduct, id, price);
      products := [newProductWithId] + products;
      newProduct := EmptyForm;
      showAddModal := false;
    }

    /** `handleDelete(productId)` */
    method HandleDelete(productId: string)
      modifies this`products
      ensures products == WithoutProduct(old(products), productId)
    {
      products := WithoutProduct(products, productId);
    }
  }
}
