/** Products and the five-field product form of the storefront.
 *
 * A product on the page is a flat record: an id, the five fields that the
 * create and edit forms hold (title, price, description, image, category), and
 * an optional rating that only products received from the catalog carry.
 * Prices are kept abstract: a form's price is either blank (the empty string
 * the form starts with) or a numeric amount; floating-point parsing and
 * two-digit rendering are not part of this model.
 */
module Catalog {

  datatype Option<+T> = None | Some(value: T)

  /** A price as the page stores it: the empty string, or a number. */
  datatype Price = Blank | Amount(value: real)

  /** JavaScript truthiness of a stored price: "" and 0 are falsy. */
  function PriceFilled(p: Price): (b: bool)
    ensures b <==> p != Blank && p != Amount(0.0)
  {
    p.Amount? && p.value != 0.0
  }

  /** The price-field coercion `parseFloat(value) || ""`: `parsed` is the
   *  result of `parseFloat`, with None standing for NaN. */
  function CoercePrice(parsed: Option<real>): (p: Price)
    ensures p.Blank? <==> (parsed.None? || parsed.value == 0.0)
    ensures p.Amount? ==> parsed == Some(p.value)
    ensures PriceFilled(p) <==> p.Amount?
  {
    match parsed
    case None => Blank
    case Some(v) => if v == 0.0 then Blank else Amount(v)
  }

  datatype Rating = Rating(rate: real, count: nat)

  /** The create form (`newProduct`) and the edit form (`editFormData`). */
  datatype ProductForm = ProductForm(
    title: string,
    price: Price,
    description: string,
    image: string,
    category: string)

  /** Both forms start, and the create form is reset to, five empty fields. */
  const EmptyForm := ProductForm("", Blank, "", "", "")

  /** The `name` attribute of a form control. */
  datatype FieldName = TitleField | PriceField | DescriptionField | ImageField | CategoryField

  /** The value a form field holds: text, or a price for the price field. */
  datatype FieldValue = Text(text: string) | PriceValue(price: Price)

  function FieldOf(f: ProductForm, name: FieldName): FieldValue {
    match name
    case TitleField => Text(f.title)
    case PriceField => PriceValue(f.price)
    case DescriptionField => Text(f.description)
    case ImageField => Text(f.image)
    case CategoryField => Text(f.category)
  }

  /** The change handler of either form: `{...form, [name]: v}` where v is the
   *  coerced price for the price field and the raw text otherwise.
   *  `parsed` is `parseFloat(value)` (None for NaN). */
  function SetField(f: ProductForm, name: FieldName, value: string, parsed: Option<real>): (r: ProductForm)
    ensures FieldOf(r, name) == if name == PriceField then PriceValue(CoercePrice(parsed)) else Text(value)
    ensures forall other: FieldName :: other != name ==> FieldOf(r, other) == FieldOf(f, other)
  {
    match name
    case TitleField => f.(title := value)
    case PriceField => f.(price := CoercePrice(parsed))
    case DescriptionField => f.(description := value)
    case ImageField => f.(image := value)
    case CategoryField => f.(category := value)
  }

  /** JavaScript truthiness of a form field's value. */
  predicate Truthy(v: FieldValue) {
    match v
    case Text(s) => s != ""
    case PriceValue(p) => PriceFilled(p)
  }

  /** The create form's required-field check: an empty title, description or
   *  category, or a falsy price. The image is optional. */
  function MissingRequired(f: ProductForm): (b: bool)
    ensures b <==> exists name: FieldName :: name != ImageField && !Truthy(FieldOf(f, name))
  {
    assert Truthy(FieldOf(f, TitleField)) && Truthy(FieldOf(f, PriceField))
      && Truthy(FieldOf(f, DescriptionField)) && Truthy(FieldOf(f, CategoryField))
      ==> forall name: FieldName :: name != ImageField ==> Truthy(FieldOf(f, name));
    f.title == "" || !PriceFilled(f.price) || f.description == "" || f.category == ""
  }

  datatype Product = Product(
    id: int,
    title: string,
    price: Price,
    description: string,
    image: string,
    category: string,
    rating: Option<Rating>)

  /** The five form fields of a product, as the edit button copies them. */
  function FormOf(p: Product): ProductForm {
    ProductForm(p.title, p.price, p.description, p.image, p.category)
  }

  /** `{...p, ...f}`: the five form fields overlaid on a product, keeping its id
   *  and its rating. */
  function Overlay(p: Product, f: ProductForm): (q: Product)
    ensures FormOf(q) == f
    ensures q.id == p.id && q.rating == p.rating
  {
    p.(title := f.title, price := f.price, description := f.description,
       image := f.image, category := f.category)
  }

  /** `{...f, id}`: a product built from the create form; it has no rating. */
  function Created(f: ProductForm, id: int): (q: Product)
    ensures FormOf(q) == f
    ensures q.id == id && q.rating == None
  {
    Product(id, f.title, f.price, f.description, f.image, f.category, None)
  }

  /** Overlaying a product's own fields gives the product back. */
  lemma OverlayOwnForm(p: Product)
    ensures Overlay(p, FormOf(p)) == p
  {
  }

  /** Overlaying twice with the same fields is overlaying once. */
  lemma OverlayIdempotent(p: Product, f: ProductForm)
    ensures Overlay(Overlay(p, f), f) == Overlay(p, f)
  {
  }
}
