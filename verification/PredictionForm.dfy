/**
 * The price-prediction form: five text inputs edited one field at a time,
 * and the request body built from them when the form is submitted.
 */
module PredictionForm {
  import opened Wrappers

  /** The `name` attribute of each input. */
  datatype Field = ProductName | Category | Brand | Country | ShippingCost

  datatype Form = Form(
    productName: string,
    category: string,
    brand: string,
    country: string,
    shippingCost: string)

  function Get(form: Form, field: Field): string {
    match field
    case ProductName => form.productName
    case Category => form.category
    case Brand => form.brand
    case Country => form.country
    case ShippingCost => form.shippingCost
  }

  /** The form as the page opens it, and as a successful prediction leaves it. */
  function EmptyForm(): (form: Form)
    ensures forall field :: Get(form, field) == ""
  {
    Form("", "", "", "", "")
  }

  /** One input edited: `{ ...prevState, [name]: value }`. */
  function Set(form: Form, field: Field, value: string): (r: Form)
    ensures Get(r, field) == value
    ensures forall other :: other != field ==> Get(r, other) == Get(form, other)
  {
    match field
    case ProductName => form.(productName := value)
    case Category => form.(category := value)
    case Brand => form.(brand := value)
    case Country => form.(country := value)
    case ShippingCost => form.(shippingCost := value)
  }

  /** A form is determined by what its five fields read. */
  lemma FormsEqualByFields(a: Form, b: Form)
    requires forall field :: Get(a, field) == Get(b, field)
    ensures a == b
  {
    assert Get(a, ProductName) == Get(b, ProductName);
    assert Get(a, Category) == Get(b, Category);
    assert Get(a, Brand) == Get(b, Brand);
    assert Get(a, Country) == Get(b, Country);
    assert Get(a, ShippingCost) == Get(b, ShippingCost);
  }

  /** Writing back what a field holds changes nothing; a second write wins over the first. */
  lemma SetLaws(form: Form, field: Field, v: string, w: string)
    ensures Set(form, field, Get(form, field)) == form
    ensures Set(Set(form, field, v), field, w) == Set(form, field, w)
  {
    FormsEqualByFields(Set(form, field, Get(form, field)), form);
    FormsEqualByFields(Set(Set(form, field, v), field, w), Set(form, field, w));
  }

  /** Edits to different fields do not interfere. */
  lemma SetCommutes(form: Form, f: Field, g: Field, v: string, w: string)
    requires f != g
    ensures Set(Set(form, f, v), g, w) == Set(Set(form, g, w), f, v)
  {
    FormsEqualByFields(Set(Set(form, f, v), g, w), Set(Set(form, g, w), f, v));
  }

  // ---------------------------------------------------------------------
  // The request body
  // ---------------------------------------------------------------------

  datatype Payload = Payload(
    productNameClean: Option<string>,
    category: Option<string>,
    brand: Option<string>,
    country: Option<string>,
    shippingCost: real,
    city: Option<string>,
    seller: Option<string>,
    stock: int,
    platform: string,
    countryClean: Option<string>,
    categoryClean: Option<string>,
    month: int)

  const DefaultStock: int := 100
  const DefaultPlatform: string := "E-commerce"

  /** `text || null`: the empty string is falsy and becomes null. */
  function OrNull(text: string): (r: Option<string>)
    ensures r.GetOr("") == text
    ensures r != Some("")
  {
    if text == "" then None else Some(text)
  }

  /**
   * The body posted for a prediction. `parsedShipping` is what `parseFloat`
   * makes of the shipping input (None for NaN) and `monthIndex` is
   * `getMonth()` of the current date, 0 for January.
   */
  function BuildPayload(form: Form, parsedShipping: Option<real>, monthIndex: nat): (p: Payload)
    requires monthIndex < 12
    ensures 1 <= p.month <= 12 && p.month == monthIndex + 1
    ensures p.productNameClean.GetOr("") == form.productName
    ensures p.category.GetOr("") == form.category
    ensures p.brand.GetOr("") == form.brand
    ensures p.country.GetOr("") == form.country
    ensures NoEmptyText(p)
    ensures p.countryClean == p.country && p.categoryClean == p.category
    ensures p.shippingCost == parsedShipping.GetOr(0.0)
    ensures p.city.None? && p.seller.None?
    ensures p.stock == DefaultStock && p.platform == DefaultPlatform
  {
    Payload(
      OrNull(form.productName),
      OrNull(form.category),
      OrNull(form.brand),
      OrNull(form.country),
      parsedShipping.GetOr(0.0),
      None,
      None,
      DefaultStock,
      DefaultPlatform,
      OrNull(form.country),
      OrNull(form.category),
      monthIndex + 1)
  }

  /** No text field of the body is sent as an empty string: it is null instead. */
  predicate NoEmptyText(p: Payload) {
    && p.productNameClean != Some("") && p.category != Some("") && p.brand != Some("")
    && p.country != Some("") && p.countryClean != Some("") && p.categoryClean != Some("")
  }
}
