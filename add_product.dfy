/** The admin's new-product form of `src/components/pages/AddProduct.jsx`. */
module AddProductPage {
  import opened Wrappers
  import opened ProductForm
  import Env
  import HttpClient

  /** The form's starting values. */
  const InitialForm: Form := map[
    "name" := Str(""), "brand" := Str(""), "description" := Str(""), "price" := Str(""),
    "category" := Str(""), "stockQuantity" := Str(""), "releaseDate" := Str(""),
    "productAvailable" := Flag(false)]

  /** `validateForm`'s fresh error map: one message per broken rule, the image only required to be
      present. */
  function Validate(p: Parsers, form: Form, image: Option<ImageFile>): (r: map<string, string>)
    ensures "name" in r <==> IsBlank(Get(form, "name"))
    ensures "brand" in r <==> IsBlank(Get(form, "brand"))
    ensures "description" in r <==> IsBlank(Get(form, "description"))
    ensures "price" in r <==> PriceRejected(p, Get(form, "price"))
    ensures "category" in r <==> !IsTruthy(Get(form, "category"))
    ensures "stockQuantity" in r <==> !IsTruthy(Get(form, "stockQuantity")) || (IntOf(p, Get(form, "stockQuantity")).Some? && IntOf(p, Get(form, "stockQuantity")).value < 0)
    ensures "releaseDate" in r <==> !IsTruthy(Get(form, "releaseDate"))
    ensures "image" in r <==> image.None?
    ensures r.Keys <= {"name", "brand", "description", "price", "category", "stockQuantity", "releaseDate", "image"}
  {
    map k | k in Rules && Broken(p, form, image, k) :: Message(k)
  }

  /** The fields `validateForm` checks. */
  const Rules: set<string> := {"name", "brand", "description", "price", "category", "stockQuantity", "releaseDate", "image"}

  /** Whether field `k` breaks its rule. */
  predicate Broken(p: Parsers, form: Form, image: Option<ImageFile>, k: string) {
    match k
    case "name" => IsBlank(Get(form, "name"))
    case "brand" => IsBlank(Get(form, "brand"))
    case "description" => IsBlank(Get(form, "description"))
    case "price" => PriceRejected(p, Get(form, "price"))
    case "category" => !IsTruthy(Get(form, "category"))
    case "stockQuantity" =>
      var stock := Get(form, "stockQuantity");
      !IsTruthy(stock) || (IntOf(p, stock).Some? && IntOf(p, stock).value < 0)
    case "releaseDate" => !IsTruthy(Get(form, "releaseDate"))
    case "image" => image.None?
    case _ => false
  }

  /** The message shown under a field that breaks its rule. */
  function Message(k: string): string {
    match k
    case "name" => "Product name is required"
    case "brand" => "Brand is required"
    case "description" => "Description is required"
    case "price" => "Price must be greater than zero"
    case "category" => "Please select a category"
    case "stockQuantity" => "Stock quantity cannot be negative"
    case "releaseDate" => "Release date is required"
    case _ => "Product image is required"
  }

  /** Validation rebuilds the error map from the form alone: an image whose type or size
      `processImage` rejected passes, once the other fields are filled in. */
  lemma ValidationForgetsImageCheck(p: Parsers, form: Form, file: ImageFile)
    requires Validate(p, form, None).Keys == {"image"}
    requires ImageCheck(file).Some?
    ensures Validate(p, form, Some(file)) == map[]
  {
    assert Validate(p, form, Some(file)).Keys == {};
  }

  /** The values of the category buttons. */
  const CategoryValues: seq<string> := ["Laptop", "Headphone", "Mobile", "Electronics", "Toys", "Fashion"]

  /** A category chosen with one of the buttons satisfies the category rule. */
  lemma ChosenCategoryPasses(p: Parsers, form: Form, image: Option<ImageFile>, i: int)
    requires 0 <= i < |CategoryValues|
    ensures "category" !in Validate(p, form["category" := Str(CategoryValues[i])], image)
  {
  }

  /** The form's state. */
  class AddProductState {
    const browser: Env.Browser
    const parsers: Parsers
    var product: Form
    var image: Option<ImageFile>
    var loading: bool
    var errors: Errors
    var dragActive: bool

    constructor (browser: Env.Browser, parsers: Parsers)
      ensures this.browser == browser && this.parsers == parsers
      ensures product == InitialForm && image == None && !loading && errors == map[] && !dragActive
    {
      this.browser := browser;
      this.parsers := parsers;
      product := InitialForm;
      image := None;
      loading := false;
      errors := map[];
      dragActive := false;
    }

    /** `handleInputChange`: a checkbox writes whether it is checked, any other input its text;
        that field's error is cleared. */
    method HandleInputChange(name: string, value: string, isCheckbox: bool, checked: bool)
      modifies this
      ensures product == old(product)[name := if isCheckbox then Flag(checked) else Str(value)]
      ensures errors == Cleared(old(errors), name)
      ensures image == old(image) && loading == old(loading) && dragActive == old(dragActive)
    {
      product := product[name := if isCheckbox then Flag(checked) else Str(value)];
      errors := Cleared(errors, name);
    }

    /** `processImage(file)`: nothing without a file; otherwise the file is kept and the image error
        set to the check's verdict (null when it passes). */
    method ProcessImage(file: Option<ImageFile>)
      modifies this
      ensures file.None? ==> image == old(image) && errors == old(errors)
      ensures file.Some? ==> image == file && errors == old(errors)["image" := ImageCheck(file.value)]
      ensures product == old(product) && loading == old(loading) && dragActive == old(dragActive)
    {
      if file.None? {
        return;
      }
      image := file;
      errors := errors["image" := ImageCheck(file.value)];
    }

    /** `handleDrag` */
    method HandleDrag(e: DragEvent)
      modifies this
      ensures dragActive == DragActiveAfter(e, old(dragActive))
      ensures product == old(product) && image == old(image) && errors == old(errors) && loading == old(loading)
    {
      dragActive := DragActiveAfter(e, dragActive);
    }

    /** `handleDrop`: the zone deactivates and the first dropped file, if any, is processed. */
    method HandleDrop(files: seq<ImageFile>)
      modifies this
      ensures !dragActive
      ensures files == [] ==> image == old(image) && errors == old(errors)
      ensures files != [] ==> image == Some(files[0]) && errors == old(errors)["image" := ImageCheck(files[0])]
      ensures product == old(product) && loading == old(loading)
    {
      dragActive := false;
      if files != [] {
        ProcessImage(Some(files[0]));
      }
    }

    /** The preview's remove button: the chosen image is dropped, its error is kept. */
    method RemoveImage()
      modifies this
      ensures image == None
      ensures product == old(product) && errors == old(errors) && loading == old(loading) && dragActive == old(dragActive)
    {
      image := None;
    }

    /** A category button: the category becomes its value and the category error is set to null,
        whether or not one was shown. */
    method SelectCategory(value: string)
      modifies this
      ensures product == old(product)["category" := Str(value)]
      ensures errors == old(errors)["category" := None]
      ensures image == old(image) && loading == old(loading) && dragActive == old(dragActive)
    {
      product := product["category" := Str(value)];
      errors := errors["category" := None];
    }

    /** The cancel button goes home and sends nothing. */
    method Cancel()
      modifies browser
      ensures browser.path == "/" && browser.state == None
      ensures browser.storage == old(browser.storage)
    {
      browser.Navigate("/", None);
    }

    /** `submitHandler` given the outcome of `POST /product`. An invalid form only shows its errors
        and sends nothing; a valid one sends the image and the product with its price and stock as
        numbers, and goes home on success. */
    method SubmitHandler(outcome: Outcome<()>) returns (sent: Option<ProductRequest>)
      modifies this, browser
      ensures errors == AsErrors(Validate(parsers, old(product), old(image)))
      ensures sent.None? <==> Validate(parsers, old(product), old(image)) != map[]
      ensures sent.None? ==> unchanged(browser)
      ensures sent.Some? ==> sent.value == ProductRequest(Normalized(parsers, old(product)), old(image)) && sent.value.imageFile.Some?
      ensures sent.Some? && outcome.Success? ==> browser.path == "/" && browser.state == None
      ensures sent.Some? && outcome.Success? ==> browser.storage == old(browser.storage)
      ensures sent.Some? && !outcome.Success? ==> HttpClient.Responded(browser, outcome)
      ensures sent.Some? ==> !loading
      ensures sent.None? ==> loading == old(loading)
      ensures product == old(product) && image == old(image) && dragActive == old(dragActive)
    {
      var newErrors := Validate(parsers, product, image);
      errors := AsErrors(newErrors);
      if newErrors != map[] {
        sent := None;
        return;
      }
      loading := true;
      sent := Some(ProductRequest(Normalized(parsers, product), image));
      var r := HttpClient.Respond(browser, outcome);
      if r.Success? {
        browser.Navigate("/", None);
      }
      loading := false;
    }
  }
}
