/** The admin's edit-product form of `src/components/pages/UpdateProduct.jsx`. */
module UpdateProductPage {
  import opened Wrappers
  import opened ProductForm
  import Seqs
  import Env
  import HttpClient
  import AddProductPage
  import AppRoutes

  /** The form's values before the product arrives. */
  const InitialForm: Form := map[
    "id" := Null, "name" := Str(""), "description" := Str(""), "brand" := Str(""), "price" := Str(""),
    "category" := Str(""), "releaseDate" := Str(""), "productAvailable" := Flag(false),
    "stockQuantity" := Str("")]

  /** The fields `validateForm` checks; there is no image rule. */
  const Rules: set<string> := {"name", "brand", "description", "price", "category", "stockQuantity", "releaseDate"}

  /** `stockQuantity === '' || parseInt(stockQuantity) < 0` */
  predicate StockRejected(p: Parsers, stock: Option<FieldValue>) {
    stock == Some(Str("")) || (IntOf(p, stock).Some? && IntOf(p, stock).value < 0)
  }

  /** Whether field `k` breaks its rule. */
  predicate Broken(p: Parsers, form: Form, k: string) {
    match k
    case "name" => IsBlank(Get(form, "name"))
    case "brand" => IsBlank(Get(form, "brand"))
    case "description" => IsBlank(Get(form, "description"))
    case "price" => PriceRejected(p, Get(form, "price"))
    case "category" => !IsTruthy(Get(form, "category"))
    case "stockQuantity" => StockRejected(p, Get(form, "stockQuantity"))
    case "releaseDate" => !IsTruthy(Get(form, "releaseDate"))
    case _ => false
  }

  /** The message shown under a field that breaks its rule. */
  function Message(k: string): string {
    match k
    case "name" => "Product name is required"
    case "brand" => "Brand is required"
    case "description" => "Description is required"
    case "price" => "Price must be greater than zero"
    case "category" => "Please select a category"
    case "stockQuantity" => "Stock quantity cannot be negative"
    case _ => "Release date is required"
  }

  /** `validateForm`'s fresh error map. */
  function Validate(p: Parsers, form: Form): (r: map<string, string>)
    ensures "name" in r <==> IsBlank(Get(form, "name"))
    ensures "brand" in r <==> IsBlank(Get(form, "brand"))
    ensures "description" in r <==> IsBlank(Get(form, "description"))
    ensures "price" in r <==> PriceRejected(p, Get(form, "price"))
    ensures "category" in r <==> !IsTruthy(Get(form, "category"))
    ensures "stockQuantity" in r <==> StockRejected(p, Get(form, "stockQuantity"))
    ensures "releaseDate" in r <==> !IsTruthy(Get(form, "releaseDate"))
    ensures "image" !in r && r.Keys <= Rules
  {
    map k | k in Rules && Broken(p, form, k) :: Message(k)
  }

  /** The two forms' stock rules differ: a stock of number 0, as the server sends it, passes here
      but is rejected by the add form, where 0 is falsy; a missing stock passes here too. */
  lemma StockRulesDiffer(p: Parsers)
    ensures !StockRejected(p, Some(Num(0.0))) && AddProductPage.Broken(p, map["stockQuantity" := Num(0.0)], None, "stockQuantity")
    ensures !StockRejected(p, None)
  {
  }

  /** `releaseDate ? releaseDate.slice(0, 10) : ''`: the date input's value. */
  function ReleaseDateInput(v: Option<FieldValue>): (r: string)
    ensures v.Some? && v.value.Str? ==> |r| <= 10 && |r| <= |v.value.s| && r == v.value.s[..|r|]
    ensures v.Some? && v.value.Str? && |v.value.s| >= 10 ==> |r| == 10
    ensures v.Some? && v.value.Str? && |v.value.s| < 10 ==> r == v.value.s
    ensures !(v.Some? && v.value.Str?) ==> r == ""
  {
    if v.Some? && v.value.Str? then Seqs.Take(v.value.s, 10) else ""
  }

  /** The form's state. */
  class UpdateProductState {
    const browser: Env.Browser
    const parsers: Parsers
    var product: Form
    var updateProduct: Form
    var image: Option<ImageFile>
    var imageChanged: bool
    var errors: Errors
    var loading: bool
    var fetching: bool
    var dragActive: bool

    constructor (browser: Env.Browser, parsers: Parsers)
      ensures this.browser == browser && this.parsers == parsers
      ensures product == map[] && updateProduct == InitialForm && image == None && !imageChanged
      ensures errors == map[] && !loading && fetching && !dragActive
    {
      this.browser := browser;
      this.parsers := parsers;
      product := map[];
      updateProduct := InitialForm;
      image := None;
      imageChanged := false;
      errors := map[];
      loading := false;
      fetching := true;
      dragActive := false;
    }

    /** The mount effect, given the outcomes of `GET /product/{id}` and `GET /product/{id}/image`.
        The product fills the form; its image, when it has a name, becomes the current file but is
        not marked as changed. Either failure goes home. */
    method Mount(productOutcome: Outcome<Form>, imageOutcome: Outcome<ImageFile>) returns (fetchedImage: bool)
      modifies this, browser
      ensures productOutcome.Success? ==> product == productOutcome.data && updateProduct == productOutcome.data
      ensures productOutcome.Success? ==> (fetchedImage <==> IsTruthy(Get(productOutcome.data, "imageName")))
      ensures !productOutcome.Success? ==> product == old(product) && updateProduct == old(updateProduct) && !fetchedImage
      ensures fetchedImage && imageOutcome.Success? ==> image == Some(imageOutcome.data)
      ensures !(fetchedImage && imageOutcome.Success?) ==> image == old(image)
      ensures !productOutcome.Success? || (fetchedImage && !imageOutcome.Success?) ==> browser.path == "/" && browser.state == None
      ensures productOutcome.Success? && !(fetchedImage && !imageOutcome.Success?) ==>
        browser.path == old(browser.path) && browser.state == old(browser.state)
      ensures !productOutcome.Unauthorized? && !(fetchedImage && imageOutcome.Unauthorized?) ==> browser.storage == old(browser.storage)
      ensures (productOutcome.Unauthorized? || (fetchedImage && imageOutcome.Unauthorized?)) ==>
        browser.storage == HttpClient.AfterUnauthorized(old(browser.storage))
      ensures !fetching && imageChanged == old(imageChanged) && errors == old(errors) && loading == old(loading)
    {
      fetchedImage := false;
      var r := HttpClient.Respond(browser, productOutcome);
      if r.Success? {
        product := r.data;
        updateProduct := r.data;
        if IsTruthy(Get(r.data, "imageName")) {
          fetchedImage := true;
          var img := HttpClient.Respond(browser, imageOutcome);
          if img.Success? {
            image := Some(img.data);
          } else {
            browser.Navigate("/", None);
          }
        }
      } else {
        browser.Navigate("/", None);
      }
      fetching := false;
    }

    /** `handleChange`: the named field takes the input's text and its error is cleared. */
    method HandleChange(name: string, value: string)
      modifies this
      ensures updateProduct == old(updateProduct)[name := Str(value)]
      ensures errors == Cleared(old(errors), name)
      ensures image == old(image) && imageChanged == old(imageChanged) && product == old(product)
    {
      updateProduct := updateProduct[name := Str(value)];
      errors := Cleared(errors, name);
    }

    /** `handleImageChange`: a chosen file replaces the image, marks it changed and clears the image
        error; no file changes nothing. */
    method HandleImageChange(file: Option<ImageFile>)
      modifies this
      ensures file.Some? ==> image == file && imageChanged && errors == Cleared(old(errors), "image")
      ensures file.None? ==> image == old(image) && imageChanged == old(imageChanged) && errors == old(errors)
      ensures updateProduct == old(updateProduct) && product == old(product)
    {
      if file.Some? {
        image := file;
        imageChanged := true;
        errors := Cleared(errors, "image");
      }
    }

    /** `handleDrag` */
    method HandleDrag(e: DragEvent)
      modifies this
      ensures dragActive == DragActiveAfter(e, old(dragActive))
      ensures updateProduct == old(updateProduct) && image == old(image) && imageChanged == old(imageChanged) && errors == old(errors)
    {
      dragActive := DragActiveAfter(e, dragActive);
    }

    /** `handleDrop`: the zone deactivates; a dropped file replaces the image unchecked. */
    method HandleDrop(files: seq<ImageFile>)
      modifies this
      ensures !dragActive
      ensures files != [] ==> image == Some(files[0]) && imageChanged
      ensures files == [] ==> image == old(image) && imageChanged == old(imageChanged)
      ensures updateProduct == old(updateProduct) && errors == old(errors)
    {
      dragActive := false;
      if files != [] {
        image := Some(files[0]);
        imageChanged := true;
      }
    }

    /** The remove button on the preview. */
    method RemoveImage()
      modifies this
      ensures image == None && imageChanged
      ensures updateProduct == old(updateProduct) && errors == old(errors) && dragActive == old(dragActive)
    {
      image := None;
      imageChanged := true;
    }

    /** The availability switch: `productAvailable` becomes whether it is checked; no error is
        touched. */
    method SetAvailable(checked: bool)
      modifies this
      ensures updateProduct == old(updateProduct)["productAvailable" := Flag(checked)]
      ensures errors == old(errors) && image == old(image) && imageChanged == old(imageChanged) && product == old(product)
    {
      updateProduct := updateProduct["productAvailable" := Flag(checked)];
    }

    /** A category button: the category becomes its value and the category error is set to null. */
    method SelectCategory(value: string)
      modifies this
      ensures updateProduct == old(updateProduct)["category" := Str(value)]
      ensures errors == old(errors)["category" := None]
      ensures image == old(image) && imageChanged == old(imageChanged) && product == old(product)
    {
      updateProduct := updateProduct["category" := Str(value)];
      errors := errors["category" := None];
    }

    /** The cancel button goes back to the product's page, `/product/{id}`, and sends nothing. */
    method Cancel(id: string)
      modifies browser
      ensures browser.path == AppRoutes.PathOf(AppRoutes.ProductPage(Some(id))) && browser.state == None
      ensures browser.storage == old(browser.storage)
    {
      assert AppRoutes.Join([id]) == "/" + id;
      browser.Navigate("/product/" + id, None);
    }

    /** `handleSubmit` given the outcome of `PUT /product/{id}`. An invalid form only shows its
        errors; a valid one sends the product with numeric price and stock, and the image file only
        when it was changed and is present, then goes home on success. */
    method HandleSubmit(outcome: Outcome<()>) returns (sent: Option<ProductRequest>)
      modifies this, browser
      ensures errors == AsErrors(Validate(parsers, old(updateProduct)))
      ensures sent.None? <==> Validate(parsers, old(updateProduct)) != map[]
      ensures sent.None? ==> unchanged(browser) && loading == old(loading)
      ensures sent.Some? ==> sent.value.product == Normalized(parsers, old(updateProduct))
      ensures sent.Some? ==> sent.value.imageFile == (if old(imageChanged) && old(image).Some? then old(image) else None)
      ensures sent.Some? && outcome.Success? ==> browser.path == "/" && browser.state == None
      ensures sent.Some? && outcome.Success? ==> browser.storage == old(browser.storage)
      ensures sent.Some? && !outcome.Success? ==> HttpClient.Responded(browser, outcome)
      ensures sent.Some? ==> !loading
      ensures updateProduct == old(updateProduct) && image == old(image) && imageChanged == old(imageChanged)
    {
      var newErrors := Validate(parsers, updateProduct);
      errors := AsErrors(newErrors);
      if newErrors != map[] {
        sent := None;
        return;
      }
      loading := true;
      var file := if imageChanged && image.Some? then image else None;
      sent := Some(ProductRequest(Normalized(parsers, updateProduct), file));
      var r := HttpClient.Respond(browser, outcome);
      if r.Success? {
        browser.Navigate("/", None);
      }
      loading := false;
    }
  }
}
