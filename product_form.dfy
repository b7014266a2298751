/** What the add and update product forms share: form values as JavaScript holds them, their
    truthiness and parsing, the error map, the image checks and the drag state. */
module ProductForm {
  import opened Wrappers
  import Text

  /** A form field's value: an input's text, a number from the server, a checkbox, or `null`. */
  datatype FieldValue = Str(s: string) | Num(n: real) | Flag(b: bool) | Null

  /** The form: field name to value; an absent name reads as `undefined`. */
  type Form = map<string, FieldValue>

  /** The error map: a message, or `null` once the field has been edited. */
  type Errors = map<string, Option<string>>

  /** `form[name]` */
  function Get(form: Form, name: string): (r: Option<FieldValue>)
    ensures r.Some? <==> name in form
  {
    if name in form then Some(form[name]) else None
  }

  /** JavaScript truthiness of a field read (NaN is not modelled: numbers are exact). */
  predicate IsTruthy(v: Option<FieldValue>) {
    v.Some? &&
    match v.value
    case Str(s) => s != ""
    case Num(n) => n != 0.0
    case Flag(b) => b
    case Null => false
  }

  /** `!value?.trim()`: absent, null, or only whitespace. */
  predicate IsBlank(v: Option<FieldValue>) {
    v.None? || v.value.Null? || (v.value.Str? && Text.Trim(v.value.s) == "")
  }

  /** The browser's number parsers on strings; None is NaN. */
  datatype Parsers = Parsers(
    parseFloat: string -> Option<real>,
    parseInt: string -> Option<int>,
    number: string -> Option<real>)

  /** `Math.trunc`, which is what `parseInt` does to a number. */
  function Trunc(x: real): (r: int)
    ensures x >= 0.0 ==> r as real <= x < r as real + 1.0
    ensures x < 0.0 ==> r as real - 1.0 < x <= r as real
  {
    if x >= 0.0 then x.Floor else -((-x).Floor)
  }

  /** `parseFloat(v)`: a number parses as itself; a boolean, `null` or `undefined` is NaN. */
  function FloatOf(p: Parsers, v: Option<FieldValue>): Option<real> {
    if v.None? then None
    else match v.value
      case Str(s) => p.parseFloat(s)
      case Num(n) => Some(n)
      case Flag(_) => None
      case Null => None
  }

  /** `parseInt(v)` */
  function IntOf(p: Parsers, v: Option<FieldValue>): Option<int> {
    if v.None? then None
    else match v.value
      case Str(s) => p.parseInt(s)
      case Num(n) => Some(Trunc(n))
      case Flag(_) => None
      case Null => None
  }

  /** `Number(v)`: booleans are 1 and 0, `null` is 0, `undefined` is NaN. */
  function NumberOf(p: Parsers, v: Option<FieldValue>): Option<real> {
    if v.None? then None
    else match v.value
      case Str(s) => p.number(s)
      case Num(n) => Some(n)
      case Flag(b) => Some(if b then 1.0 else 0.0)
      case Null => Some(0.0)
  }

  /** `!price || parseFloat(price) <= 0`: NaN compares false, so an unparsable price passes. */
  predicate PriceRejected(p: Parsers, v: Option<FieldValue>) {
    !IsTruthy(v) || (FloatOf(p, v).Some? && FloatOf(p, v).value <= 0.0)
  }

  /** An unparsable, non-empty price is accepted. */
  lemma UnparsablePriceAccepted(p: Parsers, s: string)
    requires s != "" && p.parseFloat(s).None?
    ensures !PriceRejected(p, Some(Str(s)))
  {
  }

  /** `errors[name]` is truthy: a message is shown under the field. */
  predicate Shown(errors: Errors, name: string) {
    name in errors && errors[name].Some? && errors[name].value != ""
  }

  /** `setErrors(newErrors)` with a freshly built map: exactly its messages. */
  function AsErrors(built: map<string, string>): (r: Errors)
    ensures r.Keys == built.Keys
    ensures forall k :: k in r ==> r[k] == Some(built[k])
  {
    map k | k in built :: Some(built[k])
  }

  /** `if (errors[name]) setErrors(prev => ({ ...prev, [name]: null }))` */
  function Cleared(errors: Errors, name: string): (r: Errors)
    ensures !Shown(r, name)
    ensures forall k :: k != name ==> (k in r <==> k in errors) && (k in errors ==> r[k] == errors[k])
    ensures !Shown(errors, name) ==> r == errors
  {
    if Shown(errors, name) then errors[name := None] else errors
  }

  /** `{ ...prev, [name]: value }` followed by clearing that field's error: only the edited field
      and its error change. */
  lemma EditTouchesOneField(form: Form, errors: Errors, name: string, value: FieldValue, other: string)
    requires other != name
    ensures Get(form[name := value], name) == Some(value)
    ensures Get(form[name := value], other) == Get(form, other)
    ensures Shown(Cleared(errors, name), other) == Shown(errors, other)
  {
  }

  /** A chosen image file: its MIME type and size in bytes. */
  datatype ImageFile = ImageFile(mimeType: string, size: int)

  const ValidImageTypes: seq<string> := ["image/jpeg", "image/png", "image/webp"]
  const MaxImageSize := 5 * 1024 * 1024
  const ImageTypeError := "Please select a valid image file (JPEG, PNG, or WebP)"
  const ImageSizeError := "Image size should be less than 5MB"

  /** The image error `processImage` records: a bad type first, then a size over 5 MiB, else none. */
  function ImageCheck(file: ImageFile): (r: Option<string>)
    ensures file.mimeType !in ValidImageTypes ==> r == Some(ImageTypeError)
    ensures file.mimeType in ValidImageTypes && file.size > MaxImageSize ==> r == Some(ImageSizeError)
    ensures r.None? <==> file.mimeType in ValidImageTypes && file.size <= MaxImageSize
  {
    if file.mimeType !in ValidImageTypes then Some(ImageTypeError)
    else if file.size > MaxImageSize then Some(ImageSizeError)
    else None
  }

  /** The drag events the drop zone distinguishes. */
  datatype DragEvent = DragEnter | DragOver | DragLeave | OtherDrag

  /** `handleDrag`: entering or hovering activates the zone, leaving deactivates it, anything else keeps it. */
  function DragActiveAfter(e: DragEvent, active: bool): (r: bool)
    ensures e.DragEnter? || e.DragOver? ==> r
    ensures e.DragLeave? ==> !r
    ensures e.OtherDrag? ==> r == active
  {
    match e
    case DragEnter => true
    case DragOver => true
    case DragLeave => false
    case OtherDrag => active
  }

  /** Repeating a drag event changes nothing more. */
  lemma DragIdempotent(e: DragEvent, active: bool)
    ensures DragActiveAfter(e, DragActiveAfter(e, active)) == DragActiveAfter(e, active)
  {
  }

  /** `{ ...form, price: Number(price), stockQuantity: Number(stockQuantity) }` as JSON, where NaN
      is written as null. */
  function Normalized(p: Parsers, form: Form): (r: Form)
    ensures r.Keys == form.Keys + {"price", "stockQuantity"}
    ensures forall k :: k in form && k != "price" && k != "stockQuantity" ==> r[k] == form[k]
    ensures NumberOf(p, Get(form, "price")).Some? ==> r["price"] == Num(NumberOf(p, Get(form, "price")).value)
    ensures NumberOf(p, Get(form, "price")).None? ==> r["price"] == Null
    ensures NumberOf(p, Get(form, "stockQuantity")).Some? ==> r["stockQuantity"] == Num(NumberOf(p, Get(form, "stockQuantity")).value)
    ensures NumberOf(p, Get(form, "stockQuantity")).None? ==> r["stockQuantity"] == Null
  {
    var price := NumberOf(p, Get(form, "price"));
    var stock := NumberOf(p, Get(form, "stockQuantity"));
    form["price" := if price.Some? then Num(price.value) else Null]
        ["stockQuantity" := if stock.Some? then Num(stock.value) else Null]
  }

  /** The multipart body of a product request: the product as JSON and, maybe, an image file. */
  datatype ProductRequest = ProductRequest(product: Form, imageFile: Option<ImageFile>)
}
