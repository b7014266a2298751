/** Display helpers every product view repeats: the base64-to-data-URL converter, the stock
    predicates behind the "Out of Stock" and "Only n left" badges, the choice of a card's image, and the
    product card that fetches its own image. */
module Display {
  import opened Wrappers
  import opened Text
  import opened Catalog
  import Env
  import HttpClient

  /** The converter's default media type. */
  const DefaultMime := "image/jpeg"
  /** URL of the bundled `unplugged.png` fallback image (its exact value is the bundler's). */
  const Unplugged := "/assets/unplugged.png"
  /** The checkout popup's remote placeholder image. */
  const Placeholder := "https://via.placeholder.com/80?text=No+Image"

  /** `convertBase64ToDataURL(s, mime)` with the view's fallback image: a missing or empty string
      gives the fallback, a "data:" or "http" string is already a URL, anything else is wrapped as
      base64 data of type `mime`. */
  function ToDataUrl(s: Option<string>, mime: string, fallback: string): (r: string)
    ensures !Truthy(s) ==> r == fallback
    ensures Truthy(s) && (StartsWith(s.value, "data:") || StartsWith(s.value, "http")) ==> r == s.value
    ensures Truthy(s) && !StartsWith(s.value, "data:") && !StartsWith(s.value, "http") ==>
      r == "data:" + mime + ";base64," + s.value
  {
    if !Truthy(s) then fallback
    else if StartsWith(s.value, "data:") then s.value
    else if StartsWith(s.value, "http") then s.value
    else "data:" + mime + ";base64," + s.value
  }

  /** The parts of a `data:` URL, section 3 of RFC 2397: `data:[<mediatype>][;base64],<data>`. */
  datatype DataUrl = DataUrl(mediaType: string, base64: bool, data: string)

  /** Index of the first `c` in `s`, or -1. */
  function IndexOfChar(s: string, c: char): (k: int)
    ensures -1 <= k < |s|
    ensures k == -1 <==> c !in s
    ensures k >= 0 ==> s[k] == c && c !in s[..k]
  {
    if s == [] then -1
    else if s[0] == c then 0
    else
      var k := IndexOfChar(s[1..], c);
      if k == -1 then -1
      else
        assert s[..k + 1] == [s[0]] + s[1..][..k];
        k + 1
  }

  /** A character absent before index `k` and present at `k` is first found at `k`. */
  lemma FirstCharAt(s: string, c: char, k: int)
    requires 0 <= k < |s| && s[k] == c && c !in s[..k]
    ensures IndexOfChar(s, c) == k
  {
  }

  /** Split a `data:` URL at its first comma into header and data, the header into media type and
      the base64 flag. */
  function ParseDataUrl(url: string): (r: Option<DataUrl>)
    ensures r.Some? ==> StartsWith(url, "data:") && ',' !in r.value.mediaType
  {
    if !StartsWith(url, "data:") then None
    else
      var rest := url[5..];
      var k := IndexOfChar(rest, ',');
      if k < 0 then None
      else
        var header := rest[..k];
        if |header| >= 7 && header[|header| - 7..] == ";base64" then
          assert forall i :: 0 <= i < |header| - 7 ==> header[..|header| - 7][i] == header[i];
          Some(DataUrl(header[..|header| - 7], true, rest[k + 1..]))
        else Some(DataUrl(header, false, rest[k + 1..]))
  }

  /** A wrapped string is a base64 data URL of the given media type whose data is that string. */
  lemma {:induction false} WrappedParses(s: Option<string>, mime: string, fallback: string)
    requires Truthy(s) && !StartsWith(s.value, "data:") && !StartsWith(s.value, "http")
    requires ',' !in mime
    ensures ParseDataUrl(ToDataUrl(s, mime, fallback)) == Some(DataUrl(mime, true, s.value))
  {
    var header := mime + ";base64";
    var url := "data:" + header + "," + s.value;
    assert ToDataUrl(s, mime, fallback) == url;
    assert url[..5] == "data:";
    var rest := url[5..];
    assert rest == header + "," + s.value;
    assert ',' !in header by {
      assert forall i :: 0 <= i < |header| ==> header[i] != ',' by {
        forall i | 0 <= i < |header| ensures header[i] != ',' {
          if i < |mime| {
            assert header[i] == mime[i];
          }
        }
      }
    }
    assert rest[..|header|] == header;
    assert rest[|header|] == ',';
    FirstCharAt(rest, ',', |header|);
    assert rest[|header| + 1..] == s.value;
    assert header[|header| - 7..] == ";base64";
    assert header[..|header| - 7] == mime;
  }

  /** Converting an already converted (non-fallback) URL returns it unchanged. */
  lemma ConvertIdempotent(s: Option<string>, mime: string, fallback: string)
    requires Truthy(s)
    ensures ToDataUrl(Some(ToDataUrl(s, mime, fallback)), mime, fallback) == ToDataUrl(s, mime, fallback)
  {
    var r := ToDataUrl(s, mime, fallback);
    if !StartsWith(s.value, "data:") && !StartsWith(s.value, "http") {
      assert r[..5] == "data:";
    }
  }

  /** `!productAvailable || stockQuantity === 0`: the out-of-stock overlay and the disabled add button. */
  predicate OutOfStock(p: Product) {
    !p.productAvailable || p.stockQuantity == 0
  }

  /** `stockQuantity > 0 && stockQuantity <= 5`: the "Only n left" badge. */
  predicate LowStock(p: Product) {
    0 < p.stockQuantity <= 5
  }

  /** `stockQuantity !== 0 ? "Add to Cart" : "Out of Stock"`: a label that reads the stock only. */
  function StockLabel(p: Product): (r: string)
    ensures r == "Out of Stock" <==> p.stockQuantity == 0
    ensures r == "Add to Cart" <==> p.stockQuantity != 0
  {
    if p.stockQuantity != 0 then "Add to Cart" else "Out of Stock"
  }

  /** An available product with the low-stock badge can be bought. */
  lemma LowStockIsBuyable(p: Product)
    requires p.productAvailable && LowStock(p)
    ensures !OutOfStock(p)
  {
  }

  /** The label never says "Out of Stock" on an enabled button, but a disabled button can read
      "Add to Cart": an unavailable product with stock left. */
  lemma LabelAndDisabledDisagree()
    ensures forall p :: StockLabel(p) == "Out of Stock" ==> OutOfStock(p)
    ensures exists p :: OutOfStock(p) && StockLabel(p) == "Add to Cart"
  {
    var p := Product(1, "n", "b", None, 1.0, None, 3, false, None, None, None);
    assert OutOfStock(p) && StockLabel(p) == "Add to Cart";
  }

  /** A fetched image: its byte size and the object URL made for it. */
  datatype Blob = Blob(size: int, objectUrl: string)

  /** Whether a card fetches `/product/{id}/image`: only when no base64 data but an image name is present. */
  predicate FetchesImage(p: Product) {
    !Truthy(p.imageData) && Truthy(p.imageName)
  }

  /** The image a product card settles on: converted base64 data; else, with an image name, the
      fetched image or the fallback when the fetch fails; else the fallback. */
  function CardImage(p: Product, fetched: Outcome<Blob>): (r: string)
    ensures Truthy(p.imageData) ==> r == ToDataUrl(p.imageData, DefaultMime, Unplugged)
    ensures FetchesImage(p) && fetched.Success? ==> r == fetched.data.objectUrl
    ensures FetchesImage(p) && !fetched.Success? ==> r == Unplugged
    ensures !Truthy(p.imageData) && !Truthy(p.imageName) ==> r == Unplugged
  {
    if Truthy(p.imageData) then ToDataUrl(p.imageData, DefaultMime, Unplugged)
    else if Truthy(p.imageName) then (if fetched.Success? then fetched.data.objectUrl else Unplugged)
    else Unplugged
  }

  /** The outcome of the image fetch matters only when the card fetches. */
  lemma CardImageIgnoresUnfetched(p: Product, f1: Outcome<Blob>, f2: Outcome<Blob>)
    requires !FetchesImage(p)
    ensures CardImage(p, f1) == CardImage(p, f2)
  {
  }

  /** A product card that loads its own image: the image it settles on, loaded by its mount effect. */
  class FetchingCard {
    const browser: Env.Browser
    const product: Product
    var imageUrl: Option<string>

    constructor (browser: Env.Browser, product: Product)
      ensures this.browser == browser && this.product == product && imageUrl == None
    {
      this.browser := browser;
      this.product := product;
      imageUrl := None;
    }

    /** `imageUrl || unplugged`: the `src` of the card's image. */
    function Src(): (r: string)
      reads this
      ensures imageUrl.Some? && imageUrl.value != "" ==> r == imageUrl.value
      ensures !(imageUrl.Some? && imageUrl.value != "") ==> r == Unplugged
    {
      if imageUrl.Some? && imageUrl.value != "" then imageUrl.value else Unplugged
    }

    /** The mount effect, given the outcome of `GET /product/{id}/image` (used only when the card
        has no base64 data but an image name). */
    method LoadImage(fetched: Outcome<Blob>)
      modifies this, browser
      ensures imageUrl == Some(CardImage(product, fetched))
      ensures !FetchesImage(product) ==> unchanged(browser)
      ensures FetchesImage(product) ==> HttpClient.Responded(browser, fetched)
    {
      if Truthy(product.imageData) {
        imageUrl := Some(ToDataUrl(product.imageData, DefaultMime, Unplugged));
      } else if Truthy(product.imageName) {
        var r := HttpClient.Respond(browser, fetched);
        imageUrl := Some(if r.Success? then r.data.objectUrl else Unplugged);
      } else {
        imageUrl := Some(Unplugged);
      }
    }
  }
}
