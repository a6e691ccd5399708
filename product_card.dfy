/**
 * The product card: the price shown under a product's name, the leaf badge
 * for highly rated products, and the fallback picture an image element
 * switches to when the product's own image fails to load.
 */
module ProductCard {
  import opened JsRuntime
  import SustainabilityScore

  /** A product as the card receives it (the fields the card's logic reads). */
  datatype Product = Product(
    id: string,
    name: string,
    image: string,
    price: string,
    sustainabilityScore: real,
    brand: string,
    category: Option<string>)

  const NotAvailable: string := "Not Available"
  const PriceUnavailable: string := "Price not available"

  /** The price line: the sentinel sentence for an empty or "Not Available" price, the price itself otherwise. */
  function DisplayPrice(price: string): (d: string)
    ensures d != ""
    ensures d == price <==> price != "" && price != NotAvailable
    ensures d != price ==> d == PriceUnavailable
  {
    if price == "" || price == NotAvailable then PriceUnavailable else price
  }

  /** Formatting an already formatted price changes nothing. */
  lemma DisplayPriceIdempotent(price: string)
    ensures DisplayPrice(DisplayPrice(price)) == DisplayPrice(price)
  {
  }

  /** The leaf badge on the picture: shown from a score of 80 up, exactly the scores the badge calls Excellent. */
  predicate ShowsLeafBadge(score: real)
    ensures ShowsLeafBadge(score) <==> SustainabilityScore.BandOf(score) == SustainabilityScore.Excellent
  {
    SustainabilityScore.BandOfThresholds(score);
    score >= 80.0
  }

  const UnsplashBase: string := "https://images.unsplash.com/"
  const GenericImage: string := UnsplashBase + "photo-1580428456289-31892e500545"
  const FoodImage: string := UnsplashBase + "photo-1506617564039-2f3b650b7010"
  const DrinkwareImage: string := UnsplashBase + "photo-1523362628745-0c100150b504"
  const CleaningImage: string := UnsplashBase + "photo-1563453392212-326f5e854473"
  const CosmeticsImage: string := UnsplashBase + "photo-1571781926291-c477ebfd024b"

  /** The fallback picture of each product category that has one. */
  const CategoryImages: map<string, string> := map[
    "Food" := FoodImage,
    "Drinkware" := DrinkwareImage,
    "Cleaning" := CleaningImage,
    "Cosmetics" := CosmeticsImage]

  /** Every picture the fallback can choose: all of them non-empty URLs. */
  const FallbackImages: set<string> := {FoodImage, DrinkwareImage, CleaningImage, CosmeticsImage, GenericImage}

  /**
   * The fallback picture, with the category table read as a table: a
   * mapped category gets its own picture, an absent, empty or unmapped
   * one gets the generic picture.
   */
  function FallbackImage(category: Option<string>): (url: string)
    ensures url in FallbackImages && url != ""
    ensures category.Some? && category.value in CategoryImages ==> url == CategoryImages[category.value]
    ensures category.None? || category.value !in CategoryImages ==> url == GenericImage
  {
    if category.Some? && category.value != "" && category.value in CategoryImages
    then CategoryImages[category.value]
    else GenericImage
  }

  // ---- The category lookup as the card writes it: an index into a plain JavaScript object ----

  /**
   * What indexing a plain object literal can yield: one of its own string
   * values, an inherited `Object.prototype` method (a native function), the
   * prototype object itself (through `__proto__`), or undefined.
   */
  datatype Lookup = OwnString(s: string) | NativeFunction(fname: string) | PrototypeObject | Undefined

  /** The members every plain object inherits from `Object.prototype`. */
  const InheritedKeys: set<string> := {
    "constructor", "hasOwnProperty", "isPrototypeOf", "propertyIsEnumerable",
    "toLocaleString", "toString", "valueOf", "__defineGetter__", "__defineSetter__",
    "__lookupGetter__", "__lookupSetter__", "__proto__"}

  /** `record[key]` on an object literal whose own properties are `record`. */
  function IndexObject(record: map<string, string>, key: string): Lookup
  {
    if key in record then OwnString(record[key])
    else if key == "__proto__" then PrototypeObject
    else if key in InheritedKeys then NativeFunction(if key == "constructor" then "Object" else key)
    else Undefined
  }

  predicate LookupTruthy(v: Lookup)
  {
    match v
    case OwnString(s) => s != ""
    case NativeFunction(_) => true
    case PrototypeObject => true
    case Undefined => false
  }

  /** The string an image's `src` becomes when a looked-up value is assigned to it. */
  function SrcString(v: Lookup): string
  {
    match v
    case OwnString(s) => s
    case NativeFunction(f) => "function " + f + "() { [native code] }"
    case PrototypeObject => "[object Object]"
    case Undefined => "undefined"
  }

  /**
   * The fallback `src` exactly as the handler computes it:
   * `categoryMappings[category] || generic` when the category is truthy,
   * the generic picture otherwise.
   */
  function FallbackSrcAsWritten(category: Option<string>): string
  {
    if category.Some? && category.value != "" then
      var found := IndexObject(CategoryImages, category.value);
      if LookupTruthy(found) then SrcString(found) else GenericImage
    else GenericImage
  }

  /** As written, a product whose category is "constructor" gets a function's source text as its picture. */
  lemma ConstructorCategoryCounterexample()
    ensures FallbackSrcAsWritten(Some("constructor")) == "function Object() { [native code] }"
    ensures FallbackSrcAsWritten(Some("constructor")) != FallbackImage(Some("constructor"))
    ensures FallbackImage(Some("constructor")) == GenericImage
  {
    assert "constructor" !in CategoryImages;
  }

  /** Off the inherited names, the code as written and the table reading pick the same picture. */
  lemma AsWrittenAgreesOffPrototype(category: Option<string>)
    requires category.None? || category.value !in InheritedKeys
    ensures FallbackSrcAsWritten(category) == FallbackImage(category)
  {
  }

  /** As written, exactly the inherited names escape the fallback table. */
  lemma AsWrittenDisagreesOnInheritedKeys(key: string)
    requires key in InheritedKeys
    ensures FallbackSrcAsWritten(Some(key)) != FallbackImage(Some(key))
  {
    assert key !in CategoryImages;
    var found := IndexObject(CategoryImages, key);
    var src := FallbackSrcAsWritten(Some(key));
    assert GenericImage[0] == UnsplashBase[0] == 'h';
    if key == "__proto__" {
      assert src == "[object Object]";
      assert src[0] == '[';
    } else {
      var text := "function " + found.fname + "() { [native code] }";
      assert src == text;
      assert text[0] == "function "[0] == 'f';
    }
  }

  /**
   * The card's <img> element as the card builds it. The error handler is
   * attached through React's `onError` prop, that is, as an event listener,
   * and stays attached while the card is shown; the element's `onerror`
   * property is a different slot, never set, and clearing it detaches
   * nothing. `handlerRuns` counts the times the handler ran.
   */
  class CardImageAsWritten {
    const category: Option<string>
    var src: string
    var onerror: bool
    var handlerRuns: nat

    /** After the handler has run, `src` is the fallback the code computes. */
    ghost predicate Valid()
      reads this
    {
      handlerRuns > 0 ==> !onerror && src == FallbackSrcAsWritten(category)
    }

    /** The element as rendered: the product's own image; `onerror` is not set. */
    constructor (image: string, category: Option<string>)
      ensures Valid()
      ensures this.category == category && src == image && !onerror && handlerRuns == 0
    {
      this.category := category;
      src := image;
      onerror := false;
      handlerRuns := 0;
    }

    /** A load error: React's listener runs `handleImageError`, every time. */
    method LoadError()
      requires Valid()
      modifies this
      ensures Valid()
      ensures handlerRuns == old(handlerRuns) + 1
      ensures !onerror && src == FallbackSrcAsWritten(category)
    {
      onerror := false;
      src := FallbackSrcAsWritten(category);
      handlerRuns := handlerRuns + 1;
    }
  }

  /**
   * As written, when the product's image fails and then the fallback
   * picture fails too, the handler runs a second time (and reloads the same
   * picture, so a picture that keeps failing keeps it running).
   */
  method FallbackFailsAsWritten(image: string, category: Option<string>) returns (runs: nat, src: string)
    ensures runs == 2
    ensures src == FallbackSrcAsWritten(category)
  {
    var img := new CardImageAsWritten(image, category);
    img.LoadError();
    img.LoadError();
    runs, src := img.handlerRuns, img.src;
  }

  /**
   * The card's <img> element as the handler means it to behave: clearing
   * the handler detaches it, so it runs at most once. `handlerInstalled`
   * says whether the handler is still attached.
   */
  class CardImage {
    const category: Option<string>
    var src: string
    var handlerInstalled: bool
    var handlerRuns: nat

    /** The handler ran at most once, it is installed until it runs, and after it runs `src` is a fallback picture. */
    ghost predicate Valid()
      reads this
    {
      && handlerRuns <= 1
      && (handlerInstalled <==> handlerRuns == 0)
      && (handlerRuns == 1 ==> src == FallbackImage(category) && src in FallbackImages && src != "")
    }

    /** The element as rendered: the product's own image, with the handler installed. */
    constructor (image: string, category: Option<string>)
      ensures Valid()
      ensures this.category == category && src == image && handlerInstalled && handlerRuns == 0
    {
      this.category := category;
      src := image;
      handlerInstalled := true;
      handlerRuns := 0;
    }

    /** `handleImageError`: uninstall the handler, then switch to the category's fallback picture. */
    method HandleImageError()
      requires Valid() && handlerInstalled
      modifies this
      ensures Valid()
      ensures !handlerInstalled && handlerRuns == 1
      ensures src == FallbackImage(category) && src != ""
    {
      handlerInstalled := false;
      src := FallbackImage(category);
      handlerRuns := handlerRuns + 1;
    }

    /** A load error: the handler runs if it is still installed. */
    method LoadError()
      requires Valid()
      modifies this
      ensures Valid()
      ensures !handlerInstalled && handlerRuns == 1
      ensures old(handlerInstalled) ==> src == FallbackImage(category)
      ensures !old(handlerInstalled) ==> src == old(src)
    {
      if handlerInstalled {
        HandleImageError();
      }
    }
  }

  /** As intended, a failing fallback picture leaves the handler alone: it ran once. */
  method FallbackFails(image: string, category: Option<string>) returns (runs: nat, src: string)
    ensures runs == 1
    ensures src == FallbackImage(category)
  {
    var img := new CardImage(image, category);
    img.LoadError();
    img.LoadError();
    runs, src := img.handlerRuns, img.src;
  }
}
