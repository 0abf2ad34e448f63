/**
  The helpers of the product detail screen: the star row drawn for a
  rating, the collapsible sections, the per-image loading flags that are
  reset whenever another product is shown, the short varietal label and the
  add-to-cart button's state.
*/
module DetailScreen {
  import opened Types
  import opened Text
  import Catalog

  // ---------------------------------------------------------------------------
  // Star rating

  datatype Star = Full | Half | Empty

  function NonNegative(x: int): nat {
    if x < 0 then 0 else x
  }

  /** `Math.floor(rating)` for a rating of `tenths` tenths, never below zero as a loop bound. */
  function FullCount(tenths: int): nat {
    NonNegative(tenths / 10)
  }

  /** `rating % 1 !== 0`. */
  predicate HasHalf(tenths: int) {
    tenths % 10 != 0
  }

  function HalfCount(tenths: int): nat {
    if HasHalf(tenths) then 1 else 0
  }

  function EmptyCount(tenths: int): nat {
    NonNegative(5 - (FullCount(tenths) + HalfCount(tenths)))
  }

  /**
    The stars `renderStars` draws: the whole stars, then one half star when
    the rating has a fractional part, then empty stars up to five in all.
  */
  function StarKinds(tenths: int): (stars: seq<Star>)
    ensures |stars| == FullCount(tenths) + HalfCount(tenths) + EmptyCount(tenths)
    ensures forall i :: 0 <= i < |stars| ==>
              (stars[i] == Full <==> i < FullCount(tenths)) &&
              (stars[i] == Half <==> HasHalf(tenths) && i == FullCount(tenths))
  {
    seq(FullCount(tenths), _ => Full) + seq(HalfCount(tenths), _ => Half) + seq(EmptyCount(tenths), _ => Empty)
  }

  /** `renderStars(rating)`: two loops pushing onto the row, with the half star between them. */
  method RenderStars(tenths: int) returns (stars: seq<Star>)
    ensures stars == StarKinds(tenths)
  {
    stars := [];
    var fullStars := tenths / 10;
    var i := 0;
    while i < fullStars
      invariant 0 <= i <= FullCount(tenths)
      invariant stars == seq(i, _ => Full)
    {
      stars := stars + [Full];
      i := i + 1;
    }
    if tenths % 10 != 0 {
      stars := stars + [Half];
    }
    assert stars == seq(FullCount(tenths), _ => Full) + seq(HalfCount(tenths), _ => Half);
    var emptyStars := 5 - |stars|;
    var prefix := stars;
    i := 0;
    while i < emptyStars
      invariant 0 <= i <= EmptyCount(tenths)
      invariant stars == prefix + seq(i, _ => Empty)
    {
      stars := stars + [Empty];
      i := i + 1;
    }
  }

  /** A rating between 0 and 5 always gives a row of exactly five stars. */
  lemma FiveStarsInRange(tenths: int)
    requires 0 <= tenths <= 50
    ensures |StarKinds(tenths)| == 5
  {
  }

  /** Above 5 the empty count is not positive, so no empty star is drawn. */
  lemma NoEmptyStarsAboveFive(tenths: int)
    requires tenths > 50
    ensures Empty !in StarKinds(tenths)
    ensures |StarKinds(tenths)| == FullCount(tenths) + HalfCount(tenths)
  {
    var stars := StarKinds(tenths);
    forall i | 0 <= i < |stars| ensures stars[i] != Empty {
      assert i < FullCount(tenths) + HalfCount(tenths);
    }
  }

  /** The first `n` stars of the row (all of them when it is shorter), as `slice(0, n)` gives them. */
  function Take(stars: seq<Star>, n: nat): (r: seq<Star>)
    ensures |r| <= n && |r| <= |stars| && r == stars[..|r|]
    ensures |stars| >= n ==> |r| == n
  {
    if |stars| <= n then stars else stars[..n]
  }

  /** The row drawn on a recommendation card: at most five stars. */
  function CardStars(tenths: int): (r: seq<Star>)
    ensures |r| <= 5
  {
    Take(StarKinds(tenths), 5)
  }

  /** For a rating between 0 and 5 the card shows the same row as the detail view. */
  lemma CardStarsInRange(tenths: int)
    requires 0 <= tenths <= 50
    ensures CardStars(tenths) == StarKinds(tenths)
  {
    FiveStarsInRange(tenths);
  }

  // ---------------------------------------------------------------------------
  // Collapsible sections

  /** The sections open when the screen is first shown; every other section is closed. */
  const InitialSections: map<string, bool> := map["tastingNotes" := true, "description" := true]

  /** A section missing from the map reads as closed, as `undefined` does. */
  predicate IsExpanded(sections: map<string, bool>, section: string) {
    section in sections && sections[section]
  }

  /** `toggleSection(section)`: that entry becomes the negation of its previous reading. */
  function ToggleSection(sections: map<string, bool>, section: string): (r: map<string, bool>)
    ensures IsExpanded(r, section) == !IsExpanded(sections, section)
    ensures r.Keys == sections.Keys + {section}
    ensures forall other :: other in sections && other != section ==> r[other] == sections[other]
  {
    sections[section := !IsExpanded(sections, section)]
  }

  /** Toggling a section twice leaves every section reading as before. */
  lemma ToggleSectionTwice(sections: map<string, bool>, section: string)
    ensures forall s :: IsExpanded(ToggleSection(ToggleSection(sections, section), section), s) == IsExpanded(sections, s)
  {
  }

  lemma InitialSectionsOpen(section: string)
    ensures IsExpanded(InitialSections, section) <==> section == "tastingNotes" || section == "description"
  {
  }

  // ---------------------------------------------------------------------------
  // Image loading flags

  /** The key of image `index` of product `id`, as the template `${id}-${index}` builds it. */
  function ImageKey(id: string, index: nat): (key: string)
    ensures |key| > |id| + 1 && key[..|id|] == id && key[|id|] == '-'
    ensures CanonicalDigits(key[|id| + 1..]) && ParseNat(key[|id| + 1..]) == index
  {
    var key := id + "-" + NatToString(index);
    assert key[|id| + 1..] == NatToString(index);
    ParseNatToString(index);
    key
  }

  /** Two images of the same product never share a key. */
  lemma ImageKeyInjective(id: string, i: nat, j: nat)
    requires ImageKey(id, i) == ImageKey(id, j)
    ensures i == j
  {
    var n := |id| + 1;
    assert ImageKey(id, i)[n..] == NatToString(i);
    assert ImageKey(id, j)[n..] == NatToString(j);
    NatToStringInjective(i, j);
  }

  /** The flags for the first `count` images of product `id`, all still loading. */
  function LoadingFlags(id: string, count: nat): map<string, bool> {
    map i | 0 <= i < count :: ImageKey(id, i) := true
  }

  /** The loading flags a newly shown product starts with: one per image, all set. */
  function FreshLoadingStates(p: Product): (flags: map<string, bool>)
    ensures flags.Keys == ImageKeys(p.id, |p.images|) && |flags| == |p.images|
    ensures forall k :: k in flags ==> flags[k]
  {
    LoadingFlagsShape(p.id, |p.images|);
    LoadingFlags(p.id, |p.images|)
  }

  /** The keys of the first `count` images of product `id`. */
  function ImageKeys(id: string, count: nat): set<string> {
    set i | 0 <= i < count :: ImageKey(id, i)
  }

  /** Distinct images have distinct keys, so there are as many keys as images. */
  lemma {:induction false} ImageKeysCount(id: string, count: nat)
    ensures |ImageKeys(id, count)| == count
  {
    if count > 0 {
      ImageKeysCount(id, count - 1);
      var key := ImageKey(id, count - 1);
      assert key !in ImageKeys(id, count - 1) by {
        forall i | 0 <= i < count - 1 ensures ImageKey(id, i) != key {
          assert ParseNat(ImageKey(id, i)[|id| + 1..]) == i;
        }
      }
      assert ImageKeys(id, count) == ImageKeys(id, count - 1) + {key};
    }
  }

  /** The fresh flags hold exactly one key per image of the product, and every one is set. */
  lemma LoadingFlagsShape(id: string, count: nat)
    ensures var flags := LoadingFlags(id, count);
            flags.Keys == ImageKeys(id, count) && |flags| == count &&
            (forall k :: k in flags ==> flags[k])
  {
    assert LoadingFlags(id, count).Keys == ImageKeys(id, count);
    ImageKeysCount(id, count);
  }

  /** One more image adds exactly its own key to the flags. */
  lemma LoadingFlagsStep(id: string, count: nat)
    ensures LoadingFlags(id, count + 1) == LoadingFlags(id, count)[ImageKey(id, count) := true]
  {
  }

  /** The product-change effect: a flag set for each image, built by a loop over the images. */
  method BuildLoadingStates(p: Product) returns (flags: map<string, bool>)
    ensures flags == FreshLoadingStates(p)
  {
    flags := map[];
    var index := 0;
    while index < |p.images|
      invariant 0 <= index <= |p.images|
      invariant flags == LoadingFlags(p.id, index)
    {
      LoadingFlagsStep(p.id, index);
      flags := flags[ImageKey(p.id, index) := true];
      index := index + 1;
    }
  }

  /** An image's `onLoadEnd`: its flag is cleared and every other flag stays. */
  function MarkLoaded(flags: map<string, bool>, key: string): (r: map<string, bool>)
    ensures key in r && !r[key]
    ensures r.Keys == flags.Keys + {key}
    ensures forall k :: k in flags && k != key ==> r[k] == flags[k]
  {
    flags[key := false]
  }

  // ---------------------------------------------------------------------------
  // Labels

  /** Long varietal descriptions are shown as "Bordeaux Blend". */
  function VarietalLabel(varietal: string): (r: string)
    ensures |r| <= 20
    ensures r == varietal || r == "Bordeaux Blend"
    ensures |varietal| <= 20 ==> r == varietal
  {
    if |varietal| > 20 then "Bordeaux Blend" else varietal
  }

  lemma VarietalLabelIdempotent(varietal: string)
    ensures VarietalLabel(VarietalLabel(varietal)) == VarietalLabel(varietal)
  {
  }

  /** The add-to-cart button is enabled exactly when the product is in stock. */
  predicate AddToCartEnabled(p: Product) {
    p.inStock
  }

  function AddToCartLabel(p: Product): (r: string)
    ensures r == "Add to Cart" <==> AddToCartEnabled(p)
    ensures r == "Out of Stock" <==> !AddToCartEnabled(p)
  {
    if p.inStock then "Add to Cart" else "Out of Stock"
  }

  // ---------------------------------------------------------------------------
  // The helpers against the fixtures

  /** The first product, rated 4.8, shows four whole stars and a half star. */
  lemma MockProductStars()
    ensures StarKinds(Catalog.MockProduct.ratingTenths) == [Full, Full, Full, Full, Half]
  {
  }

  /**
    The first product's long blend description is shortened; the other
    varietals are shown as they are. Every fixture product can be bought.
  */
  lemma FixtureLabels()
    ensures VarietalLabel(Catalog.MockProduct.varietal) == "Bordeaux Blend"
    ensures VarietalLabel(Catalog.PenfoldsGrange.varietal) == "Shiraz"
    ensures VarietalLabel(Catalog.OpusOne.varietal) == "Bordeaux Blend"
    ensures VarietalLabel(Catalog.Sassicaia.varietal) == "Cabernet Sauvignon"
    ensures forall p :: p in Catalog.MockProducts + Catalog.RecommendedProducts ==> AddToCartEnabled(p)
  {
    assert |Catalog.MockProduct.varietal| > 20;
  }

  // ---------------------------------------------------------------------------
  // The screen's own state

  class DetailScreenState {
    var product: Product
    var currentImageIndex: nat
    var expandedSections: map<string, bool>
    var imageLoadingStates: map<string, bool>

    /** The screen as it stands once the product-change effect has run for the first product. */
    constructor (p: Product)
      ensures product == p && currentImageIndex == 0
      ensures expandedSections == InitialSections
      ensures imageLoadingStates == FreshLoadingStates(p)
    {
      product := p;
      currentImageIndex := 0;
      expandedSections := InitialSections;
      var flags := BuildLoadingStates(p);
      imageLoadingStates := flags;
    }

    /**
      A new `product` prop. The effect keyed on the product id resets the
      image index and the loading flags only when the id changes; the open
      sections are kept either way.
    */
    method ShowProduct(p: Product)
      modifies this
      ensures product == p && expandedSections == old(expandedSections)
      ensures p.id != old(product.id) ==>
                currentImageIndex == 0 && imageLoadingStates == FreshLoadingStates(p)
      ensures p.id == old(product.id) ==>
                currentImageIndex == old(currentImageIndex) && imageLoadingStates == old(imageLoadingStates)
    {
      if p.id != product.id {
        currentImageIndex := 0;
        var flags := BuildLoadingStates(p);
        imageLoadingStates := flags;
      }
      product := p;
    }

    method Toggle(section: string)
      modifies this
      ensures expandedSections == ToggleSection(old(expandedSections), section)
      ensures product == old(product) && currentImageIndex == old(currentImageIndex)
      ensures imageLoadingStates == old(imageLoadingStates)
    {
      expandedSections := expandedSections[section := !IsExpanded(expandedSections, section)];
    }

    method ImageLoadEnd(index: nat)
      modifies this
      ensures imageLoadingStates == MarkLoaded(old(imageLoadingStates), ImageKey(product.id, index))
      ensures product == old(product) && currentImageIndex == old(currentImageIndex)
      ensures expandedSections == old(expandedSections)
    {
      imageLoadingStates := imageLoadingStates[ImageKey(product.id, index) := false];
    }
  }
}
