/**
  The in-memory fixtures the application starts from: the products shown on
  the detail screen and offered as recommendations, the seed conversation and
  the quick-reply menu. Prices are in cents, ratings and alcohol content in
  tenths.
*/
module Catalog {
  import opened Types
  import Text

  // The longer texts of the products, named so that the product records stay small.
  const MargauxImage1 := "https://manager.chateau-margaux.com/wp-content/uploads/2017/11/chr_2017_11_13_hp-2-652x458.jpg"
  const MargauxImage2 := "https://keyassets.timeincuk.net/inspirewp/live/wp-content/uploads/sites/34/2017/11/margaux-2015-limited-release.jpg"
  const MargauxImage3 := "https://www.lagunacellar.com/media/catalog/product/m/a/margaux-2015x6.jpg?optimize=high&bg-color=255,255,255&fit=bounds&height=&width="
  const MargauxDescription := "A magnificent expression of the 2015 vintage from one of Bordeaux's most prestigious estates. This wine showcases the perfect balance of power and elegance that Château Margaux is renowned for."
  const MargauxReview := "This is a stunning wine that captures the essence of the 2015 vintage. Showing remarkable depth and complexity, with layers of dark fruit, floral notes, and classic Margaux elegance. The tannins are refined and the finish is incredibly long. While approachable now, this wine will continue to develop beautifully over the next 20-30 years."
  const MargauxProvenance := "Sourced directly from the château, stored in temperature-controlled facilities since release. Complete provenance documentation available."
  const MargauxVarietal := "Bordeaux Blend (Cabernet Sauvignon, Merlot, Petit Verdot)"
  const GrangeImage := "https://lieblings-weine.de/wp-content/uploads/2024/10/penfolds_bin_95_grange_2018_m_schubert_gepa_bottle_lieblings-weine.jpg"
  const GrangeDescription := "Australia's most iconic wine, the Grange is a testament to Penfolds' winemaking excellence."
  const OpusOneImage := "https://winescout.com.sg/cdn/shop/files/OPUSONE2.jpg?v=1714555266&width=1445"
  const OpusOneDescription := "A Napa Valley icon, blending Bordeaux tradition with California innovation."
  const SassicaiaImage := "https://www.terredimare.com/wp-content/uploads/2021/04/DSC00003-scaled.jpg"
  const SassicaiaDescription := "The wine that started the Super Tuscan revolution."

  const MockProduct: Product := Product(
    id := "1",
    name := "Château Margaux 2015",
    winery := "Château Margaux",
    region := "Margaux, Bordeaux, France",
    vintage := 2015,
    priceCents := 89999,
    ratingTenths := 48,
    reviewCount := 127,
    images := [MargauxImage1, MargauxImage2, MargauxImage3],
    inStock := true,
    stockCount := Some(12),
    description := MargauxDescription,
    tastingNotes := [
      TastingCategory("Aroma", ["Blackcurrant", "Violet", "Cedar", "Graphite", "Tobacco"]),
      TastingCategory("Palate", ["Rich dark fruits", "Silky tannins", "Mineral notes", "Long finish"]),
      TastingCategory("Body", ["Full-bodied", "Well-structured", "Age-worthy"])
    ],
    pairings := ["Grilled ribeye steak", "Lamb rack", "Aged cheeses", "Beef Wellington"],
    expertReview := Some(MargauxReview),
    provenance := Some(MargauxProvenance),
    badges := Some(["95+ Points", "Critic's Choice", "Limited Allocation"]),
    varietal := MargauxVarietal,
    alcoholTenths := 135,
    bottleSize := "750ml")

  const PenfoldsGrange: Product := Product(
    id := "2",
    name := "Penfolds Grange 2018",
    winery := "Penfolds",
    region := "Barossa Valley, Australia",
    vintage := 2018,
    priceCents := 74999,
    ratingTenths := 47,
    reviewCount := 89,
    images := [GrangeImage],
    inStock := true,
    stockCount := Some(8),
    description := GrangeDescription,
    tastingNotes := [TastingCategory("Aroma", ["Blackberry", "Plum", "Mocha", "Spice"])],
    pairings := ["Braised short ribs", "Venison"],
    expertReview := None,
    provenance := None,
    badges := Some(["97 Points"]),
    varietal := "Shiraz",
    alcoholTenths := 145,
    bottleSize := "750ml")

  const OpusOne: Product := Product(
    id := "3",
    name := "Opus One 2018",
    winery := "Opus One",
    region := "Napa Valley, California",
    vintage := 2018,
    priceCents := 44999,
    ratingTenths := 46,
    reviewCount := 156,
    images := [OpusOneImage],
    inStock := true,
    stockCount := None,
    description := OpusOneDescription,
    tastingNotes := [TastingCategory("Palate", ["Blackberry", "Cassis", "Vanilla"])],
    pairings := ["Prime rib", "Duck confit"],
    expertReview := None,
    provenance := None,
    badges := Some(["94 Points"]),
    varietal := "Bordeaux Blend",
    alcoholTenths := 145,
    bottleSize := "750ml")

  const Sassicaia: Product := Product(
    id := "4",
    name := "Sassicaia 2017",
    winery := "Tenuta San Guido",
    region := "Bolgheri, Tuscany, Italy",
    vintage := 2017,
    priceCents := 34999,
    ratingTenths := 47,
    reviewCount := 92,
    images := [SassicaiaImage],
    inStock := true,
    stockCount := None,
    description := SassicaiaDescription,
    tastingNotes := [TastingCategory("Aroma", ["Cassis", "Herbs", "Mediterranean scrub"])],
    pairings := ["Tuscan steak", "Wild boar"],
    expertReview := None,
    provenance := None,
    badges := Some(["96 Points", "Super Tuscan"]),
    varietal := "Cabernet Sauvignon",
    alcoholTenths := 135,
    bottleSize := "750ml")

  const MockProducts: seq<Product> := [MockProduct, PenfoldsGrange]

  const RecommendedProducts: seq<Product> := [OpusOne, Sassicaia]

  const QuickReplies: seq<QuickReply> := [
    QuickReply("1", "Tell me more"),
    QuickReply("2", "View details"),
    QuickReply("3", "Other options?"),
    QuickReply("4", "What food pairs well?")
  ]

  const SeedText1 := "Hello! I'm your wine assistant. How can I help you find the perfect wine today?"
  const SeedText2 := "I'm looking for a special Bordeaux for a dinner party"
  const SeedText3 := "Great choice! I have some excellent Bordeaux options for you. What's your budget range and what will you be serving?"
  const SeedText4 := "Around $800-1000, serving beef Wellington"
  const SeedText5 := "Perfect! I recommend the Château Margaux 2015. It's a stunning wine that pairs beautifully with beef Wellington. The wine has exceptional depth, silky tannins, and the 2015 vintage is considered one of the best in recent years."

  /**
    The seed conversation. Its timestamps are taken relative to the moment
    the fixtures are loaded, `loadTime` milliseconds since the epoch.
  */
  function MockMessages(loadTime: int): seq<Message> {
    [
      Message("1", SeedText1, Assistant, loadTime - 300000, None, None),
      Message("2", SeedText2, User, loadTime - 240000, None, None),
      Message("3", SeedText3, Assistant, loadTime - 180000, None, None),
      Message("4", SeedText4, User, loadTime - 120000, None, None),
      Message("5", SeedText5, Assistant, loadTime - 60000, Some("1"), None)
    ]
  }

  /** The product with identifier `id` in `products`, the first one if several share it. */
  function FindProduct(products: seq<Product>, id: string): (r: Option<Product>)
    ensures r.Some? ==> r.value in products && r.value.id == id
    ensures r.None? ==> forall p :: p in products ==> p.id != id
  {
    if products == [] then None
    else if products[0].id == id then Some(products[0])
    else FindProduct(products[1..], id)
  }

  /** Every product of both fixture lists has its own identifier, "1" to "4". */
  lemma ProductIdsDistinct()
    ensures var all := MockProducts + RecommendedProducts;
            |all| == 4 &&
            (forall i, j :: 0 <= i < j < |all| ==> all[i].id != all[j].id) &&
            (forall i :: 0 <= i < |all| ==> all[i].id == Text.NatToString(i + 1))
  {
    var all := MockProducts + RecommendedProducts;
    assert all == [MockProduct, PenfoldsGrange, OpusOne, Sassicaia];
  }

  /** The seed log: five messages, ids "1" to "5", senders alternating from the assistant. */
  lemma SeedLogShape(loadTime: int)
    ensures var log := MockMessages(loadTime);
            |log| == 5 &&
            (forall i, j :: 0 <= i < j < |log| ==> log[i].id != log[j].id) &&
            (forall i :: 0 <= i < |log| ==> log[i].sender == (if i % 2 == 0 then Assistant else User)) &&
            (forall i :: 0 <= i < |log| - 1 ==> log[i].timestamp < log[i + 1].timestamp)
  {
  }

  /**
    The only product link in the seed log is the last message's, and it
    resolves to the product the screen starts on.
  */
  lemma SeedReferenceResolves(loadTime: int)
    ensures var log := MockMessages(loadTime);
            (forall i :: 0 <= i < 4 ==> log[i].productReference.None?) &&
            log[4].productReference == Some(MockProduct.id) &&
            FindProduct(MockProducts + RecommendedProducts, log[4].productReference.value) == Some(MockProduct)
  {
  }

  /** The quick replies have distinct identifiers and distinct texts. */
  lemma QuickRepliesDistinct()
    ensures |QuickReplies| == 4
    ensures forall i, j :: 0 <= i < j < |QuickReplies| ==>
              QuickReplies[i].id != QuickReplies[j].id && QuickReplies[i].text != QuickReplies[j].text
  {
  }
}
