/**
  The response selector of App.tsx and the recommendation list it draws on.
  The selector is a pure function of the current product, the current
  recommendations and the user's text: the lower-cased text is tested
  against four keywords in a fixed order, the first keyword found picks the
  reply template, and a generic reply is given when none is found.
*/
module Assistant {
  import opened Types
  import opened Text
  import Catalog

  /** The catalog the recommendations are drawn from: the products, then the recommended ones. */
  const AllProducts: seq<Product> := Catalog.MockProducts + Catalog.RecommendedProducts

  // ---------------------------------------------------------------------------
  // Recommendations

  /**
    `a` is a subsequence of `b`: its elements appear in `b` in the same
    order, possibly with others in between.
  */
  predicate IsSubsequence<T(==)>(a: seq<T>, b: seq<T>)
    decreases |b|
  {
    a == [] || (b != [] && if a[0] == b[0] then IsSubsequence(a[1..], b[1..]) else IsSubsequence(a, b[1..]))
  }

  /** `products.filter(p => p.id !== id)`. */
  function WithoutId(products: seq<Product>, id: string): (r: seq<Product>)
    ensures forall p :: p in r <==> p in products && p.id != id
    ensures IsSubsequence(r, products)
    ensures |r| <= |products|
  {
    if products == [] then []
    else if products[0].id != id then [products[0]] + WithoutId(products[1..], id)
    else WithoutId(products[1..], id)
  }

  /**
    The filter keeps every product with another id as often as it occurs,
    duplicates included, and drops every product with that id.
  */
  lemma {:induction false} WithoutIdCounts(products: seq<Product>, id: string)
    ensures forall q :: multiset(WithoutId(products, id))[q] ==
                          (if q.id != id then multiset(products)[q] else 0)
    decreases |products|
  {
    if products != [] {
      WithoutIdCounts(products[1..], id);
      assert products == [products[0]] + products[1..];
      assert multiset(products) == multiset{products[0]} + multiset(products[1..]);
    }
  }

  /**
    The recommendations shown beside product `currentId`: the first two
    catalog products, in catalog order, whose id differs from it.
  */
  function Recommendations(catalog: seq<Product>, currentId: string): (r: seq<Product>)
    ensures |r| <= 2
    ensures forall p :: p in r ==> p in catalog && p.id != currentId
    ensures IsSubsequence(r, catalog)
    ensures var eligible := WithoutId(catalog, currentId);
            |r| == (if |eligible| < 2 then |eligible| else 2) && r == eligible[..|r|]
  {
    var eligible := WithoutId(catalog, currentId);
    var r := if |eligible| < 2 then eligible else eligible[..2];
    SubsequencePrefix(r, eligible, catalog);
    r
  }

  /** A prefix of a subsequence is a subsequence. */
  lemma {:induction false} SubsequencePrefix<T>(a: seq<T>, b: seq<T>, c: seq<T>)
    requires |a| <= |b| && a == b[..|a|] && IsSubsequence(b, c)
    ensures IsSubsequence(a, c)
    decreases |c|
  {
    if a != [] {
      assert b != [] && c != [];
      if b[0] == c[0] {
        assert a[1..] == b[1..][..|a| - 1];
        SubsequencePrefix(a[1..], b[1..], c[1..]);
      } else {
        SubsequencePrefix(a, b, c[1..]);
      }
    }
  }

  function Names(products: seq<Product>): (r: seq<string>)
    ensures |r| == |products|
    ensures forall i :: 0 <= i < |products| ==> r[i] == products[i].name
  {
    if products == [] then [] else [products[0].name] + Names(products[1..])
  }

  // ---------------------------------------------------------------------------
  // Rule selection

  /** The keywords of the reply rules, in the order they are tested. */
  const Keywords: seq<string> := ["tell me more", "view details", "other options", "food pair"]

  const TellMeMoreRule := 0
  const ViewDetailsRule := 1
  const OtherOptionsRule := 2
  const FoodPairRule := 3
  const DefaultRule := 4

  /**
    The position of the first keyword that `text` contains, or `|keywords|`
    when it contains none.
  */
  function FirstMatch(text: string, keywords: seq<string>): (k: nat)
    ensures k <= |keywords|
    ensures k < |keywords| ==> Contains(text, keywords[k])
    ensures forall j :: 0 <= j < k ==> !Contains(text, keywords[j])
  {
    if keywords == [] then 0
    else if Contains(text, keywords[0]) then 0
    else 1 + FirstMatch(text, keywords[1..])
  }

  /** The rule that answers `userMessage`: the first keyword in its lower-cased text. */
  function RuleFor(userMessage: string): (rule: nat)
    ensures rule <= DefaultRule
    ensures rule < DefaultRule ==> Contains(ToLowerAscii(userMessage), Keywords[rule])
  {
    FirstMatch(ToLowerAscii(userMessage), Keywords)
  }

  /** Over a lower-cased text: each rule fires exactly when its keyword is present and no earlier one is. */
  lemma KeywordRuleIff(lower: string)
    ensures var c0, c1, c2, c3 := Contains(lower, "tell me more"), Contains(lower, "view details"),
                                  Contains(lower, "other options"), Contains(lower, "food pair");
            var k := FirstMatch(lower, Keywords);
            (k == TellMeMoreRule <==> c0) &&
            (k == ViewDetailsRule <==> !c0 && c1) &&
            (k == OtherOptionsRule <==> !c0 && !c1 && c2) &&
            (k == FoodPairRule <==> !c0 && !c1 && !c2 && c3) &&
            (k == DefaultRule <==> !c0 && !c1 && !c2 && !c3)
  {
    var k := FirstMatch(lower, Keywords);
    assert Keywords[0] == "tell me more" && Keywords[1] == "view details";
    assert Keywords[2] == "other options" && Keywords[3] == "food pair";
  }

  /** Each rule fires exactly when its keyword is present and no earlier one is. */
  lemma RuleForIff(userMessage: string)
    ensures var lower := ToLowerAscii(userMessage);
            var c0, c1, c2, c3 := Contains(lower, "tell me more"), Contains(lower, "view details"),
                                  Contains(lower, "other options"), Contains(lower, "food pair");
            (RuleFor(userMessage) == TellMeMoreRule <==> c0) &&
            (RuleFor(userMessage) == ViewDetailsRule <==> !c0 && c1) &&
            (RuleFor(userMessage) == OtherOptionsRule <==> !c0 && !c1 && c2) &&
            (RuleFor(userMessage) == FoodPairRule <==> !c0 && !c1 && !c2 && c3) &&
            (RuleFor(userMessage) == DefaultRule <==> !c0 && !c1 && !c2 && !c3)
  {
    KeywordRuleIff(ToLowerAscii(userMessage));
  }

  // ---------------------------------------------------------------------------
  // Reply templates

  const TellMeMoreTail := " stars. Would you like to know about its tasting notes or food pairings?"
  const ViewDetailsTail := ". Feel free to scroll through all the details, or I can answer specific questions about this wine's characteristics, vintage, or perfect occasions to enjoy it!"
  const FoodPairTail := " profile complements rich, savory dishes perfectly. Planning a special meal?"
  const DefaultTail := "! Let me help you with that. Would you like to know more about its tasting profile, food pairings, or find similar wines?"

  function TellMeMoreReply(p: Product): (r: string)
    ensures Contains(r, p.name) && Contains(r, p.description)
    ensures Contains(r, "$" + FormatCents(p.priceCents))
    ensures Contains(r, FormatTenths(p.ratingTenths))
  {
    var pieces := [p.name, " is truly exceptional. ", p.description, " It's currently priced at ",
                   "$" + FormatCents(p.priceCents), " and rated ", FormatTenths(p.ratingTenths),
                   TellMeMoreTail];
    ConcatContainsEach(pieces, 0);
    ConcatContainsEach(pieces, 2);
    ConcatContainsEach(pieces, 4);
    ConcatContainsEach(pieces, 6);
    Concat(pieces)
  }

  function ViewDetailsReply(p: Product): (r: string)
    ensures Contains(r, p.name)
  {
    var pieces := ["You're already viewing the ", p.name,
                   ViewDetailsTail];
    ConcatContainsEach(pieces, 1);
    Concat(pieces)
  }

  /** The names of the recommendations, joined by " and " (empty when there are none). */
  function RecommendationPhrase(recommendations: seq<Product>): (r: string)
    ensures forall i :: 0 <= i < |recommendations| ==> Contains(r, recommendations[i].name)
    ensures recommendations == [] ==> r == ""
  {
    var r := Join(Names(recommendations), " and ");
    forall i | 0 <= i < |recommendations| ensures Contains(r, recommendations[i].name) {
      JoinContainsEach(Names(recommendations), " and ", i);
    }
    r
  }

  const OtherOptionsTail := ". They share similar characteristics but each offers a unique experience. Would you like me to explain what makes each special?"

  function OtherOptionsReply(p: Product, recommendations: seq<Product>): (r: string)
    ensures Contains(r, p.name)
    ensures Contains(r, RecommendationPhrase(recommendations))
    ensures forall i :: 0 <= i < |recommendations| ==> Contains(r, recommendations[i].name)
  {
    var phrase := RecommendationPhrase(recommendations);
    var pieces := ["Great question! Based on ", p.name, ", I'd recommend checking out ", phrase, OtherOptionsTail];
    var r := Concat(pieces);
    ConcatContainsEach(pieces, 1);
    ConcatContainsEach(pieces, 3);
    forall i | 0 <= i < |recommendations| ensures Contains(r, recommendations[i].name) {
      ContainsTransitive(r, phrase, recommendations[i].name);
    }
    r
  }

  /** The first three pairings of `p` (all of them when it has fewer), joined by ", ". */
  function PairingPhrase(p: Product): (r: string)
    ensures forall i :: 0 <= i < |p.pairings| && i < 3 ==> Contains(r, p.pairings[i])
  {
    var shown := if |p.pairings| <= 3 then p.pairings else p.pairings[..3];
    var r := Join(shown, ", ");
    forall i | 0 <= i < |p.pairings| && i < 3 ensures Contains(r, p.pairings[i]) {
      JoinContainsEach(shown, ", ", i);
    }
    r
  }

  function FoodPairReply(p: Product): (r: string)
    ensures Contains(r, p.name) && Contains(r, p.varietal)
    ensures Contains(r, PairingPhrase(p))
    ensures forall i :: 0 <= i < |p.pairings| && i < 3 ==> Contains(r, p.pairings[i])
  {
    var phrase := PairingPhrase(p);
    var pieces := [p.name, " pairs beautifully with ", phrase, ". The wine's ", p.varietal,
                   FoodPairTail];
    var r := Concat(pieces);
    ConcatContainsEach(pieces, 0);
    ConcatContainsEach(pieces, 2);
    ConcatContainsEach(pieces, 4);
    forall i | 0 <= i < |p.pairings| && i < 3 ensures Contains(r, p.pairings[i]) {
      ContainsTransitive(r, phrase, p.pairings[i]);
    }
    r
  }

  function DefaultReply(p: Product): (r: string)
    ensures Contains(r, p.name)
  {
    var pieces := ["That's a great question about ", p.name,
                   DefaultTail];
    ConcatContainsEach(pieces, 1);
    Concat(pieces)
  }

  /**
    `getAIResponse`: the reply to `userMessage` while `product` is shown with
    `recommendations` beside it. Whatever the rule, the reply names the product.
  */
  function GetAIResponse(product: Product, recommendations: seq<Product>, userMessage: string): (r: string)
    ensures Contains(r, product.name)
  {
    var rule := RuleFor(userMessage);
    if rule == TellMeMoreRule then TellMeMoreReply(product)
    else if rule == ViewDetailsRule then ViewDetailsReply(product)
    else if rule == OtherOptionsRule then OtherOptionsReply(product, recommendations)
    else if rule == FoodPairRule then FoodPairReply(product)
    else DefaultReply(product)
  }

  // ---------------------------------------------------------------------------
  // Properties of the selector

  /**
    A message asking to hear more gets the product's description and its
    price with exactly two decimals.
  */
  lemma TellMeMoreAnswer(product: Product, recommendations: seq<Product>, userMessage: string)
    requires Contains(ToLowerAscii(userMessage), "tell me more")
    ensures var r := GetAIResponse(product, recommendations, userMessage);
            var price := FormatCents(product.priceCents);
            r == TellMeMoreReply(product) &&
            Contains(r, product.description) && Contains(r, "$" + price) &&
            price[|price| - 3] == '.' && IsDigit(price[|price| - 2]) && IsDigit(price[|price| - 1])
  {
    RuleForIff(userMessage);
  }

  /** "view details" wins over the later keywords, but not over "tell me more". */
  lemma ViewDetailsAnswer(product: Product, recommendations: seq<Product>, userMessage: string)
    requires !Contains(ToLowerAscii(userMessage), "tell me more")
    requires Contains(ToLowerAscii(userMessage), "view details")
    ensures GetAIResponse(product, recommendations, userMessage) == ViewDetailsReply(product)
  {
    RuleForIff(userMessage);
  }

  /** Asking for other options lists every recommendation by name. */
  lemma OtherOptionsAnswer(product: Product, recommendations: seq<Product>, userMessage: string)
    requires !Contains(ToLowerAscii(userMessage), "tell me more")
    requires !Contains(ToLowerAscii(userMessage), "view details")
    requires Contains(ToLowerAscii(userMessage), "other options")
    ensures var r := GetAIResponse(product, recommendations, userMessage);
            r == OtherOptionsReply(product, recommendations) &&
            Contains(r, Join(Names(recommendations), " and ")) &&
            forall i :: 0 <= i < |recommendations| ==> Contains(r, recommendations[i].name)
  {
    RuleForIff(userMessage);
  }

  /**
    With no recommendations the "other options" reply keeps its template
    around an empty phrase: a non-empty text, and no failure.
  */
  lemma OtherOptionsWithNoRecommendations(product: Product)
    ensures var r := OtherOptionsReply(product, []);
            |r| > 0 && Contains(r, ", I'd recommend checking out " + OtherOptionsTail)
  {
    var pieces := ["Great question! Based on ", product.name, ", I'd recommend checking out ", "", OtherOptionsTail];
    var short := ["Great question! Based on ", product.name, ", I'd recommend checking out " + OtherOptionsTail];
    assert RecommendationPhrase([]) == "";
    assert Concat(pieces[2..]) == Concat(short[2..]) by {
      assert Concat(pieces[4..]) == OtherOptionsTail;
      assert Concat(pieces[3..]) == OtherOptionsTail;
    }
    assert Concat(pieces) == Concat(short);
    ConcatContainsEach(short, 2);
  }

  /** Asking about food lists at most the first three pairings and names the varietal. */
  lemma FoodPairAnswer(product: Product, recommendations: seq<Product>, userMessage: string)
    requires !Contains(ToLowerAscii(userMessage), "tell me more")
    requires !Contains(ToLowerAscii(userMessage), "view details")
    requires !Contains(ToLowerAscii(userMessage), "other options")
    requires Contains(ToLowerAscii(userMessage), "food pair")
    ensures var r := GetAIResponse(product, recommendations, userMessage);
            var shown := if |product.pairings| <= 3 then product.pairings else product.pairings[..3];
            r == FoodPairReply(product) &&
            Contains(r, Join(shown, ", ")) && Contains(r, product.varietal) && |shown| <= 3
  {
    RuleForIff(userMessage);
  }

  /** A message with none of the keywords gets the generic reply naming the product. */
  lemma DefaultAnswer(product: Product, recommendations: seq<Product>, userMessage: string)
    requires !Contains(ToLowerAscii(userMessage), "tell me more")
    requires !Contains(ToLowerAscii(userMessage), "view details")
    requires !Contains(ToLowerAscii(userMessage), "other options")
    requires !Contains(ToLowerAscii(userMessage), "food pair")
    ensures GetAIResponse(product, recommendations, userMessage) == DefaultReply(product)
  {
    RuleForIff(userMessage);
  }

  // ---------------------------------------------------------------------------
  // The selector against the fixtures

  lemma TellMeMoreChipRule()
    ensures RuleFor("Tell me more") == TellMeMoreRule
  {
    var l := ToLowerAscii("Tell me more");
    assert l == "tell me more";
    StartsWithContains(l, "tell me more");
    RuleForIff("Tell me more");
  }

  lemma ViewDetailsChipRule()
    ensures RuleFor("View details") == ViewDetailsRule
  {
    var l := ToLowerAscii("View details");
    assert l == "view details";
    ContainsOnlyPresentChars(l, "tell me more", 'm');
    StartsWithContains(l, "view details");
    RuleForIff("View details");
  }

  lemma OtherOptionsChipRule()
    ensures RuleFor("Other options?") == OtherOptionsRule
  {
    var l := ToLowerAscii("Other options?");
    assert l == "other options?";
    ContainsOnlyPresentChars(l, "tell me more", 'm');
    ContainsOnlyPresentChars(l, "view details", 'v');
    StartsWithContains(l, "other options");
    RuleForIff("Other options?");
  }

  const FoodPairChipLower := "what food pairs well?"

  /** The food chip's text has none of the earlier keywords. */
  lemma FoodPairChipMisses()
    ensures !Contains(FoodPairChipLower, "tell me more")
    ensures !Contains(FoodPairChipLower, "view details")
    ensures !Contains(FoodPairChipLower, "other options")
  {
    assert 'm' !in FoodPairChipLower && 'v' !in FoodPairChipLower && 'n' !in FoodPairChipLower;
    ContainsOnlyPresentChars(FoodPairChipLower, "tell me more", 'm');
    ContainsOnlyPresentChars(FoodPairChipLower, "view details", 'v');
    ContainsOnlyPresentChars(FoodPairChipLower, "other options", 'n');
  }

  /** The food chip's text has "food pair". */
  lemma FoodPairChipHits()
    ensures Contains(FoodPairChipLower, "food pair")
  {
    assert OccursAt(FoodPairChipLower, "food pair", 5);
  }

  lemma FoodPairChipRule()
    ensures RuleFor("What food pairs well?") == FoodPairRule
  {
    assert ToLowerAscii("What food pairs well?") == FoodPairChipLower;
    FoodPairChipMisses();
    FoodPairChipHits();
    KeywordRuleIff(FoodPairChipLower);
  }

  /** Quick reply number i (from 0) fires rule i: each chip has a rule of its own. */
  lemma QuickRepliesHitTheirRules()
    ensures forall i :: 0 <= i < |Catalog.QuickReplies| ==> RuleFor(Catalog.QuickReplies[i].text) == i
  {
    TellMeMoreChipRule();
    ViewDetailsChipRule();
    OtherOptionsChipRule();
    FoodPairChipRule();
  }

  /** A product with another id is kept at the head of the filtered list. */
  lemma WithoutIdKeepsHead(x: Product, rest: seq<Product>, id: string)
    requires x.id != id
    ensures WithoutId([x] + rest, id) == [x] + WithoutId(rest, id)
  {
    assert ([x] + rest)[1..] == rest;
  }

  /** With the first of four products on screen, the other three are eligible and the next two are shown. */
  lemma RecommendationsBesideFirstOfFour(a: Product, b: Product, c: Product, d: Product)
    requires b.id != a.id && c.id != a.id && d.id != a.id
    ensures Recommendations([a, b, c, d], a.id) == [b, c]
  {
    WithoutIdKeepsHead(d, [], a.id);
    assert [d] + [] == [d];
    WithoutIdKeepsHead(c, [d], a.id);
    assert [c] + [d] == [c, d];
    WithoutIdKeepsHead(b, [c, d], a.id);
    assert [b] + [c, d] == [b, c, d];
    assert [a, b, c, d][1..] == [b, c, d];
    assert WithoutId([a, b, c, d], a.id) == [b, c, d];
  }

  /** While the first product is shown, the recommendations are the second and third catalog entries. */
  lemma InitialRecommendations()
    ensures Recommendations(AllProducts, Catalog.MockProduct.id) == [Catalog.PenfoldsGrange, Catalog.OpusOne]
    ensures Names(Recommendations(AllProducts, Catalog.MockProduct.id)) == ["Penfolds Grange 2018", "Opus One 2018"]
  {
    assert AllProducts == [Catalog.MockProduct, Catalog.PenfoldsGrange, Catalog.OpusOne, Catalog.Sassicaia];
    RecommendationsBesideFirstOfFour(Catalog.MockProduct, Catalog.PenfoldsGrange, Catalog.OpusOne, Catalog.Sassicaia);
  }
}
