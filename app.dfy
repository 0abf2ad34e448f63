/**
  The session controller of App.tsx: the product on screen, the message
  log, whether the chat panel is expanded, the loading flag, and the replies
  that have been scheduled but not yet delivered.

  The source schedules each assistant reply with a 1.5 second timer. Here the
  scheduled replies form a queue: sending enqueues a snapshot of what the
  timer's callback closes over (the user's text, the product and the
  recommendations of the render in which the message was sent) and
  `ResolveNext` delivers the oldest one. Timers of equal delay fire in the
  order they were set, so the queue is first in, first out.

  `Date.now()` is the parameter `now` (milliseconds since the epoch) of
  every step that reads the clock.
*/
module App {
  import opened Types
  import opened Text
  import Catalog
  import Assistant

  /** What a scheduled reply's callback has captured when the message is sent. */
  datatype PendingReply = PendingReply(userText: string, product: Product, recommendations: seq<Product>)

  /**
    `catalog` is the product list the recommendations are drawn from, fixed
    when the component mounts.
  */
  datatype SessionState = SessionState(
    catalog: seq<Product>,
    currentProduct: Product,
    messages: seq<Message>,
    isChatExpanded: bool,
    isLoading: bool,
    pending: seq<PendingReply>)

  /** The recommendations shown beside the current product. */
  function CurrentRecommendations(s: SessionState): (r: seq<Product>)
    ensures |r| <= 2
    ensures forall p :: p in r ==> p in s.catalog && p.id != s.currentProduct.id
  {
    Assistant.Recommendations(s.catalog, s.currentProduct.id)
  }

  /** The state the application starts in, the fixtures having been loaded at `loadTime`. */
  function InitialState(loadTime: int): (s: SessionState)
    ensures s.catalog == Assistant.AllProducts && s.currentProduct == Catalog.MockProduct
    ensures s.currentProduct in s.catalog
    ensures s.messages == Catalog.MockMessages(loadTime)
    ensures !s.isChatExpanded && !s.isLoading && s.pending == []
  {
    var catalog := Assistant.AllProducts;
    assert catalog[0] == Catalog.MockProduct;
    SessionState(catalog, Catalog.MockProduct, Catalog.MockMessages(loadTime), false, false, [])
  }

  /** Every log in the source is extended at its end or replaced outright. */
  predicate IsPrefix<T(==)>(a: seq<T>, b: seq<T>) {
    |a| <= |b| && b[..|a|] == a
  }

  /**
    The state invariant: while the loading indicator is on, a reply is on
    its way. The converse does not hold (see `OverlappingSendsClearLoadingEarly`).
  */
  predicate Valid(s: SessionState) {
    s.isLoading ==> |s.pending| > 0
  }

  // ---------------------------------------------------------------------------
  // Message texts

  const GreetingText := "Hello! I'm your wine assistant. How can I help you with this wine today?"
  const IntroTail := ". This is an excellent choice! Would you like to know more about its characteristics or find the perfect food pairing?"
  const CartTail := " to your cart. Would you like me to suggest wines for your next course?"

  function IntroText(p: Product): (r: string)
    ensures Contains(r, p.name)
  {
    var pieces := ["I see you're interested in ", p.name,
                   IntroTail];
    ConcatContainsEach(pieces, 1);
    Concat(pieces)
  }

  function CartText(p: Product): (r: string)
    ensures Contains(r, p.name)
  {
    var pieces := ["Great choice! I've added ", p.name,
                   CartTail];
    ConcatContainsEach(pieces, 1);
    Concat(pieces)
  }

  /** The assistant's answer to a scheduled reply, delivered at time `now`. */
  function ReplyMessage(p: PendingReply, now: nat): (m: Message)
    ensures m.sender == Assistant && m.id == NatToString(now + 1)
    ensures m.text == Assistant.GetAIResponse(p.product, p.recommendations, p.userText)
    ensures Contains(m.text, p.product.name)
  {
    Message(NatToString(now + 1), Assistant.GetAIResponse(p.product, p.recommendations, p.userText), Assistant, now, None, None)
  }

  // ---------------------------------------------------------------------------
  // Transitions

  /**
    `handleSendMessage(text)`: the user's message is appended, the loading
    flag is set, and a reply is scheduled against the product and the
    recommendations on screen now.
  */
  function AfterSend(s: SessionState, text: string, now: nat): (r: SessionState)
    ensures |r.messages| == |s.messages| + 1 && IsPrefix(s.messages, r.messages)
    ensures var m := r.messages[|s.messages|];
            m.text == text && m.sender == User && m.id == NatToString(now) && m.timestamp == now
    ensures r.isLoading
    ensures r.pending == s.pending + [PendingReply(text, s.currentProduct, CurrentRecommendations(s))]
    ensures r.catalog == s.catalog && r.currentProduct == s.currentProduct && r.isChatExpanded == s.isChatExpanded
  {
    var m := Message(NatToString(now), text, User, now, None, None);
    var snapshot := PendingReply(text, s.currentProduct, CurrentRecommendations(s));
    SessionState(s.catalog, s.currentProduct, s.messages + [m], s.isChatExpanded, true, s.pending + [snapshot])
  }

  /**
    The timer callback: the oldest scheduled reply is appended to whatever
    log exists now, and the loading flag is cleared, whatever else is still
    scheduled. Nothing happens when nothing is scheduled.
  */
  function AfterResolve(s: SessionState, now: nat): (r: SessionState)
    ensures s.pending == [] ==> r == s
    ensures s.pending != [] ==>
              |r.messages| == |s.messages| + 1 && IsPrefix(s.messages, r.messages) &&
              r.messages[|s.messages|] == ReplyMessage(s.pending[0], now) &&
              !r.isLoading && r.pending == s.pending[1..]
    ensures r.catalog == s.catalog && r.currentProduct == s.currentProduct && r.isChatExpanded == s.isChatExpanded
  {
    if s.pending == [] then s
    else
      SessionState(s.catalog, s.currentProduct, s.messages + [ReplyMessage(s.pending[0], now)], s.isChatExpanded, false, s.pending[1..])
  }

  /** `handleToggleChat`. */
  function AfterToggle(s: SessionState): (r: SessionState)
    ensures r.isChatExpanded == !s.isChatExpanded
    ensures r == s.(isChatExpanded := r.isChatExpanded)
  {
    SessionState(s.catalog, s.currentProduct, s.messages, !s.isChatExpanded, s.isLoading, s.pending)
  }

  /** `handleOpenChat`. */
  function AfterOpen(s: SessionState): (r: SessionState)
    ensures r.isChatExpanded && r == s.(isChatExpanded := true)
  {
    SessionState(s.catalog, s.currentProduct, s.messages, true, s.isLoading, s.pending)
  }

  /** `handleViewProductDetails`. */
  function AfterViewDetails(s: SessionState): (r: SessionState)
    ensures !r.isChatExpanded && r == s.(isChatExpanded := false)
  {
    SessionState(s.catalog, s.currentProduct, s.messages, false, s.isLoading, s.pending)
  }

  /** `handleAddToCart`: a confirmation naming the product, and the chat opens. */
  function AfterAddToCart(s: SessionState, now: nat): (r: SessionState)
    ensures |r.messages| == |s.messages| + 1 && IsPrefix(s.messages, r.messages)
    ensures var m := r.messages[|s.messages|];
            m.sender == Assistant && Contains(m.text, s.currentProduct.name) && m.id == NatToString(now)
    ensures r.isChatExpanded
    ensures r.catalog == s.catalog && r.currentProduct == s.currentProduct
    ensures r.isLoading == s.isLoading && r.pending == s.pending
  {
    var m := Message(NatToString(now), CartText(s.currentProduct), Assistant, now, None, None);
    SessionState(s.catalog, s.currentProduct, s.messages + [m], true, s.isLoading, s.pending)
  }

  /**
    The chat context opened for a newly selected product: a greeting and an
    introduction of the product, ids "1" and "2", dated 30 and 10 seconds
    before `now`.
  */
  function FreshLog(product: Product, now: nat): (log: seq<Message>)
    ensures |log| == 2
    ensures log[0].id == "1" && log[1].id == "2"
    ensures log[0].sender == Assistant && log[1].sender == Assistant
    ensures log[0].text == GreetingText
    ensures log[0].timestamp == now - 30000 && log[1].timestamp == now - 10000
    ensures log[0].timestamp < log[1].timestamp < now
    ensures Contains(log[1].text, product.name)
  {
    var intro := IntroText(product);
    [Message("1", GreetingText, Assistant, now - 30000, None, None),
     Message("2", intro, Assistant, now - 10000, None, None)]
  }

  /**
    `handleProductSelect(product)`: the product is shown, the log is replaced
    by the fresh context, and the chat closes. Replies already scheduled stay
    scheduled.
  */
  function AfterProductSelect(s: SessionState, product: Product, now: nat): (r: SessionState)
    ensures r.currentProduct == product && !r.isChatExpanded
    ensures r.messages == FreshLog(product, now)
    ensures r.catalog == s.catalog && r.isLoading == s.isLoading && r.pending == s.pending
  {
    SessionState(s.catalog, product, FreshLog(product, now), false, s.isLoading, s.pending)
  }

  // ---------------------------------------------------------------------------
  // Runs

  /** The events the screen and the timers deliver to the controller. */
  datatype Event =
    | Send(text: string)
    | QuickReplyTap(reply: QuickReply)
    | Resolve
    | Toggle
    | Open
    | ViewDetails
    | AddToCart
    | SelectProduct(product: Product)

  /** An event and the clock reading when it happens. */
  datatype Input = Input(event: Event, now: nat)

  function Step(s: SessionState, input: Input): SessionState {
    match input.event
    case Send(text) => AfterSend(s, text, input.now)
    case QuickReplyTap(reply) => AfterSend(s, reply.text, input.now)
    case Resolve => AfterResolve(s, input.now)
    case Toggle => AfterToggle(s)
    case Open => AfterOpen(s)
    case ViewDetails => AfterViewDetails(s)
    case AddToCart => AfterAddToCart(s, input.now)
    case SelectProduct(product) => AfterProductSelect(s, product, input.now)
  }

  function Run(s: SessionState, inputs: seq<Input>): SessionState
    decreases |inputs|
  {
    if inputs == [] then s else Run(Step(s, inputs[0]), inputs[1..])
  }

  predicate NoSelect(inputs: seq<Input>) {
    forall i :: 0 <= i < |inputs| ==> !inputs[i].event.SelectProduct?
  }

  // ---------------------------------------------------------------------------
  // Properties of the controller

  lemma InitialStateValid(loadTime: int)
    ensures var s := InitialState(loadTime);
            Valid(s) && !s.isLoading && !s.isChatExpanded && s.pending == [] &&
            s.currentProduct == Catalog.MockProduct && |s.messages| == 5
  {
  }

  /** Every transition keeps the invariant. */
  lemma StepPreservesValid(s: SessionState, input: Input)
    requires Valid(s)
    ensures Valid(Step(s, input))
  {
  }

  lemma {:induction false} RunPreservesValid(s: SessionState, inputs: seq<Input>)
    requires Valid(s)
    ensures Valid(Run(s, inputs))
    decreases |inputs|
  {
    if inputs != [] {
      StepPreservesValid(s, inputs[0]);
      RunPreservesValid(Step(s, inputs[0]), inputs[1..]);
    }
  }

  /**
    Until a product is selected the log only grows: every earlier message
    stays where it was, and the product on screen stays the same.
  */
  lemma {:induction false} RunWithoutSelectExtendsLog(s: SessionState, inputs: seq<Input>)
    requires NoSelect(inputs)
    ensures IsPrefix(s.messages, Run(s, inputs).messages)
    ensures Run(s, inputs).currentProduct == s.currentProduct
    decreases |inputs|
  {
    if inputs != [] {
      var t := Step(s, inputs[0]);
      assert IsPrefix(s.messages, t.messages) && t.currentProduct == s.currentProduct by {
        assert !inputs[0].event.SelectProduct?;
      }
      assert NoSelect(inputs[1..]) by {
        forall i | 0 <= i < |inputs| - 1 ensures !inputs[1..][i].event.SelectProduct? {
          assert inputs[1..][i] == inputs[i + 1];
        }
      }
      RunWithoutSelectExtendsLog(t, inputs[1..]);
      var u := Run(t, inputs[1..]);
      assert u.messages[..|s.messages|] == u.messages[..|t.messages|][..|s.messages|];
    }
  }

  /**
    A send followed by its reply adds exactly the user's message and the
    answer computed for the product shown when it was sent, and the loading
    indicator is off afterwards.
  */
  lemma SendThenResolve(s: SessionState, text: string, sentAt: nat, repliedAt: nat)
    requires s.pending == []
    ensures var r := AfterResolve(AfterSend(s, text, sentAt), repliedAt);
            var recs := CurrentRecommendations(s);
            |r.messages| == |s.messages| + 2 && IsPrefix(s.messages, r.messages) &&
            r.messages[|s.messages|].sender == User && r.messages[|s.messages|].text == text &&
            r.messages[|s.messages| + 1].sender == Assistant &&
            r.messages[|s.messages| + 1].text == Assistant.GetAIResponse(s.currentProduct, recs, text) &&
            !r.isLoading && r.pending == [] &&
            r.currentProduct == s.currentProduct && r.isChatExpanded == s.isChatExpanded
  {
    var t := AfterSend(s, text, sentAt);
    assert t.pending == [PendingReply(text, s.currentProduct, CurrentRecommendations(s))];
    var r := AfterResolve(t, repliedAt);
    assert r.messages[|s.messages| + 1] == ReplyMessage(t.pending[0], repliedAt);
    assert r.messages[..|s.messages|] == t.messages[..|s.messages|];
  }

  /**
    Two messages sent before either reply arrives: the first reply switches
    the loading indicator off although the second reply is still on its way.
  */
  lemma OverlappingSendsClearLoadingEarly(s: SessionState, first: string, second: string, t1: nat, t2: nat, t3: nat)
    ensures var r := AfterResolve(AfterSend(AfterSend(s, first, t1), second, t2), t3);
            !r.isLoading && |r.pending| == |s.pending| + 1 && r.pending[|s.pending|].userText == second
  {
  }

  /** Replies arrive in the order their messages were sent. */
  lemma RepliesFollowSendOrder(s: SessionState, first: string, second: string, t1: nat, t2: nat, t3: nat, t4: nat)
    requires s.pending == []
    ensures var r := AfterResolve(AfterResolve(AfterSend(AfterSend(s, first, t1), second, t2), t3), t4);
            var p := PendingReply(first, s.currentProduct, CurrentRecommendations(s));
            var q := PendingReply(second, s.currentProduct, CurrentRecommendations(s));
            |r.messages| == |s.messages| + 4 &&
            r.messages[|s.messages| + 2] == ReplyMessage(p, t3) &&
            r.messages[|s.messages| + 3] == ReplyMessage(q, t4) &&
            r.pending == [] && !r.isLoading
  {
    var a := AfterSend(AfterSend(s, first, t1), second, t2);
    assert a.pending == [PendingReply(first, s.currentProduct, CurrentRecommendations(s)),
                         PendingReply(second, s.currentProduct, CurrentRecommendations(s))];
    var b := AfterResolve(a, t3);
    var c := AfterResolve(b, t4);
    assert c.messages[|s.messages| + 2] == b.messages[|s.messages| + 2];
  }

  /**
    A reply scheduled before a product change arrives after it: it lands in
    the new product's fresh log, yet it answers about the product that was
    on screen when the message was sent.
  */
  lemma StaleReplyAfterSelect(s: SessionState, text: string, product: Product, t1: nat, t2: nat, t3: nat)
    requires s.pending == []
    ensures var r := AfterResolve(AfterProductSelect(AfterSend(s, text, t1), product, t2), t3);
            r.currentProduct == product && |r.messages| == 3 &&
            r.messages[2].text == Assistant.GetAIResponse(s.currentProduct, CurrentRecommendations(s), text) &&
            Contains(r.messages[2].text, s.currentProduct.name)
  {
  }

  /**
    Message ids are clock readings, so they are not unique: a confirmation
    added in the same millisecond as a user's message carries the same id,
    and so does a reply delivered one millisecond before a new message is sent.
  */
  lemma IdsCanCollide(s: SessionState, text: string, now: nat)
    ensures var r := AfterAddToCart(AfterSend(s, text, now), now);
            r.messages[|s.messages|].id == r.messages[|s.messages| + 1].id
    ensures s.pending != [] ==>
              var r := AfterSend(AfterResolve(s, now), text, now + 1);
              r.messages[|s.messages|].id == r.messages[|s.messages| + 1].id
  {
  }

  /** Toggling twice restores the flag and the whole state. */
  lemma ToggleInvolution(s: SessionState)
    ensures AfterToggle(AfterToggle(s)) == s
  {
  }

  /** Opening and closing the chat panel are idempotent. */
  lemma OpenAndViewDetailsIdempotent(s: SessionState)
    ensures AfterOpen(AfterOpen(s)) == AfterOpen(s)
    ensures AfterViewDetails(AfterViewDetails(s)) == AfterViewDetails(s)
  {
  }

  /** A quick reply is exactly a send of its text. */
  lemma QuickReplyIsSend(s: SessionState, reply: QuickReply, now: nat)
    ensures Step(s, Input(QuickReplyTap(reply), now)) == Step(s, Input(Send(reply.text), now))
  {
  }

  /** No transition changes the catalog the recommendations are drawn from. */
  lemma {:induction false} RunKeepsCatalog(s: SessionState, inputs: seq<Input>)
    ensures Run(s, inputs).catalog == s.catalog
    decreases |inputs|
  {
    if inputs != [] {
      assert Step(s, inputs[0]).catalog == s.catalog;
      RunKeepsCatalog(Step(s, inputs[0]), inputs[1..]);
    }
  }

  /** Every product selected during `inputs` is a member of `catalog`. */
  predicate SelectsFrom(inputs: seq<Input>, catalog: seq<Product>) {
    forall i :: 0 <= i < |inputs| && inputs[i].event.SelectProduct? ==> inputs[i].event.product in catalog
  }

  /**
    Every product selected during `inputs`, run from `s`, is one of the
    recommendations on screen at that moment: the only products the detail
    screen offers for selection.
  */
  predicate SelectsShown(s: SessionState, inputs: seq<Input>)
    decreases |inputs|
  {
    inputs == [] ||
    ((inputs[0].event.SelectProduct? ==> inputs[0].event.product in CurrentRecommendations(s)) &&
     SelectsShown(Step(s, inputs[0]), inputs[1..]))
  }

  /** When products are selected from the catalog, the product on screen stays a catalog product. */
  lemma {:induction false} RunKeepsCurrentInCatalog(s: SessionState, inputs: seq<Input>)
    requires s.currentProduct in s.catalog && SelectsFrom(inputs, s.catalog)
    ensures Run(s, inputs).currentProduct in Run(s, inputs).catalog
    decreases |inputs|
  {
    if inputs != [] {
      var t := Step(s, inputs[0]);
      assert t.catalog == s.catalog;
      assert t.currentProduct in t.catalog by {
        if inputs[0].event.SelectProduct? {
          assert inputs[0].event.product in s.catalog;
        }
      }
      assert SelectsFrom(inputs[1..], t.catalog) by {
        forall i | 0 <= i < |inputs| - 1 && inputs[1..][i].event.SelectProduct?
          ensures inputs[1..][i].event.product in t.catalog
        {
          assert inputs[1..][i] == inputs[i + 1];
        }
      }
      RunKeepsCurrentInCatalog(t, inputs[1..]);
    }
  }

  /** Selecting only recommendations that are on screen is selecting from the catalog. */
  lemma {:induction false} SelectsShownFromCatalog(s: SessionState, inputs: seq<Input>)
    requires SelectsShown(s, inputs)
    ensures SelectsFrom(inputs, s.catalog)
    decreases |inputs|
  {
    if inputs != [] {
      var t := Step(s, inputs[0]);
      assert t.catalog == s.catalog;
      assert SelectsShown(t, inputs[1..]);
      SelectsShownFromCatalog(t, inputs[1..]);
      var first := inputs[0].event;
      assert first.SelectProduct? ==> first.product in s.catalog by {
        if first.SelectProduct? {
          assert first.product in CurrentRecommendations(s);
        }
      }
      forall i | 1 <= i < |inputs| && inputs[i].event.SelectProduct?
        ensures inputs[i].event.product in s.catalog
      {
        assert inputs[i] == inputs[1..][i - 1];
      }
    }
  }

  /**
    From the start screen, whatever the user does through the detail
    screen's recommendation cards, the product on screen is a catalog product.
  */
  lemma ShownProductAlwaysInCatalog(loadTime: int, inputs: seq<Input>)
    requires SelectsShown(InitialState(loadTime), inputs)
    ensures var r := Run(InitialState(loadTime), inputs);
            r.currentProduct in r.catalog && r.catalog == Assistant.AllProducts
  {
    var s := InitialState(loadTime);
    SelectsShownFromCatalog(s, inputs);
    RunKeepsCurrentInCatalog(s, inputs);
    RunKeepsCatalog(s, inputs);
  }

  /** Choosing one of the recommendations shown switches to a catalog product other than the current one. */
  lemma SelectRecommendationStaysInCatalog(s: SessionState, i: nat, now: nat)
    requires i < |CurrentRecommendations(s)|
    ensures var r := AfterProductSelect(s, CurrentRecommendations(s)[i], now);
            r.currentProduct in r.catalog && r.currentProduct.id != s.currentProduct.id
  {
    var p := CurrentRecommendations(s)[i];
    assert p in CurrentRecommendations(s);
  }

  /**
    A message that asks for other options, sent with nothing else on its
    way, is answered by a reply naming every recommendation shown when it
    was sent.
  */
  lemma OtherOptionsRoundTrip(s: SessionState, text: string, t1: nat, t2: nat)
    requires s.pending == [] && Assistant.RuleFor(text) == Assistant.OtherOptionsRule
    ensures var r := AfterResolve(AfterSend(s, text, t1), t2);
            var reply := r.messages[|r.messages| - 1];
            |r.messages| == |s.messages| + 2 && reply.sender == Assistant &&
            forall p :: p in CurrentRecommendations(s) ==> Contains(reply.text, p.name)
  {
    var recs := CurrentRecommendations(s);
    SendThenResolve(s, text, t1, t2);
    var answer := Assistant.GetAIResponse(s.currentProduct, recs, text);
    assert answer == Assistant.OtherOptionsReply(s.currentProduct, recs);
    forall p | p in recs ensures Contains(answer, p.name) {
      var i :| 0 <= i < |recs| && recs[i] == p;
    }
  }

  /**
    On the initial screen, tapping the "Other options?" chip and receiving the
    reply names both recommendations shown beside the first product.
  */
  lemma OtherOptionsChipOnInitialScreen(loadTime: int, t1: nat, t2: nat)
    ensures var s := InitialState(loadTime);
            var r := AfterResolve(Step(s, Input(QuickReplyTap(Catalog.QuickReplies[2]), t1)), t2);
            var reply := r.messages[|r.messages| - 1];
            |r.messages| == 7 && reply.sender == Assistant &&
            Contains(reply.text, "Penfolds Grange 2018") && Contains(reply.text, "Opus One 2018")
  {
    var s := InitialState(loadTime);
    Assistant.InitialRecommendations();
    Assistant.OtherOptionsChipRule();
    assert CurrentRecommendations(s) == [Catalog.PenfoldsGrange, Catalog.OpusOne];
    OtherOptionsRoundTrip(s, "Other options?", t1, t2);
  }

  // ---------------------------------------------------------------------------
  // The controller object

  class Session {
    var catalog: seq<Product>
    var currentProduct: Product
    var messages: seq<Message>
    var isChatExpanded: bool
    var isLoading: bool
    var pending: seq<PendingReply>

    function State(): SessionState
      reads this
    {
      SessionState(catalog, currentProduct, messages, isChatExpanded, isLoading, pending)
    }

    constructor (loadTime: int)
      ensures State() == InitialState(loadTime) && Valid(State())
    {
      catalog := Assistant.AllProducts;
      currentProduct := Catalog.MockProduct;
      messages := Catalog.MockMessages(loadTime);
      isChatExpanded := false;
      isLoading := false;
      pending := [];
    }

    method HandleSendMessage(text: string, now: nat)
      modifies this
      ensures State() == AfterSend(old(State()), text, now)
      ensures Valid(old(State())) ==> Valid(State())
    {
      var m := Message(NatToString(now), text, User, now, None, None);
      messages := messages + [m];
      isLoading := true;
      pending := pending + [PendingReply(text, currentProduct, CurrentRecommendations(State()))];
    }

    /** The callback of the oldest timer still running. */
    method ResolveNext(now: nat)
      modifies this
      ensures State() == AfterResolve(old(State()), now)
      ensures Valid(old(State())) ==> Valid(State())
    {
      if pending != [] {
        messages := messages + [ReplyMessage(pending[0], now)];
        isLoading := false;
        pending := pending[1..];
      }
    }

    method HandleQuickReply(reply: QuickReply, now: nat)
      modifies this
      ensures State() == AfterSend(old(State()), reply.text, now)
      ensures Valid(old(State())) ==> Valid(State())
    {
      HandleSendMessage(reply.text, now);
    }

    method HandleToggleChat()
      modifies this
      ensures State() == AfterToggle(old(State()))
      ensures Valid(old(State())) ==> Valid(State())
    {
      isChatExpanded := !isChatExpanded;
    }

    method HandleViewProductDetails()
      modifies this
      ensures State() == AfterViewDetails(old(State()))
      ensures Valid(old(State())) ==> Valid(State())
    {
      isChatExpanded := false;
    }

    method HandleOpenChat()
      modifies this
      ensures State() == AfterOpen(old(State()))
      ensures Valid(old(State())) ==> Valid(State())
    {
      isChatExpanded := true;
    }

    method HandleAddToCart(now: nat)
      modifies this
      ensures State() == AfterAddToCart(old(State()), now)
      ensures Valid(old(State())) ==> Valid(State())
    {
      messages := messages + [Message(NatToString(now), CartText(currentProduct), Assistant, now, None, None)];
      isChatExpanded := true;
    }

    method HandleProductSelect(product: Product, now: nat)
      modifies this
      ensures State() == AfterProductSelect(old(State()), product, now)
      ensures Valid(old(State())) ==> Valid(State())
    {
      var log := FreshLog(product, now);
      currentProduct := product;
      messages := log;
      isChatExpanded := false;
    }
  }
}
