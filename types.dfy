/**
  The records shared by the screen, the chat panel and the session controller:
  messages, quick replies and products, with the optional fields of the
  TypeScript interfaces written as `Option`.

  Numbers that the application keeps as JavaScript floating point are kept
  here as integers in a fixed unit: prices in cents, ratings and alcohol
  content in tenths. Timestamps are milliseconds since the epoch.
*/
module Types {

  datatype Option<+T> = None | Some(value: T)

  /** The two kinds of chat participant. */
  datatype Sender = User | Assistant

  datatype Message = Message(
    id: string,
    text: string,
    sender: Sender,
    timestamp: int,
    productReference: Option<string>,
    isTyping: Option<bool>)

  datatype QuickReply = QuickReply(id: string, text: string)

  /** One group of tasting notes, such as "Aroma" with its notes. */
  datatype TastingCategory = TastingCategory(category: string, notes: seq<string>)

  datatype Product = Product(
    id: string,
    name: string,
    winery: string,
    region: string,
    vintage: int,
    priceCents: nat,
    ratingTenths: int,
    reviewCount: nat,
    images: seq<string>,
    inStock: bool,
    stockCount: Option<nat>,
    description: string,
    tastingNotes: seq<TastingCategory>,
    pairings: seq<string>,
    expertReview: Option<string>,
    provenance: Option<string>,
    badges: Option<seq<string>>,
    varietal: string,
    alcoholTenths: int,
    bottleSize: string)

  /** What the chat panel is given to render. */
  datatype ChatState = ChatState(
    isExpanded: bool,
    messages: seq<Message>,
    isLoading: bool,
    error: Option<string>)
}
