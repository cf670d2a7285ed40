/**
 * The shared record types of the site (types.ts): chat messages,
 * portfolio items with their closed category set, journal articles and
 * the top-level view state.
 */
module Types {

  datatype Option<T> = None | Some(value: T)

  /** `ChatMessage.role` is `'user' | 'model'`. */
  datatype Role = User | Model

  function RoleName(r: Role): (s: string)
    ensures s == "user" || s == "model"
    ensures s == "user" <==> r == User
  {
    match r
    case User => "user"
    case Model => "model"
  }

  /** A transcript entry; the timestamp is milliseconds since the epoch. */
  datatype ChatMessage = ChatMessage(role: Role, text: string, timestamp: int)

  /** `Product.category`: one of four collection names. */
  datatype Category = LimitedEdition | FineArt | Wildlife | Landscapes

  /** The category as `${p.category}` renders it. */
  function CategoryName(c: Category): (name: string)
    ensures |name| > 0
  {
    match c
    case LimitedEdition => "Limited Edition"
    case FineArt => "Fine Art"
    case Wildlife => "Wildlife"
    case Landscapes => "Landscapes"
  }

  /** Distinct categories render as distinct names. */
  lemma CategoryNameInjective(c: Category, d: Category)
    requires CategoryName(c) == CategoryName(d)
    ensures c == d
  {
  }

  /** A portfolio photograph. The JavaScript `number` price is an integer here. */
  datatype Product = Product(
    id: string,
    name: string,
    tagline: string,
    description: string,
    longDescription: Option<string>,
    price: int,
    category: Category,
    imageUrl: string,
    gallery: Option<seq<string>>,
    features: seq<string>)

  /** A journal entry; its rich `content` is markup and is not modelled. */
  datatype JournalArticle = JournalArticle(
    id: int,
    title: string,
    date: string,
    excerpt: string,
    image: string)

  /** `ViewState`: exactly one of four variants. */
  datatype ViewState =
    | Home
    | ProductDetail(product: Product)
    | JournalEntry(article: JournalArticle)
    | Checkout
}
