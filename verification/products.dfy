/** The product cards of `renderProducts`: the first six products of a
    successful fetch, each with its title cut to twenty characters. */
module Products {
  import opened Gateway

  /** A product record as the product endpoint delivers it. The price is kept
      as the text it is substituted as. */
  datatype Product = Product(title: string, price: string, imgUrl: string, productUrl: string, categoryId: string)

  /** The values substituted into one card. The shortened title fills both the
      image's alt text and the visible title. */
  datatype Card = Card(title: string, price: string, imgUrl: string, productUrl: string, categoryId: string)

  /** The content of the products container: the cards, or, after a failed
      fetch, whatever it held before (the failure is only logged). */
  datatype ProductsView = Cards(cards: seq<Card>) | Unchanged

  const MaxCards: nat := 6
  const MaxTitleLength: nat := 20
  const Ellipsis: string := "..."

  function Min(a: nat, b: nat): nat
  {
    if a <= b then a else b
  }

  /** The title as a card shows it. A title of at most twenty characters is
      kept; a longer one keeps its first twenty characters and gains an ellipsis. */
  function ShownTitle(title: string): (shown: string)
    ensures |shown| <= MaxTitleLength + |Ellipsis|
    ensures |title| <= MaxTitleLength ==> shown == title
    ensures |title| > MaxTitleLength ==>
      && |shown| == MaxTitleLength + |Ellipsis|
      && shown[..MaxTitleLength] == title[..MaxTitleLength]
      && shown[MaxTitleLength..] == Ellipsis
  {
    if |title| > MaxTitleLength then title[..MaxTitleLength] + Ellipsis else title
  }

  /** Shortening a shown title again changes nothing. */
  lemma ShownTitleIdempotent(title: string)
    ensures ShownTitle(ShownTitle(title)) == ShownTitle(title)
  {
  }

  /** The card filled in from one product. */
  function ToCard(p: Product): Card
  {
    Card(ShownTitle(p.title), p.price, p.imgUrl, p.productUrl, p.categoryId)
  }

  /** Cards for the first `n` products (all of them when there are fewer),
      in their original order. */
  function TakeCards(products: seq<Product>, n: nat): (cards: seq<Card>)
    ensures |cards| == Min(n, |products|)
    ensures forall i :: 0 <= i < |cards| ==> cards[i] == ToCard(products[i])
    decreases n
  {
    if n == 0 || |products| == 0 then []
    else [ToCard(products[0])] + TakeCards(products[1..], n - 1)
  }

  /** Products after the sixth never reach the page. */
  lemma CardsIgnoreTail(products: seq<Product>, rest: seq<Product>)
    requires |products| >= MaxCards
    ensures TakeCards(products + rest, MaxCards) == TakeCards(products, MaxCards)
  {
  }

  /** `renderProducts`: cards only when the fetch succeeded. */
  function RenderProducts(fetched: FetchResult<seq<Product>>): (view: ProductsView)
    ensures fetched.success <==> view.Cards?
    ensures fetched.success ==> |view.cards| == Min(MaxCards, |fetched.body|)
    ensures fetched.success ==> forall i :: 0 <= i < |view.cards| ==>
      view.cards[i].title == ShownTitle(fetched.body[i].title)
      && view.cards[i].price == fetched.body[i].price
      && view.cards[i].imgUrl == fetched.body[i].imgUrl
      && view.cards[i].productUrl == fetched.body[i].productUrl
      && view.cards[i].categoryId == fetched.body[i].categoryId
  {
    if fetched.success then Cards(TakeCards(fetched.body, MaxCards)) else Unchanged
  }
}
