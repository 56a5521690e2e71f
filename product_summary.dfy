/** The bot message `handleProductRecommendations` writes for the products a
    reply recommends: a heading line, one bullet line per product with its
    name, price and stock, an empty line and a closing question. The price is
    held in cents and printed the way JavaScript prints a number with at most
    two decimals: no trailing zeros and no point for a whole amount. */
module ProductSummary {
  import opened Wrappers
  import opened Text
  import opened ChatApi
  import opened MessageFormat

  /** The decimals of a price, without trailing zeros. */
  function FractionText(cents: nat): string
    requires cents < 100
  {
    if cents == 0 then ""
    else if cents % 10 == 0 then "." + [DigitChar(cents / 10)]
    else "." + [DigitChar(cents / 10), DigitChar(cents % 10)]
  }

  /** `${product.price}` for a price of `cents` hundredths. */
  function PriceText(cents: nat): string {
    DecimalText(cents / 100) + FractionText(cents % 100)
  }

  predicate AllDigits(s: string) {
    forall i :: 0 <= i < |s| ==> IsDigit(s[i])
  }

  /** Reads a printed price back as cents: digits, optionally followed by a
      point and one or two digits. */
  function ReadPrice(t: string): Option<nat> {
    ReadPieces(Split(t, '.'))
  }

  /** The reading of the pieces of a price between its points. */
  function ReadPieces(parts: seq<string>): Option<nat>
    requires |parts| >= 1
  {
    if parts[0] == "" || !AllDigits(parts[0]) then None
    else if |parts| == 1 then Some(100 * DecimalValue(parts[0]))
    else if |parts| == 2 && AllDigits(parts[1]) && 1 <= |parts[1]| <= 2 then
      var decimals := if |parts[1]| == 1 then 10 * DecimalValue(parts[1]) else DecimalValue(parts[1]);
      Some(100 * DecimalValue(parts[0]) + decimals)
    else None
  }

  lemma DigitCharValue(d: nat)
    requires d < 10
    ensures IsDigit(DigitChar(d)) && DigitValue(DigitChar(d)) == d
  {
  }

  lemma DecimalValueOfDigits(a: nat, b: nat)
    requires a < 10 && b < 10
    ensures DecimalValue([DigitChar(a)]) == a
    ensures DecimalValue([DigitChar(a), DigitChar(b)]) == 10 * a + b
  {
    DigitCharValue(a);
    DigitCharValue(b);
    assert [DigitChar(a), DigitChar(b)][..1] == [DigitChar(a)];
    assert [DigitChar(a)][..0] == [];
  }

  /** A printed price reads back as the price: the text shows the exact
      amount. */
  lemma {:induction false} PriceTextRoundTrip(cents: nat)
    ensures ReadPrice(PriceText(cents)) == Some(cents)
  {
    var whole, frac := cents / 100, cents % 100;
    var w := DecimalText(whole);
    assert forall i :: 0 <= i < |w| ==> w[i] != '.';
    SplitWithoutSeparator(w, '.');
    DecimalRoundTrip(whole);
    if frac == 0 {
      assert PriceText(cents) == w;
    } else {
      FractionRoundTrip(w, whole, frac);
      assert PriceText(cents) == w + FractionText(frac);
    }
  }

  /** The decimals after the point read back as the hundredths they print. */
  lemma FractionRoundTrip(w: string, whole: nat, frac: nat)
    requires 0 < frac < 100
    requires w == DecimalText(whole) && '.' !in w && DecimalValue(w) == whole
    ensures ReadPrice(w + FractionText(frac)) == Some(100 * whole + frac)
  {
    DigitCharValue(frac / 10);
    DigitCharValue(frac % 10);
    DecimalValueOfDigits(frac / 10, frac % 10);
    var digits := if frac % 10 == 0 then [DigitChar(frac / 10)] else [DigitChar(frac / 10), DigitChar(frac % 10)];
    assert FractionText(frac) == ['.'] + digits;
    var t := w + FractionText(frac);
    assert t == w + ['.'] + digits;
    SplitAtPoint(w, digits);
    ReadDecimals(w, digits);
  }

  /** A string with one point splits into the texts on either side of it. */
  lemma SplitAtPoint(w: string, d: string)
    requires '.' !in w && '.' !in d
    ensures Split(w + ['.'] + d, '.') == [w, d]
  {
    SplitWithoutSeparator(w, '.');
    SplitWithoutSeparator(d, '.');
    SplitAround(w, '.', d);
  }

  /** Digits and one or two decimals read as whole units and tenths or
      hundredths. */
  lemma ReadDecimals(w: string, d: string)
    requires w != "" && AllDigits(w)
    requires 1 <= |d| <= 2 && AllDigits(d)
    ensures ReadPieces([w, d]) ==
      Some(100 * DecimalValue(w) + (if |d| == 1 then 10 * DecimalValue(d) else DecimalValue(d)))
  {
  }

  function StockText(inStock: bool): string {
    if inStock then "In Stock" else "Out of Stock"
  }

  /** What a product's list item reads after the bullet. */
  function ProductDetails(p: Product): string {
    p.name + " - $" + PriceText(p.priceCents) + " (" + StockText(p.inStock) + ")"
  }

  /** One line of the summary: `• name - $price (In Stock|Out of Stock)`. */
  function ProductLine(p: Product): string {
    "\U{2022} " + ProductDetails(p)
  }

  function ProductLines(products: seq<Product>): (lines: seq<string>)
    ensures |lines| == |products|
  {
    seq(|products|, i requires 0 <= i < |products| => ProductLine(products[i]))
  }

  const SummaryHeading := "Here are some products you might like:"
  // Written in two parts: the verifier reads the characters of a long
  // literal only up to a bounded length.
  const SummaryQuestion := "Would you like more details " + "about any of these?"

  /** The text of the recommendation message. */
  function SummaryText(products: seq<Product>): string {
    SummaryHeading + "\n" + Join(ProductLines(products), '\n') + "\n\n" + SummaryQuestion
  }

  /** The four replies offered after a recommendation. */
  const ProductQuestions: seq<string> :=
    ["Show me more details", "Similar products", "Price range options", "Check availability"]

  // The layout of the recommendation message.

  lemma NoNewlineInPrice(cents: nat)
    ensures '\n' !in PriceText(cents)
  {
    var w := DecimalText(cents / 100);
    assert forall i :: 0 <= i < |w| ==> w[i] != '\n';
  }

  lemma ProductLineShape(p: Product)
    requires '\n' !in p.name
    ensures var line := ProductLine(p);
      '\n' !in line && |line| >= 2 && line[0] == '\U{2022}' && line[1] == ' ' &&
      line[|line| - 1] == ')'
  {
    NoNewlineInPrice(p.priceCents);
    var stock := StockText(p.inStock);
    assert '\n' !in stock;
    var front := p.name + " - $" + PriceText(p.priceCents) + " (" + stock;
    assert '\n' !in front;
    var details := front + ")";
    assert details == ProductDetails(p);
    assert details[|details| - 1] == ')';
    var line := "\U{2022} " + details;
    assert line[|line| - 1] == details[|details| - 1];
  }

  /** A product line is a bullet whose text is the product's details. */
  lemma ProductLineIsItem(p: Product)
    requires '\n' !in p.name
    ensures IsListItem(ProductLine(p))
    ensures ItemText(ProductLine(p)) == TrimStart(ProductDetails(p))
  {
    var line := ProductLine(p);
    ProductLineShape(p);
    TrimUnchanged(line);
    assert line[1..] == [' '] + ProductDetails(p);
    assert line[1..][1..] == ProductDetails(p);
  }

  /** A line that starts with a letter is a paragraph wherever it stands. */
  lemma WordLineIsParagraph(line: string, index: nat, count: nat)
    requires |line| > 0 && 'A' <= line[0] <= 'Z'
    ensures LineToken(line, index, count) == Other(Some(Paragraph(line)))
  {
    assert TrimStart(line) == line;
    TrimEndShape(line);
    TrimEnds(line);
    assert Trim(line)[0] == line[0];
  }

  /** The lines of a heading, a joined block and a closing line set off by
      an empty line. */
  lemma SplitFramed(heading: string, body: string, closing: string)
    requires '\n' !in heading && '\n' !in closing
    ensures Split(heading + "\n" + body + "\n\n" + closing, '\n') ==
      [heading] + Split(body, '\n') + ["", closing]
  {
    var tail := [] + ['\n'] + closing;
    assert heading + "\n" + body + "\n\n" + closing == heading + ['\n'] + (body + ['\n'] + tail);
    SplitWithoutSeparator(heading, '\n');
    SplitWithoutSeparator(closing, '\n');
    SplitAround(heading, '\n', body + ['\n'] + tail);
    SplitAround(body, '\n', tail);
    SplitAround([], '\n', closing);
  }

  lemma FixedLinesUnbroken()
    ensures '\n' !in SummaryHeading && '\n' !in SummaryQuestion
  {
  }

  lemma ProductLinesUnbroken(products: seq<Product>)
    requires forall i :: 0 <= i < |products| ==> '\n' !in products[i].name
    ensures forall i :: 0 <= i < |products| ==> '\n' !in ProductLines(products)[i]
  {
    forall i | 0 <= i < |products|
      ensures '\n' !in ProductLines(products)[i]
    {
      ProductLineShape(products[i]);
    }
  }

  /** The lines of the recommendation message. */
  lemma SummaryLines(products: seq<Product>)
    requires |products| > 0
    requires forall i :: 0 <= i < |products| ==> '\n' !in products[i].name
    ensures Split(SummaryText(products), '\n') == [SummaryHeading] + ProductLines(products) + ["", SummaryQuestion]
  {
    var lines := ProductLines(products);
    ProductLinesUnbroken(products);
    SplitJoin(lines, '\n');
    FixedLinesUnbroken();
    SplitFramed(SummaryHeading, Join(lines, '\n'), SummaryQuestion);
  }

  /** The items of the message's list, one per product. */
  function SummaryItems(products: seq<Product>): (items: seq<string>)
    ensures |items| == |products|
  {
    seq(|products|, i requires 0 <= i < |products| => TrimStart(ProductDetails(products[i])))
  }

  /** The tokens of the recommendation message's lines. */
  lemma SummaryTokens(lines: seq<string>, products: seq<Product>)
    requires |products| > 0
    requires forall i :: 0 <= i < |products| ==> '\n' !in products[i].name
    requires |lines| == |products| + 3 && lines[0] == SummaryHeading
    requires lines[|products| + 1] == "" && lines[|products| + 2] == SummaryQuestion
    requires forall k :: 1 <= k <= |products| ==> lines[k] == ProductLine(products[k - 1])
    ensures FramedTokens(Tokens(lines), SummaryHeading, SummaryItems(products), SummaryQuestion)
  {
    SummaryEdgeTokens(lines, |products|);
    SummaryItemTokens(lines, products);
  }

  lemma FramedLines(lines: seq<string>, heading: string, body: seq<string>, closing: string)
    requires lines == [heading] + body + ["", closing]
    ensures |lines| == |body| + 3 && lines[0] == heading && lines[|body| + 1] == ""
    ensures lines[|body| + 2] == closing
    ensures forall k :: 1 <= k <= |body| ==> lines[k] == body[k - 1]
  {
  }

  lemma SummaryEdgeTokens(lines: seq<string>, n: nat)
    requires |lines| == n + 3 && lines[0] == SummaryHeading && lines[n + 1] == "" && lines[n + 2] == SummaryQuestion
    ensures Tokens(lines)[0] == Other(Some(Paragraph(SummaryHeading)))
    ensures Tokens(lines)[n + 1] == Other(Some(LineBreak))
    ensures Tokens(lines)[n + 2] == Other(Some(Paragraph(SummaryQuestion)))
  {
    TokenAt(lines, 0);
    TokenAt(lines, n + 1);
    TokenAt(lines, n + 2);
    WordLineIsParagraph(SummaryHeading, 0, n + 3);
    WordLineIsParagraph(SummaryQuestion, n + 2, n + 3);
  }

  lemma SummaryItemTokens(lines: seq<string>, products: seq<Product>)
    requires |lines| == |products| + 3
    requires forall i :: 0 <= i < |products| ==> '\n' !in products[i].name
    requires forall k :: 1 <= k <= |products| ==> lines[k] == ProductLine(products[k - 1])
    ensures forall k :: 0 <= k < |products| ==> Tokens(lines)[1 + k] == Item(SummaryItems(products)[k])
  {
    forall k | 0 <= k < |products|
      ensures Tokens(lines)[1 + k] == Item(SummaryItems(products)[k])
    {
      TokenAt(lines, 1 + k);
      ProductLineIsItem(products[k]);
    }
  }

  /** The recommendation message is shown as its heading, one bulleted list
      holding one item per product in order, a line break and the closing
      question. */
  lemma SummaryLayout(products: seq<Product>)
    requires |products| > 0
    requires forall i :: 0 <= i < |products| ==> '\n' !in products[i].name
    ensures Render(SummaryText(products)) ==
      Blocks([Paragraph(SummaryHeading), BulletList(SummaryItems(products)), LineBreak, Paragraph(SummaryQuestion)])
  {
    SummaryTextTokens(products);
    FramedGroup(Tokens(Split(SummaryText(products), '\n')), SummaryHeading, SummaryItems(products), SummaryQuestion);
  }

  /** The tokens of the recommendation message's text. */
  lemma SummaryTextTokens(products: seq<Product>)
    requires |products| > 0
    requires forall i :: 0 <= i < |products| ==> '\n' !in products[i].name
    ensures FramedTokens(Tokens(Split(SummaryText(products), '\n')), SummaryHeading, SummaryItems(products), SummaryQuestion)
  {
    var lines, body := Split(SummaryText(products), '\n'), ProductLines(products);
    SummaryLines(products);
    FramedLines(lines, SummaryHeading, body, SummaryQuestion);
    forall k | 1 <= k <= |products|
      ensures lines[k] == ProductLine(products[k - 1])
    {
      assert lines[k] == body[k - 1];
    }
    SummaryTokens(lines, products);
  }
}
