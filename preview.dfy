/**
 * What the print preview shows for a document (App.tsx, the `#pdf-preview` tree and
 * `formatCurrency`). The preview is a pure function of the document: it is described
 * here as a `Page` value, leaving out layout and styling. Presence tests follow the
 * editor's truthiness tests, so an empty image handle or an empty text counts as absent.
 *
 * `Intl.NumberFormat('pt-BR', BRL)` is a parameter `format`; the footer's year is a parameter.
 */
module Preview {
  import opened Wrappers
  import opened QuoteTypes
  import opened Totals

  /** A nullable string as a JavaScript condition: `null` and "" are both false. */
  predicate Present(handle: Option<string>)
  {
    handle.Some? && handle.value != ""
  }

  /** formatCurrency: an absent value is shown as "", a present one as the formatter gives it. */
  function FormatCurrency(v: Option<real>, format: real -> string): (r: string)
    ensures v == None ==> r == ""
    ensures v != None ==> r == format(v.value)
  {
    match v
    case None => ""
    case Some(x) => format(x)
  }

  /** The header: the uploaded picture, the placeholder box, or the company text template. */
  datatype HeaderView =
    | HeaderPicture(src: string)
    | HeaderPlaceholder
    | HeaderTemplate(companyName: string, email: string, phone: string, logo: Option<string>)

  /** The footer: the uploaded picture, the placeholder box, or the copyright line. */
  datatype FooterView =
    | FooterPicture(src: string)
    | FooterPlaceholder
    | FooterTemplate(year: int, companyName: string)

  /** The background layer behind the page content. */
  datatype BackgroundLayer = BackgroundLayer(src: string, opacity: real)

  /** One printed item: its text and its formatted value. */
  datatype Line = Line(text: string, amount: string)

  /** One printed section block: an optional heading and its lines. */
  datatype Block = Block(heading: Option<string>, lines: seq<Line>)

  /** The whole printed page. */
  datatype Page = Page(
    background: Option<BackgroundLayer>,
    header: HeaderView,
    clientName: string,
    services: Option<Block>,
    observations: Option<Block>,
    details: Option<Block>,
    totalLine: Option<string>,
    footer: FooterView)

  /** The header chosen for the document. */
  function Header(d: QuoteData): (h: HeaderView)
    ensures h.HeaderPicture? <==> d.headerType == Image && Present(d.headerImage)
    ensures h.HeaderPlaceholder? <==> d.headerType == Image && !Present(d.headerImage)
    ensures h.HeaderTemplate? <==> d.headerType == Template
    ensures h.HeaderPicture? ==> d.headerImage == Some(h.src)
    ensures h.HeaderTemplate? ==>
      h.companyName == d.companyName && h.email == d.email && h.phone == d.phone &&
      (Present(d.companyLogo) <==> h.logo.Some?) && (h.logo.Some? ==> h.logo == d.companyLogo)
  {
    match d.headerType
    case Image => if Present(d.headerImage) then HeaderPicture(d.headerImage.value) else HeaderPlaceholder
    case Template =>
      HeaderTemplate(d.companyName, d.email, d.phone, if Present(d.companyLogo) then d.companyLogo else None)
  }

  /** The footer chosen for the document; `year` is the current year. */
  function Footer(d: QuoteData, year: int): (f: FooterView)
    ensures f.FooterPicture? <==> d.footerType == Image && Present(d.footerImage)
    ensures f.FooterPlaceholder? <==> d.footerType == Image && !Present(d.footerImage)
    ensures f.FooterTemplate? <==> d.footerType == Template
    ensures f.FooterPicture? ==> d.footerImage == Some(f.src)
    ensures f.FooterTemplate? ==> f.year == year && f.companyName == d.companyName
  {
    match d.footerType
    case Image => if Present(d.footerImage) then FooterPicture(d.footerImage.value) else FooterPlaceholder
    case Template => FooterTemplate(year, d.companyName)
  }

  /** The background layer, present exactly when a background image is set. */
  function Background(d: QuoteData): (b: Option<BackgroundLayer>)
    ensures b.Some? <==> Present(d.backgroundImage)
    ensures b.Some? ==> d.backgroundImage == Some(b.value.src) && b.value.opacity == d.backgroundOpacity
  {
    if Present(d.backgroundImage) then Some(BackgroundLayer(d.backgroundImage.value, d.backgroundOpacity)) else None
  }

  /** The items whose text is non-empty, in order: `item.text && <li>` renders nothing for "". */
  function Shown(items: seq<QuoteItem>): (r: seq<QuoteItem>)
    ensures |r| <= |items|
    ensures forall x :: x in r <==> x in items && x.text != ""
  {
    if items == [] then []
    else (if items[0].text != "" then [items[0]] else []) + Shown(items[1..])
  }

  /** The items whose text is empty: kept in the document, absent from the page. */
  function Suppressed(items: seq<QuoteItem>): (r: seq<QuoteItem>)
    ensures forall x :: x in r <==> x in items && x.text == ""
  {
    if items == [] then []
    else (if items[0].text == "" then [items[0]] else []) + Suppressed(items[1..])
  }

  /** The printed line of one item. */
  function LineOf(item: QuoteItem, format: real -> string): Line
  {
    Line(item.text, FormatCurrency(item.value, format))
  }

  /** A section block: drawn only for a non-empty list, with one line per shown item. */
  function SectionBlock(items: seq<QuoteItem>, heading: Option<string>, format: real -> string): (b: Option<Block>)
    ensures b.Some? <==> |items| > 0
    ensures b.Some? ==> b.value.heading == heading && |b.value.lines| == |Shown(items)|
    ensures b.Some? ==> forall i :: 0 <= i < |b.value.lines| ==>
      b.value.lines[i].text == Shown(items)[i].text && b.value.lines[i].text != "" &&
      b.value.lines[i].amount == FormatCurrency(Shown(items)[i].value, format)
  {
    if |items| == 0 then None
    else
      var shown := Shown(items);
      Some(Block(heading, seq(|shown|, i requires 0 <= i < |shown| => LineOf(shown[i], format))))
  }

  /** The TOTAL line, drawn only when the total is positive. */
  function TotalLine(d: QuoteData, format: real -> string): (t: Option<string>)
    ensures t.Some? <==> Total(d) > 0.0
    ensures t.Some? ==> t.value == format(Total(d))
  {
    var total := Total(d);
    if total > 0.0 then Some(FormatCurrency(Some(total), format)) else None
  }

  /** The page the preview shows for `d`. */
  function Render(d: QuoteData, year: int, format: real -> string): Page
  {
    Page(
      Background(d),
      Header(d),
      d.clientName,
      SectionBlock(d.services, None, format),
      SectionBlock(d.observations, Some("Observações:"), format),
      SectionBlock(d.details, None, format),
      TotalLine(d, format),
      Footer(d, year))
  }

  // ---------------------------------------------------------------------------
  // Properties of the preview

  /** An item with empty text is not printed, yet still counts toward the sum. */
  lemma {:induction false} SuppressedStillCount(items: seq<QuoteItem>)
    ensures Sum(items) == Sum(Shown(items)) + Sum(Suppressed(items))
  {
    if items != [] {
      SuppressedStillCount(items[1..]);
      var head := if items[0].text != "" then [items[0]] else [];
      var hidden := if items[0].text == "" then [items[0]] else [];
      SumAppend(head, Shown(items[1..]));
      SumAppend(hidden, Suppressed(items[1..]));
    }
  }

  /**
   * Filtering the shown items distributes over concatenation. With the contract of
   * `Shown` this fixes the result completely: every occurrence of an item with text
   * is printed once, in list order.
   */
  lemma {:induction false} ShownAppend(a: seq<QuoteItem>, b: seq<QuoteItem>)
    ensures Shown(a + b) == Shown(a) + Shown(b)
  {
    if a == [] {
      assert a + b == b;
    } else {
      assert (a + b)[1..] == a[1..] + b;
      ShownAppend(a[1..], b);
    }
  }

  /** A list whose items all have text is printed in full. */
  lemma {:induction false} AllShown(items: seq<QuoteItem>)
    requires forall i :: 0 <= i < |items| ==> items[i].text != ""
    ensures Shown(items) == items
  {
    if items != [] {
      AllShown(items[1..]);
      assert items == [items[0]] + items[1..];
    }
  }

  /** The page's three blocks appear exactly for the non-empty lists, and the TOTAL line exactly when the total is positive. */
  lemma RenderVisibility(d: QuoteData, year: int, format: real -> string)
    ensures var p := Render(d, year, format);
      (p.services.Some? <==> d.services != []) &&
      (p.observations.Some? <==> d.observations != []) &&
      (p.details.Some? <==> d.details != []) &&
      (p.totalLine.Some? <==> Sum(d.services) + Sum(d.observations) + Sum(d.details) > 0.0) &&
      (p.background.Some? <==> Present(d.backgroundImage))
  {
    TotalIsSectionSum(d);
  }

  /** With non-negative values, the TOTAL line is printed iff some item of some section has a positive value. */
  lemma TotalLineIffPositiveItem(d: QuoteData, year: int, format: real -> string)
    requires forall s :: NonNegative(ItemsOf(d, s))
    ensures Render(d, year, format).totalLine.Some? <==>
      exists s, i :: 0 <= i < |ItemsOf(d, s)| && Amount(ItemsOf(d, s)[i]) > 0.0
  {
    TotalPositiveIff(d);
  }
}
