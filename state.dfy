/**
 * The editor's single document state (App.tsx, `App`): one `QuoteData` value held by
 * the component and replaced wholesale. `updateQuoteData(field, value)` replaces one
 * named field and keeps all others; the section handlers pass their new list to it.
 */
module State {
  import opened Wrappers
  import opened QuoteTypes
  import Sections
  import Totals

  /** The keys of `QuoteData`; the three lists are named through their section. */
  datatype Field =
    | HeaderImage | FooterImage | ClientName | SectionItems(section: Section)
    | BackgroundImage | BackgroundOpacity | FontFamily | TextColor
    | HeaderType | FooterType | CompanyName | Email | Phone | CompanyLogo

  /** A value that can be stored in a field, tagged by its type. */
  datatype FieldValue =
    | Handle(handle: Option<string>)
    | Text(text: string)
    | Items(items: seq<QuoteItem>)
    | Number(number: real)
    | Display(display: DisplayType)

  /** The value `v` has the declared type of field `f`. */
  predicate Fits(f: Field, v: FieldValue)
  {
    match f
    case HeaderImage | FooterImage | BackgroundImage | CompanyLogo => v.Handle?
    case ClientName | FontFamily | TextColor | CompanyName | Email | Phone => v.Text?
    case SectionItems(_) => v.Items?
    case BackgroundOpacity => v.Number?
    case HeaderType | FooterType => v.Display?
  }

  /** The current value of field `f`. */
  function Get(d: QuoteData, f: Field): (v: FieldValue)
    ensures Fits(f, v)
  {
    match f
    case HeaderImage => Handle(d.headerImage)
    case FooterImage => Handle(d.footerImage)
    case ClientName => Text(d.clientName)
    case SectionItems(s) => Items(ItemsOf(d, s))
    case BackgroundImage => Handle(d.backgroundImage)
    case BackgroundOpacity => Number(d.backgroundOpacity)
    case FontFamily => Text(d.fontFamily)
    case TextColor => Text(d.textColor)
    case HeaderType => Display(d.headerType)
    case FooterType => Display(d.footerType)
    case CompanyName => Text(d.companyName)
    case Email => Text(d.email)
    case Phone => Text(d.phone)
    case CompanyLogo => Handle(d.companyLogo)
  }

  /** `{...prev, [field]: value}`: field `f` holds `v`, every other field is unchanged. */
  function With(d: QuoteData, f: Field, v: FieldValue): (r: QuoteData)
    requires Fits(f, v)
    ensures Get(r, f) == v
    ensures forall g :: g != f ==> Get(r, g) == Get(d, g)
  {
    match f
    case HeaderImage => d.(headerImage := v.handle)
    case FooterImage => d.(footerImage := v.handle)
    case ClientName => d.(clientName := v.text)
    case SectionItems(Services) => d.(services := v.items)
    case SectionItems(Observations) => d.(observations := v.items)
    case SectionItems(Details) => d.(details := v.items)
    case BackgroundImage => d.(backgroundImage := v.handle)
    case BackgroundOpacity => d.(backgroundOpacity := v.number)
    case FontFamily => d.(fontFamily := v.text)
    case TextColor => d.(textColor := v.text)
    case HeaderType => d.(headerType := v.display)
    case FooterType => d.(footerType := v.display)
    case CompanyName => d.(companyName := v.text)
    case Email => d.(email := v.text)
    case Phone => d.(phone := v.text)
    case CompanyLogo => d.(companyLogo := v.handle)
  }

  /** Two documents that agree on every field are equal. */
  lemma FieldsDetermine(a: QuoteData, b: QuoteData)
    requires forall f :: Get(a, f) == Get(b, f)
    ensures a == b
  {
    assert Get(a, HeaderImage) == Get(b, HeaderImage) && Get(a, FooterImage) == Get(b, FooterImage);
    assert Get(a, ClientName) == Get(b, ClientName);
    assert Get(a, SectionItems(Services)) == Get(b, SectionItems(Services));
    assert Get(a, SectionItems(Observations)) == Get(b, SectionItems(Observations));
    assert Get(a, SectionItems(Details)) == Get(b, SectionItems(Details));
    assert Get(a, BackgroundImage) == Get(b, BackgroundImage);
    assert Get(a, BackgroundOpacity) == Get(b, BackgroundOpacity);
    assert Get(a, FontFamily) == Get(b, FontFamily) && Get(a, TextColor) == Get(b, TextColor);
    assert Get(a, HeaderType) == Get(b, HeaderType) && Get(a, FooterType) == Get(b, FooterType);
    assert Get(a, CompanyName) == Get(b, CompanyName) && Get(a, Email) == Get(b, Email);
    assert Get(a, Phone) == Get(b, Phone) && Get(a, CompanyLogo) == Get(b, CompanyLogo);
  }

  /** Storing a field's current value changes nothing. */
  lemma WithCurrentValue(d: QuoteData, f: Field)
    ensures With(d, f, Get(d, f)) == d
  {
    FieldsDetermine(With(d, f, Get(d, f)), d);
  }

  /** Of two updates of the same field, the later one wins. */
  lemma WithTwice(d: QuoteData, f: Field, v: FieldValue, w: FieldValue)
    requires Fits(f, v) && Fits(f, w)
    ensures With(With(d, f, v), f, w) == With(d, f, w)
  {
    FieldsDetermine(With(With(d, f, v), f, w), With(d, f, w));
  }

  /** Updates of two different fields commute. */
  lemma WithCommutes(d: QuoteData, f: Field, v: FieldValue, g: Field, w: FieldValue)
    requires f != g && Fits(f, v) && Fits(g, w)
    ensures With(With(d, f, v), g, w) == With(With(d, g, w), f, v)
  {
    FieldsDetermine(With(With(d, f, v), g, w), With(With(d, g, w), f, v));
  }

  /** The document the editor starts with (App.tsx, `initialQuoteData`). */
  function Initial(): QuoteData
  {
    QuoteData(
      None,
      None,
      "Mauro e Jussara",
      [ QuoteItem("1", "Substituição dos pisos de dois banheiros.", Some(1500.0)),
        QuoteItem("2", "Assentamento de piso.", Some(800.0)),
        QuoteItem("3", "Retirada dos pisos.", Some(300.0)),
        QuoteItem("4", "Retirada da argamassa.", Some(250.0)) ],
      [ QuoteItem("1", "Orçamento de mão de obra.", None),
        QuoteItem("2", "Tempo estimado 5 dias.", None) ],
      [ QuoteItem("1", "4m² de piso por banheiro.", None),
        QuoteItem("2", "Rejunte incluso.", Some(50.0)) ],
      None,
      0.1,
      "Arial",
      "#1f2937",
      Image,
      Image,
      "M3 MANUTENÇÕES E REFORMAS",
      "seuemail@exemplo.com",
      "(XX) 99999-9999",
      None)
  }

  /** The starting document totals 2900: 1500 + 800 + 300 + 250 in services, nothing in observations, 50 in details. */
  lemma InitialTotal()
    ensures Totals.Total(Initial()) == 2900.0
  {
    var d := Initial();
    Totals.TotalIsSectionSum(d);
    assert Totals.Sum(d.services[3..]) == 250.0;
    assert Totals.Sum(d.services[2..]) == 550.0;
    assert Totals.Sum(d.services[1..]) == 1350.0;
    assert Totals.Sum(d.observations[1..]) == 0.0;
    assert Totals.Sum(d.details[1..]) == 50.0;
  }

  /** Editing item "2" of the starting services to "Novo texto" and "800" rewrites that item alone. */
  lemma InitialServiceEdit(parse: string -> Option<real>)
    requires parse("800") == Some(800.0)
    ensures Sections.ChangeItem(Initial().services, "2", "Novo texto", "800", parse) ==
      Initial().services[1 := QuoteItem("2", "Novo texto", Some(800.0))]
  {
    var items := Initial().services;
    var r := Sections.ChangeItem(items, "2", "Novo texto", "800", parse);
    assert items[0].id != "2" && items[2].id != "2" && items[3].id != "2";
    assert r[0] == items[0] && r[2] == items[2] && r[3] == items[3];
  }

  /**
   * At document level, adding an item with a fresh id and then removing that id
   * gives back the document unchanged.
   */
  lemma AddThenRemoveDocument(d: QuoteData, s: Section, now: string)
    requires !Sections.HasId(ItemsOf(d, s), now)
    ensures var added := Sections.AddItem(ItemsOf(d, s), now);
      With(With(d, SectionItems(s), Items(added)), SectionItems(s), Items(Sections.RemoveItem(added, now))) == d
  {
    var added := Sections.AddItem(ItemsOf(d, s), now);
    WithTwice(d, SectionItems(s), Items(added), Items(Sections.RemoveItem(added, now)));
    Sections.AddThenRemove(ItemsOf(d, s), now);
    WithCurrentValue(d, SectionItems(s));
  }

  /**
   * The editor's state cell. Every operation replaces `data` with a new document;
   * the list operations replace one section's list and keep every other field.
   */
  class QuoteStore {
    var data: QuoteData

    constructor ()
      ensures data == Initial()
    {
      data := Initial();
    }

    /** updateQuoteData: field `f` now holds `v`; every other field is as before. */
    method Update(f: Field, v: FieldValue)
      requires Fits(f, v)
      modifies this
      ensures Get(data, f) == v
      ensures forall g :: g != f ==> Get(data, g) == Get(old(data), g)
    {
      data := With(data, f, v);
    }

    /** updateSectionItems: the section's list is replaced; every other field is as before. */
    method SetItems(s: Section, items: seq<QuoteItem>)
      modifies this
      ensures ItemsOf(data, s) == items
      ensures forall g :: g != SectionItems(s) ==> Get(data, g) == Get(old(data), g)
    {
      Update(SectionItems(s), Items(items));
    }

    /** An item edit in section `s`, as the section's list handler performs it. */
    method ChangeItem(s: Section, id: string, text: string, raw: string, parse: string -> Option<real>)
      modifies this
      ensures ItemsOf(data, s) == Sections.ChangeItem(ItemsOf(old(data), s), id, text, raw, parse)
      ensures forall g :: g != SectionItems(s) ==> Get(data, g) == Get(old(data), g)
    {
      SetItems(s, Sections.ChangeItem(ItemsOf(data, s), id, text, raw, parse));
    }

    /** An add in section `s`; `now` stands for the clock reading used as the new id. */
    method AddItem(s: Section, now: string)
      modifies this
      ensures ItemsOf(data, s) == Sections.AddItem(ItemsOf(old(data), s), now)
      ensures forall g :: g != SectionItems(s) ==> Get(data, g) == Get(old(data), g)
    {
      SetItems(s, Sections.AddItem(ItemsOf(data, s), now));
    }

    /** A remove in section `s`. */
    method RemoveItem(s: Section, id: string)
      modifies this
      ensures ItemsOf(data, s) == Sections.RemoveItem(ItemsOf(old(data), s), id)
      ensures forall g :: g != SectionItems(s) ==> Get(data, g) == Get(old(data), g)
    {
      SetItems(s, Sections.RemoveItem(ItemsOf(data, s), id));
    }
  }
}
