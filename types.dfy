/**
 * The shapes of a quote document (types.ts): one line item and the whole document.
 * Every list of the document has the same element type, so one model of the list
 * operations covers the services, the observations and the details.
 */
module QuoteTypes {
  import opened Wrappers

  /**
   * One line of a section. `value` is optional: an absent value is a state of its
   * own, distinct from a value of 0. Nothing in the type makes `id` unique.
   */
  datatype QuoteItem = QuoteItem(id: string, text: string, value: Option<real>)

  /** How the header or the footer is drawn: an uploaded picture or the text template. */
  datatype DisplayType = Image | Template

  /**
   * The whole document. The four image fields are nullable opaque handles (data URIs)
   * that the core stores and tests for presence but never inspects.
   */
  datatype QuoteData = QuoteData(
    headerImage: Option<string>,
    footerImage: Option<string>,
    clientName: string,
    services: seq<QuoteItem>,
    observations: seq<QuoteItem>,
    details: seq<QuoteItem>,
    backgroundImage: Option<string>,
    backgroundOpacity: real,
    fontFamily: string,
    textColor: string,
    headerType: DisplayType,
    footerType: DisplayType,
    companyName: string,
    email: string,
    phone: string,
    companyLogo: Option<string>)

  /** The three item lists of a document. */
  datatype Section = Services | Observations | Details

  /** The list of items a section names. */
  function ItemsOf(d: QuoteData, s: Section): seq<QuoteItem>
  {
    match s
    case Services => d.services
    case Observations => d.observations
    case Details => d.details
  }
}
