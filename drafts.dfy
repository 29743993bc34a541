/**
 * The draft records the dashboards hold while the user types, and the
 * spread-merge updates of their `onChange` handlers, one per input field.
 * The same records and updates appear in the dashboards of both versions of
 * the application.
 */
module Drafts {

  datatype RideSearch = RideSearch(startLocation: string, endLocation: string, preferredTime: string)

  /** `availableSeats` is whatever the seat input produced; no range is enforced. */
  datatype RideOffer = RideOffer(startLocation: string, endLocation: string, departureTime: string, availableSeats: int)

  const EmptySearch := RideSearch("", "", "")
  const EmptyOffer := RideOffer("", "", "", 1)

  /** The three inputs of the ride-search form. */
  datatype SearchEdit = SearchStart(text: string) | SearchEnd(text: string) | SearchTime(text: string)

  /** The four inputs of the ride-offer form. */
  datatype OfferEdit =
    | OfferStart(text: string)
    | OfferEnd(text: string)
    | OfferTime(text: string)
    | OfferSeats(seats: int)

  /** `{ ...rideSearch, field: value }`: the edited field takes the input, every other field is kept. */
  function EditSearch(d: RideSearch, e: SearchEdit): (r: RideSearch)
    ensures r.startLocation == if e.SearchStart? then e.text else d.startLocation
    ensures r.endLocation == if e.SearchEnd? then e.text else d.endLocation
    ensures r.preferredTime == if e.SearchTime? then e.text else d.preferredTime
  {
    match e
    case SearchStart(t) => d.(startLocation := t)
    case SearchEnd(t) => d.(endLocation := t)
    case SearchTime(t) => d.(preferredTime := t)
  }

  /** `{ ...rideOffer, field: value }`: the edited field takes the input, every other field is kept. */
  function EditOffer(d: RideOffer, e: OfferEdit): (r: RideOffer)
    ensures r.startLocation == if e.OfferStart? then e.text else d.startLocation
    ensures r.endLocation == if e.OfferEnd? then e.text else d.endLocation
    ensures r.departureTime == if e.OfferTime? then e.text else d.departureTime
    ensures r.availableSeats == if e.OfferSeats? then e.seats else d.availableSeats
  {
    match e
    case OfferStart(t) => d.(startLocation := t)
    case OfferEnd(t) => d.(endLocation := t)
    case OfferTime(t) => d.(departureTime := t)
    case OfferSeats(n) => d.(availableSeats := n)
  }

  /** The draft after a sequence of edits, applied in order. */
  function EditOffers(d: RideOffer, es: seq<OfferEdit>): RideOffer
    decreases |es|
  {
    if es == [] then d else EditOffers(EditOffer(d, es[0]), es[1..])
  }

  /** The draft after a sequence of edits, applied in order. */
  function EditSearches(d: RideSearch, es: seq<SearchEdit>): RideSearch
    decreases |es|
  {
    if es == [] then d else EditSearches(EditSearch(d, es[0]), es[1..])
  }

  /** Edits of two different fields commute. */
  lemma OfferEditsCommute(d: RideOffer, e1: OfferEdit, e2: OfferEdit)
    requires e1.OfferStart? != e2.OfferStart? || e1.OfferEnd? != e2.OfferEnd? ||
             e1.OfferTime? != e2.OfferTime? || e1.OfferSeats? != e2.OfferSeats?
    ensures EditOffer(EditOffer(d, e1), e2) == EditOffer(EditOffer(d, e2), e1)
  {
  }

  /** A later edit of the same field replaces an earlier one. */
  lemma OfferEditOverwrites(d: RideOffer, e1: OfferEdit, e2: OfferEdit)
    requires e1.OfferStart? == e2.OfferStart? && e1.OfferEnd? == e2.OfferEnd? &&
             e1.OfferTime? == e2.OfferTime? && e1.OfferSeats? == e2.OfferSeats?
    ensures EditOffer(EditOffer(d, e1), e2) == EditOffer(d, e2)
  {
  }

  /** Edits of two different fields commute. */
  lemma SearchEditsCommute(d: RideSearch, e1: SearchEdit, e2: SearchEdit)
    requires e1.SearchStart? != e2.SearchStart? || e1.SearchEnd? != e2.SearchEnd? ||
             e1.SearchTime? != e2.SearchTime?
    ensures EditSearch(EditSearch(d, e1), e2) == EditSearch(EditSearch(d, e2), e1)
  {
  }

  /** A later edit of the same field replaces an earlier one. */
  lemma SearchEditOverwrites(d: RideSearch, e1: SearchEdit, e2: SearchEdit)
    requires e1.SearchStart? == e2.SearchStart? && e1.SearchEnd? == e2.SearchEnd? &&
             e1.SearchTime? == e2.SearchTime?
    ensures EditSearch(EditSearch(d, e1), e2) == EditSearch(d, e2)
  {
  }
}
