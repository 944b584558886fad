/**
 * The event entity shared by the client, as declared in
 * client/src/services/types/Types.ts: the `Category` enum with its string
 * values, the `Event` record and the fields of a new event.
 */
module EventTypes {

  datatype Category = Conference | Workshop | Meetup

  /** The string value of each member of the `Category` enum. */
  function CategoryName(c: Category): string
  {
    match c
    case Conference => "Conference"
    case Workshop => "Workshop"
    case Meetup => "Meetup"
  }

  datatype Event = Event(
    id: string,
    title: string,
    description: string,
    date: string,
    location: string,
    category: Category,
    isUserCreated: bool,
    rsvpCount: int,
    createdAt: string,
    updatedAt: string)

  /** The fields a caller supplies for a new event (`CreateEventDto`). */
  datatype EventDraft = EventDraft(title: string, description: string, date: string, location: string, category: Category)
}
