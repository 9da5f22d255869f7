/**
 * A ticket provider as the base class sees it. The real implementations
 * live in other plugins, so every provider operation is an opaque function
 * that the model takes as given.
 */
module Providers {
  import opened Php
  import opened TicketFields

  /** The event a call is about; the AJAX handlers pass the posted `post_ID` string. */
  type EventId = Value

  /**
   * The abstract API a provider implements: its ticket and attendee listings,
   * `get_event_for_ticket`, `save_ticket`, `delete_ticket`, `get_ticket`,
   * the output of `do_metabox_advanced_options` and `front_end_tickets_form`,
   * and `checkin`/`uncheckin`.
   */
  datatype Provider = Provider(
    getTickets: EventId -> seq<Ticket>,
    getAttendees: EventId -> seq<Attendee>,
    getEventForTicket: Value -> Value,
    saveTicket: (EventId, Ticket, FormData) -> Value,
    deleteTicket: (EventId, string) -> Value,
    getTicket: (EventId, string) -> Value,
    advancedOptions: (EventId, string) -> string,
    checkin: string -> Value,
    uncheckin: string -> Value,
    frontEndForm: string -> string)

  /** The base class's default `get_event_for_ticket`: nothing is a ticket for any event. */
  function NoEventForTicket(possibleTicket: Value): (event: Value)
    ensures event == Bool(false)
  {
    Bool(false)
  }
}
