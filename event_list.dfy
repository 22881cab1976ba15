/**
 * The event list: the events the server holds, a delete that drops every
 * event carrying the deleted id, and an update from the edit form that
 * replaces every event carrying the updated event's id.
 */
module EventList {
  import opened JsValues
  import opened Lists
  import E = EditEventForm

  /** The filter's test: the event does not carry `id`. */
  function Other(id: string): E.Event -> bool
  {
    (e: E.Event) => e.id != id
  }

  /** `events.filter(event => event._id !== id)`. */
  function RemoveById(events: seq<E.Event>, id: string): (r: seq<E.Event>)
    ensures SubseqOf(r, events)
    ensures forall e :: e in r <==> e in events && e.id != id
    ensures forall e :: multiset(r)[e] == if e.id != id then multiset(events)[e] else 0
  {
    FilterIsSubseq(events, Other(id));
    FilterCounts(events, Other(id));
    Filter(events, Other(id))
  }

  /** `events.map(event => event._id === updated._id ? updated : event)`. */
  function ReplaceById(events: seq<E.Event>, updated: E.Event): (r: seq<E.Event>)
    ensures |r| == |events|
    ensures forall i :: 0 <= i < |r| && events[i].id == updated.id ==> r[i] == updated
    ensures forall i :: 0 <= i < |r| && events[i].id != updated.id ==> r[i] == events[i]
  {
    seq(|events|, i requires 0 <= i < |events| => if events[i].id == updated.id then updated else events[i])
  }

  /** After a delete no event carries the id, and deleting it again changes nothing. */
  lemma RemoveIsIdempotent(events: seq<E.Event>, id: string)
    ensures forall e :: e in RemoveById(events, id) ==> e.id != id
    ensures RemoveById(RemoveById(events, id), id) == RemoveById(events, id)
  {
    var r := RemoveById(events, id);
    FilterKeepsAll(r, Other(id));
  }

  /** Deleting an id no event carries leaves the list as it is. */
  lemma RemoveAbsentIdKeepsAll(events: seq<E.Event>, id: string)
    requires forall e :: e in events ==> e.id != id
    ensures RemoveById(events, id) == events
  {
    FilterKeepsAll(events, Other(id));
  }

  /** Updating with an event whose id nothing carries leaves the list as it is. */
  lemma ReplaceAbsentIdKeepsAll(events: seq<E.Event>, updated: E.Event)
    requires forall e :: e in events ==> e.id != updated.id
    ensures ReplaceById(events, updated) == events
  {
    var r := ReplaceById(events, updated);
    forall i | 0 <= i < |events|
      ensures r[i] == events[i]
    {
      assert events[i] in events;
    }
  }

  /** An update keeps the list's order: each position still holds an event with the id it held before. */
  lemma ReplaceKeepsIdOrder(events: seq<E.Event>, updated: E.Event)
    ensures forall i :: 0 <= i < |events| ==> ReplaceById(events, updated)[i].id == events[i].id
  {
  }

  /** Replacing twice with the same event is replacing once. */
  lemma ReplaceIsIdempotent(events: seq<E.Event>, updated: E.Event)
    ensures ReplaceById(ReplaceById(events, updated), updated) == ReplaceById(events, updated)
  {
  }

  /** Updating an event and then deleting its id leaves what deleting alone leaves. */
  lemma {:induction false} DeleteAfterUpdate(events: seq<E.Event>, updated: E.Event)
    ensures RemoveById(ReplaceById(events, updated), updated.id) == RemoveById(events, updated.id)
  {
    if events != [] {
      var r := ReplaceById(events, updated);
      assert ReplaceById(events[1..], updated) == r[1..];
      DeleteAfterUpdate(events[1..], updated);
    }
  }

  /** What the list fetch gives: the events, or a failure. */
  datatype ListReply = Listed(events: seq<E.Event>) | ListFailed

  /** The event list's state. */
  class EventListPage {
    var events: seq<E.Event>
    var loading: bool
    var editingEvent: Option<E.Event>

    constructor ()
      ensures events == [] && loading && editingEvent == None
    {
      events, loading, editingEvent := [], true, None;
    }

    /** `fetchEvents`: the loaded events, or the list as it was after a failure; loading ends either way. */
    method FetchEvents(reply: ListReply)
      modifies this
      ensures !loading && editingEvent == old(editingEvent)
      ensures reply.Listed? ==> events == reply.events
      ensures reply.ListFailed? ==> events == old(events)
    {
      if reply.Listed? {
        events := reply.events;
      }
      loading := false;
    }

    /**
     * `handleDelete`: once confirmed the delete is sent (its id is returned);
     * a successful reply removes every event with that id, a failed one
     * leaves the list unchanged.
     */
    method HandleDelete(id: string, confirmed: bool, ok: bool) returns (sent: Option<string>)
      modifies this
      ensures confirmed ==> sent == Some(id)
      ensures !confirmed ==> sent == None
      ensures confirmed && ok ==> events == RemoveById(old(events), id)
      ensures !(confirmed && ok) ==> events == old(events)
      ensures loading == old(loading) && editingEvent == old(editingEvent)
    {
      sent := None;
      if confirmed {
        sent := Some(id);
        if ok {
          events := RemoveById(events, id);
        }
      }
    }

    /** The edit button: the form opens on that event. */
    method StartEditing(event: E.Event)
      modifies this
      ensures editingEvent == Some(event) && events == old(events) && loading == old(loading)
    {
      editingEvent := Some(event);
    }

    /** `onClose`: the form closes. */
    method StopEditing()
      modifies this
      ensures editingEvent == None && events == old(events) && loading == old(loading)
    {
      editingEvent := None;
    }

    /** `handleEventUpdate`: every event carrying the updated event's id is replaced by it. */
    method HandleEventUpdate(updated: E.Event)
      modifies this
      ensures events == ReplaceById(old(events), updated)
      ensures loading == old(loading) && editingEvent == old(editingEvent)
    {
      events := ReplaceById(events, updated);
    }
  }
}
