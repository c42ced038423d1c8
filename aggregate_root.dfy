/** AggregateRoot: the buffer of domain events an aggregate has raised and not yet handed out. */
module AggregateRoots {
  import opened OrderEvents

  class AggregateRoot {
    var events: seq<DomainEvent>

    /** A fresh root has no events. */
    constructor ()
      ensures events == []
    {
      events := [];
    }

    /** `add_domain_event`: the event goes last, after the earlier ones in their order. */
    method AddDomainEvent(e: DomainEvent)
      modifies this`events
      ensures events == old(events) + [e]
      ensures events[..|events| - 1] == old(events) && events[|events| - 1] == e
    {
      events := events + [e];
    }

    /** `get_domain_events`: a copy of the buffer, which a value sequence is. */
    function GetDomainEvents(): (r: seq<DomainEvent>)
      reads this`events
      ensures |r| == |events| && forall i :: 0 <= i < |r| ==> r[i] == events[i]
    {
      events
    }

    /** `clear_domain_events`. */
    method ClearDomainEvents()
      modifies this`events
      ensures events == []
    {
      events := [];
    }

    /** `pull_domain_events`: the events so far, leaving the buffer empty, so a second pull
        right after hands out nothing. */
    method PullDomainEvents() returns (r: seq<DomainEvent>)
      modifies this`events
      ensures r == old(events) && events == []
    {
      r := GetDomainEvents();
      ClearDomainEvents();
    }
  }
}
