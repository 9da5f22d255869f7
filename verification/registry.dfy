/**
 * The provider registry (`self::$active_modules`): an ordered map from a
 * provider's class name to its plugin name, filled as providers are
 * constructed, and the queries the base class answers by walking it.
 */
module Registry {
  import opened Php
  import opened TicketFields
  import opened Providers
  import opened Aggregation

  type PluginName = string

  class ProviderRegistry {
    /** The registered class names, in the order PHP iterates the array. */
    var classes: seq<ClassName>
    /** Each registered class name's plugin name. */
    var plugins: map<ClassName, PluginName>

    /** The keys are distinct and are exactly the keys of the map. */
    ghost predicate Valid()
      reads this
    {
      && (forall i, j :: 0 <= i < j < |classes| ==> classes[i] != classes[j])
      && (forall c :: c in plugins <==> c in classes)
    }

    /** The registry is empty before any provider is constructed. */
    constructor ()
      ensures Valid() && classes == [] && plugins == map[]
    {
      classes := [];
      plugins := map[];
    }

    /**
     * `self::$active_modules[ $this->className ] = $this->pluginName`: a new
     * class name is appended; a registered one keeps its place and only
     * its plugin name changes.
     */
    method Register(className: ClassName, pluginName: PluginName)
      requires Valid()
      modifies this
      ensures Valid()
      ensures plugins == old(plugins)[className := pluginName]
      ensures className in old(plugins) ==> classes == old(classes)
      ensures className !in old(plugins) ==> classes == old(classes) + [className]
    {
      if className !in plugins {
        classes := classes + [className];
      }
      plugins := plugins[className := pluginName];
    }

    /** `module_is_valid`: the key lookup agrees with the registration order. */
    function ModuleIsValid(provider: ClassName): (valid: bool)
      reads this
      requires Valid()
      ensures valid <==> provider in classes
    {
      provider in plugins
    }

    /** `modules()`: the registry's entries in iteration order. */
    function Modules(): (entries: seq<(ClassName, PluginName)>)
      reads this
      requires Valid()
      ensures |entries| == |classes| == |plugins|
      ensures forall i :: 0 <= i < |entries| ==> entries[i].0 == classes[i] && entries[i].0 in plugins && entries[i].1 == plugins[classes[i]]
    {
      DistinctKeysCount(classes, plugins);
      seq(|classes|, i requires 0 <= i < |classes| && classes[i] in plugins reads this => (classes[i], plugins[classes[i]]))
    }

    /** `get_event_attendees`: every provider's attendees, in registry order. */
    method GetEventAttendees(eventId: EventId, instance: ClassName -> Provider) returns (attendees: seq<Attendee>)
      requires Valid()
      ensures attendees == Gather(classes, AttendeeLists(instance, eventId))
    {
      attendees := [];
      var i := 0;
      while i < |classes|
        invariant 0 <= i <= |classes|
        invariant attendees == Gather(classes[..i], AttendeeLists(instance, eventId))
      {
        var obj := instance(classes[i]);
        attendees := attendees + obj.getAttendees(eventId);
        assert classes[..i + 1][..i] == classes[..i];
        i := i + 1;
      }
      assert classes[..i] == classes;
    }

    /** `get_all_event_tickets`: every provider's tickets, in registry order. */
    method GetAllEventTickets(eventId: EventId, instance: ClassName -> Provider) returns (tickets: seq<Ticket>)
      requires Valid()
      ensures tickets == Gather(classes, TicketLists(instance, eventId))
    {
      tickets := [];
      var i := 0;
      while i < |classes|
        invariant 0 <= i <= |classes|
        invariant tickets == Gather(classes[..i], TicketLists(instance, eventId))
      {
        var obj := instance(classes[i]);
        tickets := tickets + obj.getTickets(eventId);
        assert classes[..i + 1][..i] == classes[..i];
        i := i + 1;
      }
      assert classes[..i] == classes;
    }

    /** `get_event_tickets`: the same walk as `get_all_event_tickets`, so it returns the same list. */
    method GetEventTickets(eventId: EventId, instance: ClassName -> Provider) returns (tickets: seq<Ticket>)
      requires Valid()
      ensures tickets == Gather(classes, TicketLists(instance, eventId))
    {
      tickets := [];
      for i := 0 to |classes|
        invariant tickets == Gather(classes[..i], TicketLists(instance, eventId))
      {
        var obj := instance(classes[i]);
        tickets := tickets + obj.getTickets(eventId);
        assert classes[..i + 1][..i] == classes[..i];
      }
      assert classes[..|classes|] == classes;
    }

    /**
     * `find_matching_event`: asks the providers in registry order and
     * returns the first answer that is not `false`, without asking the
     * providers after it.
     */
    method FindMatchingEvent(possibleTicket: Value, instance: ClassName -> Provider) returns (event: Value)
      requires Valid()
      ensures event == FirstMatch(classes, EventAnswers(instance, possibleTicket))
    {
      var i := 0;
      while i < |classes|
        invariant 0 <= i <= |classes|
        invariant FirstMatch(classes[i..], EventAnswers(instance, possibleTicket))
               == FirstMatch(classes, EventAnswers(instance, possibleTicket))
      {
        var obj := instance(classes[i]);
        event := obj.getEventForTicket(possibleTicket);
        if event != Bool(false) {
          return event;
        }
        assert classes[i..][1..] == classes[i + 1..];
        i := i + 1;
      }
      return Bool(false);
    }

    /**
     * `get_event_checkedin_attendees_count`: the number of aggregated
     * attendees that are checked in, never more than the attendee total.
     */
    method GetEventCheckedinAttendeesCount(eventId: EventId, instance: ClassName -> Provider) returns (count: int)
      requires Valid()
      ensures count == |CheckedIn(Gather(classes, AttendeeLists(instance, eventId)))|
      ensures 0 <= count <= SumLengths(classes, AttendeeLists(instance, eventId))
    {
      var checkedin := GetEventAttendees(eventId, instance);
      count := ReduceCheckins(checkedin, 0);
      ReduceCountsCheckedIn(checkedin, 0);
      GatherLength(classes, AttendeeLists(instance, eventId));
    }

    /**
     * `get_ticket_prices`: walks every aggregated ticket and appends its
     * price when it is set, numeric and not yet in the list. The caller's
     * prices stay a prefix and nothing already present is appended again.
     */
    method GetTicketPrices(prices: seq<Value>, eventId: EventId, instance: ClassName -> Provider,
                           numericString: string -> bool) returns (result: seq<Value>)
      requires Valid()
      ensures result == MergePrices(prices, Gather(classes, TicketLists(instance, eventId)), numericString)
      ensures |prices| <= |result| && result[..|prices|] == prices
      ensures forall j :: |prices| <= j < |result| ==> result[j] !in result[..j]
    {
      var tickets := GetAllEventTickets(eventId, instance);
      result := prices;
      var i := 0;
      while i < |tickets|
        invariant 0 <= i <= |tickets|
        invariant result == MergePrices(prices, tickets[..i], numericString)
      {
        var ticket := tickets[i];
        assert tickets[..i + 1][..i] == tickets[..i];
        if ticket.price in result {
          // already listed
        } else if ticket.price != Null && IsNumeric(ticket.price, numericString) {
          result := result + [ticket.price];
        }
        i := i + 1;
      }
      assert tickets[..i] == tickets;
      MergePricesExtends(prices, tickets, numericString);
      MergePricesAppendsNew(prices, tickets, numericString);
    }
  }

  /** Distinct keys that are exactly a map's keys are as many as the map's entries. */
  lemma {:induction false} DistinctKeysCount<V>(keys: seq<ClassName>, m: map<ClassName, V>)
    requires forall i, j :: 0 <= i < j < |keys| ==> keys[i] != keys[j]
    requires forall c :: c in m <==> c in keys
    ensures |keys| == |m|
  {
    if keys != [] {
      var last := keys[|keys| - 1];
      var init := keys[..|keys| - 1];
      var rest := m - {last};
      assert forall c :: c in rest <==> c in init by {
        forall c ensures c in rest <==> c in init {
          if c in init {
            var j :| 0 <= j < |init| && init[j] == c;
            assert keys[j] == c;
          }
          assert c in keys ==> c in init || c == last;
        }
      }
      DistinctKeysCount(init, rest);
      assert m.Keys == rest.Keys + {last};
    }
  }

  /** `get_all_event_tickets` and `get_event_tickets` return the same list for the same registry. */
  method TicketListingsAgree(registry: ProviderRegistry, eventId: EventId, instance: ClassName -> Provider)
    returns (all: seq<Ticket>, listed: seq<Ticket>)
    requires registry.Valid()
    ensures all == listed
  {
    all := registry.GetAllEventTickets(eventId, instance);
    listed := registry.GetEventTickets(eventId, instance);
  }

  /**
   * Registering a provider that is already registered leaves the iteration
   * order alone; queries made before it keep their results, and a fresh
   * walk afterwards gives the same tickets.
   */
  method ReRegistration(first: ClassName, second: ClassName, eventId: EventId, instance: ClassName -> Provider)
    returns (before: seq<Ticket>, after: seq<Ticket>)
    requires first != second
    ensures before == after == instance(first).getTickets(eventId) + instance(second).getTickets(eventId)
  {
    TwoProviders(first, second, eventId, instance);
    var registry := new ProviderRegistry();
    registry.Register(first, "first plugin");
    assert registry.classes == [first] && first in registry.plugins;
    registry.Register(second, "second plugin");
    assert registry.classes == [first, second] && first in registry.plugins;
    before := registry.GetAllEventTickets(eventId, instance);
    registry.Register(first, "first plugin, reloaded");
    assert registry.classes == [first, second];
    after := registry.GetAllEventTickets(eventId, instance);
  }

  lemma TwoProviders(first: ClassName, second: ClassName, eventId: EventId, instance: ClassName -> Provider)
    ensures Gather([first, second], TicketLists(instance, eventId))
         == instance(first).getTickets(eventId) + instance(second).getTickets(eventId)
  {
    assert [first, second][..1] == [first];
    GatherSingle(first, TicketLists(instance, eventId));
  }
}
