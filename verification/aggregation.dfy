/**
 * What the base class computes across all registered providers, stated
 * over the registry's key order: concatenated listings, the checked-in
 * count, the merged price list and the first event match.
 */
module Aggregation {
  import opened Php
  import opened TicketFields
  import opened Providers

  // ---------------------------------------------------------------------------
  // Concatenation in registry order

  /**
   * The lists the providers under `keys` return, appended in key order, as
   * the `foreach` loops with `array_merge` build them.
   */
  function Gather<T>(keys: seq<ClassName>, lists: ClassName -> seq<T>): seq<T> {
    if keys == [] then [] else Gather(keys[..|keys| - 1], lists) + lists(keys[|keys| - 1])
  }

  function TicketLists(instance: ClassName -> Provider, eventId: EventId): ClassName -> seq<Ticket> {
    k => instance(k).getTickets(eventId)
  }

  function AttendeeLists(instance: ClassName -> Provider, eventId: EventId): ClassName -> seq<Attendee> {
    k => instance(k).getAttendees(eventId)
  }

  function EventAnswers(instance: ClassName -> Provider, possibleTicket: Value): ClassName -> Value {
    k => instance(k).getEventForTicket(possibleTicket)
  }

  /** The total length of the providers' lists. */
  function SumLengths<T>(keys: seq<ClassName>, lists: ClassName -> seq<T>): nat {
    if keys == [] then 0 else |lists(keys[0])| + SumLengths(keys[1..], lists)
  }

  lemma {:induction false} GatherAppend<T>(a: seq<ClassName>, b: seq<ClassName>, lists: ClassName -> seq<T>)
    ensures Gather(a + b, lists) == Gather(a, lists) + Gather(b, lists)
  {
    if b == [] {
      assert a + b == a;
    } else {
      var init := b[..|b| - 1];
      assert (a + b)[..|a + b| - 1] == a + init;
      assert (a + b)[|a + b| - 1] == b[|b| - 1];
      GatherAppend(a, init, lists);
    }
  }

  lemma GatherSingle<T>(k: ClassName, lists: ClassName -> seq<T>)
    ensures Gather([k], lists) == lists(k)
  {
    assert [k][..0] == [];
  }

  /** The aggregated list is as long as all providers' lists together; with no providers it is empty. */
  lemma {:induction false} GatherLength<T>(keys: seq<ClassName>, lists: ClassName -> seq<T>)
    ensures |Gather(keys, lists)| == SumLengths(keys, lists)
    ensures keys == [] ==> Gather(keys, lists) == []
  {
    if keys != [] {
      assert keys == [keys[0]] + keys[1..];
      GatherAppend([keys[0]], keys[1..], lists);
      GatherSingle(keys[0], lists);
      GatherLength(keys[1..], lists);
    }
  }

  /**
   * Each provider's list appears whole and in its own order, after the
   * lists of the providers registered before it and before those after it.
   */
  lemma {:induction false} GatherSegment<T>(keys: seq<ClassName>, lists: ClassName -> seq<T>, i: nat)
    requires i < |keys|
    ensures Gather(keys, lists) == Gather(keys[..i], lists) + lists(keys[i]) + Gather(keys[i + 1..], lists)
  {
    var before, rest, after := keys[..i], keys[i..], keys[i + 1..];
    assert keys == before + rest;
    assert rest == [keys[i]] + after;
    GatherAppend(before, rest, lists);
    GatherAppend([keys[i]], after, lists);
    GatherSingle(keys[i], lists);
  }

  /** An element is aggregated exactly when some registered provider lists it. */
  lemma {:induction false} GatherMembership<T>(keys: seq<ClassName>, lists: ClassName -> seq<T>, x: T)
    ensures x in Gather(keys, lists) <==> exists k :: k in keys && x in lists(k)
  {
    if keys != [] {
      var init := keys[..|keys| - 1];
      GatherMembership(init, lists, x);
      assert keys == init + [keys[|keys| - 1]];
      assert forall k :: k in keys <==> k in init || k == keys[|keys| - 1];
    }
  }

  // ---------------------------------------------------------------------------
  // Checked-in count

  /** An attendee counts as checked in when its `check_in` entry is not PHP-empty. */
  predicate IsCheckedIn(a: Attendee) {
    !IsEmpty(CheckInField(a))
  }

  /** `_checkedin_attendees_array_filter`, the reducer callback. */
  function CheckinStep(result: int, item: Attendee): (r: int)
    ensures r == result || r == result + 1
    ensures r == result + 1 <==> IsCheckedIn(item)
  {
    if IsCheckedIn(item) then result + 1 else result
  }

  /** `array_reduce($items, callback, $acc)`: a left fold from the first item. */
  function ReduceCheckins(items: seq<Attendee>, acc: int): (r: int)
    ensures acc <= r <= acc + |items|
  {
    if items == [] then acc else ReduceCheckins(items[1..], CheckinStep(acc, items[0]))
  }

  /** The checked-in attendees, in their order: the reference the count is proved against. */
  function CheckedIn(items: seq<Attendee>): (r: seq<Attendee>)
    ensures |r| <= |items|
    ensures forall x :: x in r <==> x in items && IsCheckedIn(x)
  {
    if items == [] then []
    else (if IsCheckedIn(items[0]) then [items[0]] else []) + CheckedIn(items[1..])
  }

  /** The reduce counts exactly the checked-in attendees. */
  lemma {:induction false} ReduceCountsCheckedIn(items: seq<Attendee>, acc: int)
    ensures ReduceCheckins(items, acc) == acc + |CheckedIn(items)|
  {
    if items != [] {
      ReduceCountsCheckedIn(items[1..], CheckinStep(acc, items[0]));
    }
  }

  lemma {:induction false} CheckedInConcat(a: seq<Attendee>, b: seq<Attendee>)
    ensures CheckedIn(a + b) == CheckedIn(a) + CheckedIn(b)
  {
    if a == [] {
      assert a + b == b;
    } else {
      var head := if IsCheckedIn(a[0]) then [a[0]] else [];
      assert (a + b)[0] == a[0];
      assert (a + b)[1..] == a[1..] + b;
      CheckedInConcat(a[1..], b);
      calc {
        CheckedIn(a + b);
        head + CheckedIn(a[1..] + b);
        head + (CheckedIn(a[1..]) + CheckedIn(b));
        (head + CheckedIn(a[1..])) + CheckedIn(b);
      }
    }
  }

  lemma {:induction false} CheckedInCounts(items: seq<Attendee>)
    ensures forall x :: multiset(CheckedIn(items))[x] == if IsCheckedIn(x) then multiset(items)[x] else 0
  {
    if items != [] {
      CheckedInCounts(items[1..]);
      assert items == [items[0]] + items[1..];
    }
  }

  /** The count does not depend on the order in which the attendees arrive. */
  lemma CheckedInPermutation(a: seq<Attendee>, b: seq<Attendee>)
    requires multiset(a) == multiset(b)
    ensures |CheckedIn(a)| == |CheckedIn(b)|
  {
    CheckedInCounts(a);
    CheckedInCounts(b);
    assert multiset(CheckedIn(a)) == multiset(CheckedIn(b));
  }

  // ---------------------------------------------------------------------------
  // Price points

  /** `is_numeric` on a price: integers always, strings as the host's test says, nothing else. */
  predicate IsNumeric(v: Value, numericString: string -> bool) {
    match v
    case Int(_) => true
    case Str(s) => numericString(s)
    case _ => false
  }

  /** One pass of the `get_ticket_prices` loop body. */
  function AddPrice(prices: seq<Value>, t: Ticket, numericString: string -> bool): seq<Value> {
    if t.price in prices then prices
    else if t.price != Null && IsNumeric(t.price, numericString) then prices + [t.price]
    else prices
  }

  /** The price list after the loop has visited `tickets` in order. */
  function MergePrices(prices: seq<Value>, tickets: seq<Ticket>, numericString: string -> bool): seq<Value> {
    if tickets == [] then prices
    else AddPrice(MergePrices(prices, tickets[..|tickets| - 1], numericString), tickets[|tickets| - 1], numericString)
  }

  /** The caller's price list is kept, unchanged, as a prefix of the result. */
  lemma {:induction false} MergePricesExtends(prices: seq<Value>, tickets: seq<Ticket>, numericString: string -> bool)
    ensures |prices| <= |MergePrices(prices, tickets, numericString)|
    ensures MergePrices(prices, tickets, numericString)[..|prices|] == prices
  {
    if tickets != [] {
      MergePricesExtends(prices, tickets[..|tickets| - 1], numericString);
    }
  }

  /**
   * Everything appended is a set, numeric price of one of the tickets that
   * was not yet in the list when it was reached: no value already present
   * is added again.
   */
  lemma {:induction false} MergePricesAppendsNew(prices: seq<Value>, tickets: seq<Ticket>, numericString: string -> bool)
    ensures var r := MergePrices(prices, tickets, numericString);
      forall j :: |prices| <= j < |r| ==>
        r[j] !in r[..j] && r[j] != Null && IsNumeric(r[j], numericString)
        && exists t :: t in tickets && t.price == r[j]
  {
    if tickets != [] {
      var init := tickets[..|tickets| - 1];
      var last := tickets[|tickets| - 1];
      MergePricesAppendsNew(prices, init, numericString);
      var before := MergePrices(prices, init, numericString);
      MergePricesExtends(prices, init, numericString);
      var r := MergePrices(prices, tickets, numericString);
      assert r == AddPrice(before, last, numericString);
      forall j | |prices| <= j < |r|
        ensures r[j] !in r[..j] && r[j] != Null && IsNumeric(r[j], numericString)
        ensures exists t :: t in tickets && t.price == r[j]
      {
        if j < |before| {
          assert r[..j] == before[..j] && r[j] == before[j];
          var t :| t in init && t.price == r[j];
          assert t in tickets;
        } else {
          assert r == before + [last.price] && r[..j] == before;
        }
      }
    }
  }

  /** Every ticket with a set, numeric price ends up in the list. */
  lemma {:induction false} MergePricesComplete(prices: seq<Value>, tickets: seq<Ticket>, numericString: string -> bool)
    ensures forall t :: t in tickets && t.price != Null && IsNumeric(t.price, numericString) ==>
      t.price in MergePrices(prices, tickets, numericString)
  {
    if tickets != [] {
      var init := tickets[..|tickets| - 1];
      MergePricesComplete(prices, init, numericString);
      assert tickets == init + [tickets[|tickets| - 1]];
      var before := MergePrices(prices, init, numericString);
      assert forall v :: v in before ==> v in AddPrice(before, tickets[|tickets| - 1], numericString);
    }
  }

  // ---------------------------------------------------------------------------
  // First event match

  /** The first answer, in key order, that is not `false`; `false` when every answer is. */
  function FirstMatch(keys: seq<ClassName>, answer: ClassName -> Value): Value {
    if keys == [] then Bool(false)
    else if answer(keys[0]) != Bool(false) then answer(keys[0])
    else FirstMatch(keys[1..], answer)
  }

  /**
   * The search yields `false` exactly when every provider answers `false`;
   * otherwise it yields the answer of the first provider that does not.
   */
  lemma {:induction false} FirstMatchIsFirst(keys: seq<ClassName>, answer: ClassName -> Value)
    ensures FirstMatch(keys, answer) == Bool(false) <==> forall k :: k in keys ==> answer(k) == Bool(false)
    ensures FirstMatch(keys, answer) != Bool(false) ==>
      exists i :: 0 <= i < |keys| && FirstMatch(keys, answer) == answer(keys[i])
        && forall j :: 0 <= j < i ==> answer(keys[j]) == Bool(false)
  {
    if keys != [] {
      FirstMatchIsFirst(keys[1..], answer);
      assert forall k :: k in keys <==> k == keys[0] || k in keys[1..];
      if answer(keys[0]) == Bool(false) && FirstMatch(keys, answer) != Bool(false) {
        var i :| 0 <= i < |keys[1..]| && FirstMatch(keys[1..], answer) == answer(keys[1..][i])
          && forall j :: 0 <= j < i ==> answer(keys[1..][j]) == Bool(false);
        assert FirstMatch(keys, answer) == answer(keys[i + 1]);
        assert forall j :: 0 <= j < i + 1 ==> answer(keys[j]) == Bool(false);
      }
    }
  }

  /**
   * Providers after the first match are not consulted: changing their
   * answers does not change the result.
   */
  lemma {:induction false} FirstMatchStopsEarly(keys: seq<ClassName>, answer: ClassName -> Value, other: ClassName -> Value, i: nat)
    requires i < |keys| && answer(keys[i]) != Bool(false)
    requires forall j :: 0 <= j <= i ==> other(keys[j]) == answer(keys[j])
    ensures FirstMatch(keys, other) == FirstMatch(keys, answer)
  {
    if i > 0 && answer(keys[0]) == Bool(false) {
      FirstMatchStopsEarly(keys[1..], answer, other, i - 1);
    }
  }

  /** When every provider keeps the base class's stub, no ticket is matched to an event. */
  lemma StubProvidersNeverMatch(keys: seq<ClassName>, instance: ClassName -> Provider, possibleTicket: Value)
    requires forall k :: k in keys ==> instance(k).getEventForTicket(possibleTicket) == NoEventForTicket(possibleTicket)
    ensures FirstMatch(keys, EventAnswers(instance, possibleTicket)) == Bool(false)
  {
    FirstMatchIsFirst(keys, EventAnswers(instance, possibleTicket));
  }
}
