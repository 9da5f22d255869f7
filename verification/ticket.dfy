/**
 * Ticket and attendee records, and the field normalisation `ticket_add`
 * applies to a submitted ticket form before handing it to its provider.
 */
module TicketFields {
  import opened Php

  /** A provider's name for itself: the PHP class name of the provider. */
  type ClassName = string

  /**
   * A ticket object as the core sees it. Every field is a PHP value, since
   * providers may leave any of them unset (`Null`). The start and end dates
   * are not part of this model.
   */
  datatype Ticket = Ticket(
    id: Value,
    name: Value,
    description: Value,
    price: Value,
    providerClass: Value)

  /** An attendee row returned by a provider: an array of named fields. */
  datatype Attendee = Attendee(fields: map<string, Value>)

  /** `$item['check_in']`; a missing entry reads as null. */
  function CheckInField(a: Attendee): Value {
    if "check_in" in a.fields then a.fields["check_in"] else Null
  }

  /** The submitted form after `wp_parse_args`: field name to string value. */
  type FormData = map<string, string>

  function Field(data: FormData, key: string): Option<string> {
    if key in data then Some(data[key]) else None
  }

  // ---------------------------------------------------------------------------
  // Price sanitisation

  /** The characters the price filter keeps: `[0-9.]`. */
  predicate IsPriceChar(c: char) {
    IsDigit(c) || c == '.'
  }

  predicate AllPriceChars(s: string) {
    forall k :: 0 <= k < |s| ==> IsPriceChar(s[k])
  }

  /** `preg_replace('/[^0-9\.]/Uis', '', $s)`: removes every non-price character. */
  function StripNonPrice(s: string): (r: string)
    ensures AllPriceChars(r)
    ensures |r| <= |s|
  {
    if s == [] then []
    else (if IsPriceChar(s[0]) then [s[0]] else []) + StripNonPrice(s[1..])
  }

  /**
   * The price `ticket_add` stores: `0` when the submitted price is absent or
   * PHP-empty; otherwise the trimmed string, from which every non-price
   * character is then removed unless the trimmed string is itself empty.
   */
  function NormalisePrice(raw: Option<string>): (r: Value)
    ensures r == Int(0) <==> raw.None? || IsEmptyString(raw.value)
    ensures r != Int(0) ==> r.Str? && AllPriceChars(r.s)
  {
    if raw.None? || IsEmptyString(raw.value) then Int(0)
    else
      var t := Trim(raw.value);
      if IsEmptyString(t) then Str(t) else Str(StripNonPrice(t))
  }

  /** `a` occurs in `b` in order, possibly with other characters between. */
  predicate IsSubsequence(a: string, b: string) {
    if a == [] then true
    else if b == [] then false
    else if a[0] == b[0] then IsSubsequence(a[1..], b[1..])
    else IsSubsequence(a, b[1..])
  }

  lemma {:induction false} StripConcat(a: string, b: string)
    ensures StripNonPrice(a + b) == StripNonPrice(a) + StripNonPrice(b)
  {
    if a != [] {
      var head := if IsPriceChar(a[0]) then [a[0]] else [];
      assert (a + b)[0] == a[0];
      assert (a + b)[1..] == a[1..] + b;
      StripConcat(a[1..], b);
      calc {
        StripNonPrice(a + b);
        head + StripNonPrice(a[1..] + b);
        head + (StripNonPrice(a[1..]) + StripNonPrice(b));
        (head + StripNonPrice(a[1..])) + StripNonPrice(b);
      }
    } else {
      assert a + b == b;
    }
  }

  /** The filter leaves a string alone exactly when it holds only price characters. */
  lemma {:induction false} StripFixpoint(s: string)
    ensures StripNonPrice(s) == s <==> AllPriceChars(s)
  {
    if s != [] {
      StripFixpoint(s[1..]);
      if !IsPriceChar(s[0]) {
        assert |StripNonPrice(s)| <= |s[1..]| < |s|;
      }
    }
  }

  /** Sanitising an already sanitised price changes nothing. */
  lemma StripIdempotent(s: string)
    ensures StripNonPrice(StripNonPrice(s)) == StripNonPrice(s)
  {
    StripFixpoint(StripNonPrice(s));
  }

  /** Every price character of the input is kept, as often as it occurs, and nothing else. */
  lemma {:induction false} StripCounts(s: string)
    ensures forall c :: multiset(StripNonPrice(s))[c] == if IsPriceChar(c) then multiset(s)[c] else 0
  {
    if s != [] {
      StripCounts(s[1..]);
      assert s == [s[0]] + s[1..];
    }
  }

  /** The kept characters stay in their original order. */
  lemma {:induction false} StripIsSubsequence(s: string)
    ensures IsSubsequence(StripNonPrice(s), s)
  {
    if s != [] {
      var rest := StripNonPrice(s[1..]);
      StripIsSubsequence(s[1..]);
      assert s == [s[0]] + s[1..];
      if IsPriceChar(s[0]) {
        var r := StripNonPrice(s);
        assert r == [s[0]] + rest;
        assert r[0] == s[0] && r[1..] == rest;
      } else {
        assert StripNonPrice(s) == rest;
        assert rest == [] || rest[0] != s[0];
        SubsequenceSkip(rest, s[0], s[1..]);
      }
    }
  }

  lemma {:induction false} SubsequenceSkip(a: string, c: char, b: string)
    requires IsSubsequence(a, b)
    requires a == [] || a[0] != c || IsSubsequence(a[1..], b)
    ensures IsSubsequence(a, [c] + b)
  {
    if a != [] && a[0] == c {
      assert ([c] + b)[1..] == b;
    } else if a != [] {
      assert ([c] + b)[1..] == b;
    }
  }

  lemma {:induction false} StripTrimLeft(s: string)
    ensures StripNonPrice(TrimLeft(s)) == StripNonPrice(s)
  {
    if s != [] && IsTrimChar(s[0]) {
      StripTrimLeft(s[1..]);
    }
  }

  lemma {:induction false} StripTrimRight(s: string)
    ensures StripNonPrice(TrimRight(s)) == StripNonPrice(s)
  {
    if s != [] && IsTrimChar(s[|s| - 1]) {
      var init := s[..|s| - 1];
      StripTrimRight(init);
      assert s == init + [s[|s| - 1]];
      StripConcat(init, [s[|s| - 1]]);
    }
  }

  /** Trimming never changes what the filter keeps: trim characters are not price characters. */
  lemma StripTrim(s: string)
    ensures StripNonPrice(Trim(s)) == StripNonPrice(s)
  {
    StripTrimLeft(s);
    StripTrimRight(TrimLeft(s));
  }

  /**
   * A non-empty submitted price is reduced to exactly its price characters:
   * trimming first, and skipping the filter for a trimmed `""` or `"0"`,
   * make no difference to the result.
   */
  lemma NormalisedPriceIsStripped(s: string)
    requires !IsEmptyString(s)
    ensures NormalisePrice(Some(s)) == Str(StripNonPrice(s))
  {
    var t := Trim(s);
    StripTrim(s);
    if IsEmptyString(t) {
      StripFixpoint(t);
    }
  }

  lemma StripExample()
    ensures StripNonPrice("$12.50 USD") == "12.50"
  {
    StripConcat("$12.50", " USD");
    StripConcat("$", "12.50");
    StripFixpoint("12.50");
  }

  // ---------------------------------------------------------------------------
  // The ticket record built by ticket_add

  /**
   * The ticket object `ticket_add` hands to its provider's `save_ticket`:
   * `ID` is `absint(ticket_id)` or null, name and description go through
   * the HTML escaper `escape` when present, the price is normalised and the
   * provider class is the caller's own class name.
   */
  function BuildTicket(data: FormData, className: ClassName, escape: string -> string): (t: Ticket)
    ensures t.providerClass == Str(className)
    ensures t.id == Null <==> "ticket_id" !in data
    ensures "ticket_id" in data ==> t.id == Int(AbsInt(data["ticket_id"])) && t.id.i >= 0
    ensures t.name == Null <==> "ticket_name" !in data
    ensures "ticket_name" in data ==> t.name == Str(escape(data["ticket_name"]))
    ensures t.description == Null <==> "ticket_description" !in data
    ensures "ticket_description" in data ==> t.description == Str(escape(data["ticket_description"]))
    ensures t.price == NormalisePrice(Field(data, "ticket_price"))
  {
    Ticket(
      if "ticket_id" in data then Int(AbsInt(data["ticket_id"])) else Null,
      if "ticket_name" in data then Str(escape(data["ticket_name"])) else Null,
      if "ticket_description" in data then Str(escape(data["ticket_description"])) else Null,
      NormalisePrice(Field(data, "ticket_price")),
      Str(className))
  }

  /** A form price of "$12.50 USD" is stored as "12.50"; a form without a price stores 0. */
  lemma BuildTicketPrices(data: FormData, className: ClassName, escape: string -> string)
    ensures BuildTicket(data["ticket_price" := "$12.50 USD"], className, escape).price == Str("12.50")
    ensures "ticket_price" !in data ==> BuildTicket(data, className, escape).price == Int(0)
  {
    NormalisedPriceIsStripped("$12.50 USD");
    StripExample();
  }
}
