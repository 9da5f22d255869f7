# Event Tickets provider base class — a Dafny model

This project models the logic in `Tribe__Tickets__Tickets`, the abstract base class that ticket-selling providers extend. The base class does five things:

- It keeps a registry of the active providers. This is an ordered PHP array from a provider's class name to its plugin name.
- It aggregates tickets and attendees for an event across every registered provider, in registration order.
- It counts checked-in attendees and merges ticket prices into an event's price list.
- It normalises the fields of a submitted ticket before the provider saves it.
- It runs the AJAX handlers. Each one checks the request in a fixed order and answers with a JSON envelope.

The providers' own operations live in other plugins. Here each one is an opaque function carried by a `Provider` record (`providers.dfy`). The WordPress services the handlers call are opaque functions in a `Platform` record (`dispatch.dfy`). The model proves what the base class builds on top of them.

Files:

- `php.dfy` (`Php`): PHP values, `empty()`, `trim()`, and `intval()`/`absint()` on strings.
- `ticket.dfy` (`TicketFields`): ticket and attendee records, price sanitisation, and the ticket record `ticket_add` builds.
- `providers.dfy` (`Providers`): the provider API as a record of functions, and the default `get_event_for_ticket` stub.
- `aggregation.dfy` (`Aggregation`): specification functions for the cross-provider queries, with their lemmas.
- `registry.dfy` (`Registry`): the class `ProviderRegistry`. It holds `classes` (the iteration order) and `plugins` (the map). Its methods are the loops of the source, each proved against a function in `Aggregation`.
- `dispatch.dfy` (`Dispatch`): `ajax_ok`, `has_permission`, the five AJAX handlers, the template name rule and the `the_content` filter.

The registry is a `seq` of distinct keys plus a `map`. `Valid()` says the two hold the same keys.

Each handler is a function from the posted fields to a `Response` (`Error(message)` or `Ok(data)`). In PHP, `ajax_error` and `ajax_ok` end the request with `exit`. In the model, each check's failure branch returns at once, so the later steps never run.

## Behaviour worth noting

- Registering a class name that is already registered overwrites its value in place. It does not fail.
- `find_matching_event` stops at the first answer that is not strictly `false`. A `null` or `0` answer also stops the search.
- Deleting a missing ticket is not a separate "not found" error. The delete handler passes whatever the provider returns to `ajax_ok`, so only `false` becomes "Something went wrong". Other empty results, such as `null`, `0` or `""`, are answered as a success.
- The edit handler always succeeds once its checks pass. It sends the ticket's properties plus `advanced_fields`, which is always an array, even when `get_ticket` finds nothing.
- The check-in handlers check that `$_POST['provider']` is registered. They then call `checkin`/`uncheckin` on the handler's own provider (`$this`), not on the posted one. The model keeps this through the `self` parameter.

## Model

| member | source | states |
|---|---|---|
| `Registry.ProviderRegistry.constructor` | src/Tribe/Tickets.php:17 | The registry starts empty: no keys and no entries. |
| `Registry.ProviderRegistry.Register` | src/Tribe/Tickets.php:246 | A new class name is appended at the end of the iteration order. A registered one keeps its position and only its plugin name changes. Keys stay distinct. |
| `Registry.ProviderRegistry.ModuleIsValid` | src/Tribe/Tickets.php:623-625 | The key lookup is true exactly when the class name is in the registration order. |
| `Registry.ProviderRegistry.Modules` | src/Tribe/Tickets.php:640-642 | Returns one entry per registered class, in registration order, each paired with its plugin name. There are as many entries as map keys. |
| `Registry.ProviderRegistry.GetEventAttendees` | src/Tribe/Tickets.php:529-538 | The loop returns every provider's attendees concatenated in registry order. |
| `Registry.ProviderRegistry.GetAllEventTickets` | src/Tribe/Tickets.php:547-556 | The loop returns every provider's tickets concatenated in registry order. |
| `Registry.ProviderRegistry.GetEventTickets` | src/Tribe/Tickets.php:653-663 | Same concatenation as `get_all_event_tickets`. |
| `Registry.TicketListingsAgree` | src/Tribe/Tickets.php:653-663 | `get_all_event_tickets` and `get_event_tickets` return the same list. |
| `Registry.ProviderRegistry.FindMatchingEvent` | src/Tribe/Tickets.php:567-575 | The early-return loop yields the first provider answer that is not `false`, or `false` if every answer is `false`. |
| `Registry.ProviderRegistry.GetEventCheckedinAttendeesCount` | src/Tribe/Tickets.php:586-590 | The count equals the number of aggregated attendees that are checked in. It is at least 0 and at most the total attendee count. |
| `Registry.ProviderRegistry.GetTicketPrices` | src/Tribe/Tickets.php:758-774 | The loop result equals `MergePrices` over all aggregated tickets. The caller's prices stay a prefix. No appended value was already in the list when it was appended. |
| `Registry.ReRegistration` | src/Tribe/Tickets.php:246 | Re-registering a provider keeps the order. A listing taken before it and a listing taken after it are equal, and both are the two providers' tickets in registration order. |
| `Registry.DistinctKeysCount` | src/Tribe/Tickets.php:17 | A list of distinct keys that are exactly a map's keys has as many elements as the map has entries. |
| `Aggregation.GatherAppend` | src/Tribe/Tickets.php:532-535 | Aggregating over two key lists joined together equals the two aggregates joined together. |
| `Aggregation.GatherLength` | src/Tribe/Tickets.php:529-556 | The aggregate's length is the sum of the providers' lengths. With no providers the aggregate is empty. |
| `Aggregation.GatherSegment` | src/Tribe/Tickets.php:550-553 | Each provider's list appears whole and in its own order. It comes after the lists of earlier providers and before those of later ones. |
| `Aggregation.GatherMembership` | src/Tribe/Tickets.php:532-535 | An item is in the aggregate exactly when some registered provider lists it. |
| `Aggregation.CheckedIn` | src/Tribe/Tickets.php:604-609 | Reference filter: an attendee is kept exactly when it is in the input and its `check_in` is not PHP-empty. The result is never longer than the input. |
| `Aggregation.ReduceCountsCheckedIn` | src/Tribe/Tickets.php:589-609 | The `array_reduce` with `_checkedin_attendees_array_filter`, started at `acc`, returns `acc` plus the number of checked-in attendees. |
| `Aggregation.CheckedInConcat` | src/Tribe/Tickets.php:587-589 | The checked-in filter over concatenated provider lists is the concatenation of the per-list results. |
| `Aggregation.CheckedInCounts` | src/Tribe/Tickets.php:604-609 | The filter keeps every checked-in attendee as often as it occurs, and nothing else. |
| `Aggregation.CheckedInPermutation` | src/Tribe/Tickets.php:589 | The checked-in count does not depend on the order of the attendees. |
| `Aggregation.MergePricesExtends` | src/Tribe/Tickets.php:758-774 | The input price list is an unchanged prefix of the result. |
| `Aggregation.MergePricesAppendsNew` | src/Tribe/Tickets.php:762-770 | Every appended value is set, numeric, some ticket's price, and not already in the list when reached. |
| `Aggregation.MergePricesComplete` | src/Tribe/Tickets.php:767-770 | Every ticket whose price is set and numeric has that price in the result. |
| `Aggregation.FirstMatchIsFirst` | src/Tribe/Tickets.php:567-575 | The result is `false` exactly when every provider answers `false`. Otherwise it is the answer of the first provider that does not answer `false`. |
| `Aggregation.FirstMatchStopsEarly` | src/Tribe/Tickets.php:571 | Providers after the first match are not consulted: changing their answers leaves the result unchanged. |
| `Aggregation.StubProvidersNeverMatch` | src/Tribe/Tickets.php:110-112 | If every provider keeps the default `get_event_for_ticket` stub, the result is `false`. |
| `TicketFields.StripNonPrice` | src/Tribe/Tickets.php:353 | The filtered price holds only `[0-9.]` characters and is no longer than the input. |
| `TicketFields.NormalisePrice` | src/Tribe/Tickets.php:349-354 | The price is 0 exactly when the submitted price is absent, `""` or `"0"`. Otherwise it is a string of price characters. |
| `TicketFields.StripConcat` | src/Tribe/Tickets.php:353 | Filtering a concatenation equals concatenating the filtered parts. |
| `TicketFields.StripFixpoint` | src/Tribe/Tickets.php:351-353 | The filter leaves a string unchanged exactly when the string holds only price characters. |
| `TicketFields.StripIdempotent` | src/Tribe/Tickets.php:353 | Sanitising an already sanitised price changes nothing. |
| `TicketFields.StripCounts` | src/Tribe/Tickets.php:353 | Every digit and `.` is kept as often as it occurs, and every other character is dropped. |
| `TicketFields.StripIsSubsequence` | src/Tribe/Tickets.php:353 | The kept characters stay in their original order. |
| `TicketFields.SubsequenceSkip` | src/Tribe/Tickets.php:353 | A character that does not start the subsequence can be put in front of the larger string and the subsequence still holds. |
| `TicketFields.StripTrimLeft` | src/Tribe/Tickets.php:349 | Removing leading trim characters does not change what the price filter keeps. |
| `TicketFields.StripTrimRight` | src/Tribe/Tickets.php:349 | Removing trailing trim characters does not change what the price filter keeps. |
| `TicketFields.StripTrim` | src/Tribe/Tickets.php:349-353 | `trim()` never changes what the price filter keeps. |
| `TicketFields.NormalisedPriceIsStripped` | src/Tribe/Tickets.php:349-354 | A non-empty submitted price is stored as exactly its `[0-9.]` characters. Trimming first, and skipping the filter when the trimmed value is `""` or `"0"`, make no difference. |
| `TicketFields.StripExample` | src/Tribe/Tickets.php:353 | `"$12.50 USD"` filters to `"12.50"`. |
| `TicketFields.BuildTicket` | src/Tribe/Tickets.php:343-366 | `ID` is `absint(ticket_id)` (never negative) when `ticket_id` is posted, and null otherwise. Name and description are null exactly when absent, and otherwise the posted text passed through `esc_html`. The price is normalised. `provider_class` is the caller's class name. |
| `TicketFields.BuildTicketPrices` | src/Tribe/Tickets.php:349-354 | A posted price of `"$12.50 USD"` is stored as `"12.50"`. A form with no price stores 0. |
| `Php.Trim` | src/Tribe/Tickets.php:349 | `trim()` returns a slice of its input. Everything cut off is a trim character, and the slice neither starts nor ends with one. |
| `Php.TrimLeft` | src/Tribe/Tickets.php:349 | The result is a suffix of the input. What is cut off is all trim characters, and the result does not start with one. |
| `Php.TrimRight` | src/Tribe/Tickets.php:349 | The result is a prefix of the input. What is cut off is all trim characters, and the result does not end with one. |
| `Php.Saturate` | src/Tribe/Tickets.php:379 | A value above the 64-bit range becomes `PHP_INT_MAX`, and one below it becomes `PHP_INT_MIN`. Values in range are unchanged. |
| `Php.IntValSaturates` | src/Tribe/Tickets.php:379 | A decimal number beyond the 64-bit range is read as `PHP_INT_MAX`, or as `PHP_INT_MIN` after a minus sign. It never wraps around. |
| `Php.IntVal` | src/Tribe/Tickets.php:379 | `intval()` of a string always lies within the 64-bit integer range. |
| `Php.AbsInt` | src/Tribe/Tickets.php:346 | `absint()` is the absolute value of `intval()`, bounded by 2^63. |
| `Php.IntValOfDecimal` | src/Tribe/Tickets.php:379 | Any in-range number is read back from its decimal rendering, with or without a minus sign, and any non-digit text after it is ignored. |
| `Dispatch.AjaxOk` | src/Tribe/Tickets.php:687-705 | The result is an error exactly when the data is `false`, and then the message is "Something went wrong". An object is sent as its properties. An array or a string is sent unchanged. `null`, integers and `true` are sent as an empty array. Success data is always an array or a string. |
| `Dispatch.ObjectVars` | src/Tribe/Tickets.php:690 | `get_object_vars` yields one string-keyed entry per property, in order. |
| `Dispatch.SetEntry` | src/Tribe/Tickets.php:498 | After the assignment the key maps to the new value, and every other key is unchanged. An existing key keeps its position. A new key is appended at the end. |
| `Dispatch.Capability` | src/Tribe/Tickets.php:276-279 | The capability is `edit_` followed by the post type. `post` and `page` get a plural `s`. |
| `Dispatch.HasPermission` | src/Tribe/Tickets.php:267-282 | Permission requires a non-empty nonce that verifies for the action. A raw ID that is not numeric is always refused. For a post object, permission holds exactly when the nonce verifies and the user has the type's capability. For a numeric ID, the same holds for the capability of the type `get_post` finds, and a missing post gives the capability `edit_`. |
| `Dispatch.AjaxTicketAdd` | src/Tribe/Tickets.php:290-333 | Missing `formdata`/`post_ID` gives "Bad post". A failed permission check then gives "Cheatin' huh?". An unregistered `ticket_provider` then gives "Bad module". Success and "Something went wrong" happen only after all three checks pass. The result is "Something went wrong" exactly when the checks pass and the save returns `false`. A truthy save answers with the notice and the aggregated ticket list. Any other empty save result goes through `ajax_ok`. |
| `Dispatch.AjaxTicketDelete` | src/Tribe/Tickets.php:429-467 | Missing `post_ID`/`ticket_id` gives "Bad post". A failed permission check gives "Cheatin' huh?". Success happens only after both checks pass. The result is "Something went wrong" exactly when the checks pass and the provider's delete returns `false`. A truthy delete answers with the notice and the aggregated ticket list. Any other empty delete result goes through `ajax_ok`, so it is a success. |
| `Dispatch.AjaxTicketEdit` | src/Tribe/Tickets.php:473-501 | The same "Bad post" and permission checks. The result is a success exactly when both checks pass. Its data is always an array: `advanced_fields` holds the provider's advanced-options output, and every other key keeps the ticket object's value. |
| `Dispatch.AjaxAttendeeCheckin` | src/Tribe/Tickets.php:377-397 | A missing or `intval`-zero `order_ID` gives "Bad post". An unregistered provider then gives "Bad module". A failed `checkin` nonce or a missing `edit_posts` then gives "Cheatin' huh?". Only when all pass is the handler's own provider's `checkin` result sent through `ajax_ok`. |
| `Dispatch.AjaxAttendeeUncheckin` | src/Tribe/Tickets.php:403-423 | The same order of checks, with nonce action `uncheckin` and capability `edit_tribe_events`, before `uncheckin` runs. |
| `Dispatch.CheckinConsultsProviderLast` | src/Tribe/Tickets.php:377-394 | While any check fails, replacing every provider changes nothing in the response. |
| `Dispatch.CheckinRejectsZeroOrder` | src/Tribe/Tickets.php:379-381 | Any `order_ID` that `intval` reads as 0 gives "Bad post" for both check-in handlers, whatever else is posted. |
| `Dispatch.ZeroOrderIds` | src/Tribe/Tickets.php:379 | `"0"`, `"-0"`, `"abc"`, `""` and `" 0x1A"` are all read as 0, so each is rejected as a bad post. |
| `Dispatch.OverflowingOrderIdIsGiven` | src/Tribe/Tickets.php:379-381 | An `order_ID` too large for 64 bits is read as `PHP_INT_MAX`, so it passes the "Bad post" check. |
| `Dispatch.AttendeeRequest` | src/Tribe/Tickets.php:377-423 | The shared check-in chain: "Bad post" exactly when `order_ID` is missing or zero. Then "Bad module" exactly when the provider is unregistered. Then "Cheatin' huh?" exactly when the nonce or the capability fails. Only after all three does the operation's result go through `ajax_ok`. |
| `Dispatch.TicketAdd` | src/Tribe/Tickets.php:343-369 | The result is what the provider's `save_ticket` returns for a ticket that carries the caller's class and the normalised price. Its ID is `absint(ticket_id)` when `ticket_id` is posted and null otherwise. Its name and description are the escaped posted text, or null when absent. |
| `Dispatch.TicketVars` | src/Tribe/Tickets.php:491 | An object's properties become string-keyed entries, in order. Anything that is not an object gives no entries. |
| `Aggregation.CheckinStep` | src/Tribe/Tickets.php:604-609 | The callback adds one to the running count exactly when the attendee's `check_in` is not empty. Otherwise the count is unchanged. |
| `Aggregation.ReduceCheckins` | src/Tribe/Tickets.php:589 | `array_reduce` from `acc` ends between `acc` and `acc` plus the number of attendees. |
| `Providers.NoEventForTicket` | src/Tribe/Tickets.php:110-112 | The base class answers `false` for every possible ticket, so it claims no ticket for any event. |
| `Php.IsEmpty` | src/Tribe/Tickets.php:349 | `empty()` holds exactly for null, `false`, 0, `""`, `"0"` and the empty array. An object is never empty. |
| `Dispatch.TemplateName` | src/Tribe/Tickets.php:736-738 | The name always ends in `.php`. A name that already ends with it is unchanged. Otherwise exactly `.php` is appended. |
| `Dispatch.TemplateFile` | src/Tribe/Tickets.php:734-744 | The theme's override under `tribe-events/` is used when it is found. Otherwise the plugin's view path is used, and it ends in `.php`. |
| `Dispatch.FrontEndTicketsFormInContent` | src/Tribe/Tickets.php:778-809 | The content is always a prefix of the result. The form is appended exactly when the post is a supported type other than `tribe_events` and this provider has tickets for it. |

## Left out

- The dates in `ticket_add` (src/Tribe/Tickets.php:356-364) are left out. They go through PHP's free-form `strtotime` and `date`, which depend on locale and timezone. The `Ticket` record has no start or end date.
- WordPress hook wiring is left out: `add_action`, `add_filter`, `do_action` and `apply_filters` (lines 248-263, 329, 463, 746). This is framework dispatch. In particular, `TemplateFile` is the file chosen before the `tribe_events_tickets_template_*` filter runs.
- `wp_verify_nonce`, `current_user_can`, `get_post`, `wp_parse_args`, `esc_html` and `is_numeric` on strings (as `has_permission` uses it) are opaque `Platform` functions. `locate_template` is the `locateTemplate` parameter of `TemplateFile`. The `is_numeric` that `get_ticket_prices` applies to a price string is the `numericString` parameter of `GetTicketPrices` and `MergePrices`. A caller passes the same predicate for both uses.
- The provider methods (`get_tickets`, `get_attendees`, `get_event_for_ticket`, `save_ticket`, `delete_ticket`, `get_ticket`, `checkin`, `uncheckin`, `do_metabox_advanced_options`, `front_end_tickets_form`) are opaque `Provider` functions. Their implementations live in other plugins.
- `get_instance()` is the function from class name to provider passed to every query. Singleton creation is not modelled.
- The constructor's other effects are not modelled: `className`, `parentPath`, `parentUrl` and `Tribe__Tickets__Tickets_Handler::instance()`.
- Output is not modelled: `header`, `echo json_encode(...)`, `exit`, output buffering, `generate_tickets_email_content` (it includes a template file) and `tr_class`. Handlers return a `Response` value instead.
- The notice HTML and the ticket-list markup are opaque string functions. So is the translation of their messages.
- `get_price_html` is not modelled. It is a stub that returns `''`.
- `GetTicketPrices`: `in_array` in `get_ticket_prices` compares loosely in PHP (so `"12.5"` equals `"12.50"`). The model uses exact equality, and only a float-free subset of PHP values exists.
- `GetEventAttendees`, `GetAllEventTickets`, `GetEventTickets`: `array_merge` overwrites string keys and renumbers integer keys. The model treats every list as a sequence and concatenates it.
- `IntVal`: follows `strtol`. It does not read the exponent form (`"1e3"`) that PHP 7.1 and later accept in numeric strings.
- `AbsInt`: returns an integer for `PHP_INT_MIN`, where PHP's `abs` returns a float.
- `TicketVars`: `get_object_vars` on a non-object (when `get_ticket` finds nothing) is treated as an empty array, as PHP 5/7 does after the later key assignment. PHP 8 raises a TypeError.
- `is_numeric` on a boolean or an array is false, and there are no floats. Prices are integers or strings.
- Posted fields are a map from names to strings (`FormData`). A field posted as an array (`name[]=…`) is not modelled.
