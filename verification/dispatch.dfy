/**
 * The request side of the base class: the JSON envelope built by
 * `ajax_ok`/`ajax_error`, the permission test, the five AJAX handlers
 * with their checks in source order, the template file name rule and the
 * `the_content` filter. Each handler is a function from the posted fields
 * and the opaque collaborators to the response it sends.
 */
module Dispatch {
  import opened Php
  import opened TicketFields
  import opened Providers
  import opened Aggregation
  import opened Registry

  /** What a handler sends: `{success: false, message}` or `{success: true, data}`. */
  datatype Response = Error(message: string) | Ok(data: Value)

  const BAD_POST := "Bad post"
  const BAD_MODULE := "Bad module"
  const CHEATING := "Cheatin' huh?"
  const SOMETHING_WENT_WRONG := "Something went wrong"

  /**
   * The WordPress services the handlers call and whose behaviour is not
   * part of this model: `is_numeric` on strings, the post type `get_post`
   * finds for an ID, nonce verification, capability checks, `wp_parse_args`,
   * `esc_html`, and the markup of admin notices and of the ticket list.
   */
  datatype Platform = Platform(
    isNumeric: string -> bool,
    getPostType: string -> Option<string>,
    verifyNonce: (string, string) -> bool,
    userCan: string -> bool,
    parseArgs: string -> FormData,
    escape: string -> string,
    notice: string -> string,
    ticketListMarkup: seq<Ticket> -> string)

  // ---------------------------------------------------------------------------
  // Response envelope

  /** `get_object_vars`: an object's properties as a string-keyed array, in order. */
  function ObjectVars(props: seq<(string, Value)>): (entries: seq<(Key, Value)>)
    ensures |entries| == |props|
    ensures forall i :: 0 <= i < |props| ==> entries[i] == (StrKey(props[i].0), props[i].1)
  {
    seq(|props|, i requires 0 <= i < |props| => (StrKey(props[i].0), props[i].1))
  }

  /**
   * `ajax_ok`: `false` is turned into the error "Something went wrong";
   * an object is sent as its properties; an array or a string is sent as
   * it is; any other value is sent as an empty array.
   */
  function AjaxOk(data: Value): (r: Response)
    ensures r.Error? <==> data == Bool(false)
    ensures r.Error? ==> r.message == SOMETHING_WENT_WRONG
    ensures r.Ok? ==> r.data.Arr? || r.data.Str?
    ensures data.Arr? || data.Str? ==> r == Ok(data)
    ensures data.Obj? ==> r == Ok(Arr(ObjectVars(data.props)))
    ensures data.Null? || data.Int? || data == Bool(true) ==> r == Ok(Arr([]))
  {
    match data
    case Obj(props) => Ok(Arr(ObjectVars(props)))
    case Arr(_) => Ok(data)
    case Str(_) => Ok(data)
    case Bool(b) => if !b then Error(SOMETHING_WENT_WRONG) else Ok(Arr([]))
    case _ => Ok(Arr([]))
  }

  /** The value stored under `k` in a PHP array, if any. */
  function Lookup(entries: seq<(Key, Value)>, k: Key): Option<Value> {
    if entries == [] then None
    else if entries[0].0 == k then Some(entries[0].1)
    else Lookup(entries[1..], k)
  }

  /** `$array[$k] = $v`: overwrites an existing key in place, or appends the key. */
  function SetEntry(entries: seq<(Key, Value)>, k: Key, v: Value): (r: seq<(Key, Value)>)
    ensures Lookup(r, k) == Some(v)
    ensures forall other :: other != k ==> Lookup(r, other) == Lookup(entries, other)
    ensures Lookup(entries, k).Some? ==>
      exists i :: 0 <= i < |entries| && entries[i].0 == k && r == entries[i := (k, v)]
    ensures Lookup(entries, k).None? ==> r == entries + [(k, v)]
  {
    if entries == [] then [(k, v)]
    else if entries[0].0 == k then
      assert [(k, v)] + entries[1..] == entries[0 := (k, v)];
      [(k, v)] + entries[1..]
    else
      var tail := SetEntry(entries[1..], k, v);
      if Lookup(entries[1..], k).Some? then
        var i :| 0 <= i < |entries[1..]| && entries[1..][i].0 == k && tail == entries[1..][i := (k, v)];
        assert [entries[0]] + tail == entries[i + 1 := (k, v)];
        [entries[0]] + tail
      else
        [entries[0]] + tail
  }

  // ---------------------------------------------------------------------------
  // Permissions

  /** What `has_permission` is given as `$post`: a post object or a raw ID. */
  datatype PostArg = PostObject(postType: string) | PostId(id: string)

  /** The capability that guards editing a post of the given type. */
  function Capability(postType: string): (cap: string)
    ensures |cap| >= 5 && cap[..5] == "edit_"
    ensures postType == "post" ==> cap == "edit_posts"
    ensures postType == "page" ==> cap == "edit_pages"
    ensures postType != "post" && postType != "page" ==> cap == "edit_" + postType
  {
    var cap := "edit_" + postType;
    if postType == "post" || postType == "page" then cap + "s" else cap
  }

  /** A non-empty nonce that verifies for the action, and a user holding the capability. */
  predicate NonceAndCapability(data: FormData, nonceAction: string, cap: string, platform: Platform) {
    "nonce" in data && !IsEmptyString(data["nonce"])
    && platform.verifyNonce(data["nonce"], nonceAction)
    && platform.userCan(cap)
  }

  /**
   * `has_permission`: a raw ID must be numeric and is resolved to its post;
   * the capability is derived from the post type (an ID with no post gives
   * a null type and so the capability "edit_"); then the nonce and the
   * capability must both pass.
   */
  function HasPermission(post: PostArg, data: FormData, nonceAction: string, platform: Platform): (allowed: bool)
    ensures allowed ==> "nonce" in data && !IsEmptyString(data["nonce"])
                        && platform.verifyNonce(data["nonce"], nonceAction)
    ensures post.PostId? && !platform.isNumeric(post.id) ==> !allowed
    ensures post.PostObject? ==> (allowed <==> NonceAndCapability(data, nonceAction, Capability(post.postType), platform))
    ensures post.PostId? && platform.isNumeric(post.id) ==>
      var found := platform.getPostType(post.id);
      (allowed <==> NonceAndCapability(data, nonceAction, Capability(if found.Some? then found.value else ""), platform))
  {
    match post
    case PostObject(postType) => NonceAndCapability(data, nonceAction, Capability(postType), platform)
    case PostId(id) =>
      if !platform.isNumeric(id) then false
      else
        var postType := platform.getPostType(id);
        var typeName := if postType.Some? then postType.value else "";
        NonceAndCapability(data, nonceAction, Capability(typeName), platform)
  }

  // ---------------------------------------------------------------------------
  // Ticket add / delete / edit

  /**
   * `ticket_add`: builds the normalised ticket, stamped with the calling
   * provider's class, and returns what that provider's `save_ticket` says.
   */
  function TicketAdd(postId: EventId, data: FormData, self: ClassName, provider: Provider, escape: string -> string): (saved: Value)
    ensures exists t: Ticket ::
      && t.providerClass == Str(self)
      && t.price == NormalisePrice(Field(data, "ticket_price"))
      && (t.id == Null <==> "ticket_id" !in data)
      && ("ticket_id" in data ==> t.id == Int(AbsInt(data["ticket_id"])))
      && (t.name == Null <==> "ticket_name" !in data)
      && ("ticket_name" in data ==> t.name == Str(escape(data["ticket_name"])))
      && (t.description == Null <==> "ticket_description" !in data)
      && ("ticket_description" in data ==> t.description == Str(escape(data["ticket_description"])))
      && saved == provider.saveTicket(postId, t, data)
  {
    var t := BuildTicket(data, self, escape);
    provider.saveTicket(postId, t, data)
  }

  /** The fresh ticket list sent back after a successful save or delete. */
  function TicketListReply(reg: ProviderRegistry, postId: string, message: string,
                           instance: ClassName -> Provider, platform: Platform): Response
    reads reg
  {
    AjaxOk(Str(platform.notice(message) + platform.ticketListMarkup(Gather(reg.classes, TicketLists(instance, Str(postId))))))
  }

  /** `ticket_provider` names a registered provider. */
  predicate ProviderChosen(reg: ProviderRegistry, data: FormData)
    reads reg
    requires reg.Valid()
  {
    "ticket_provider" in data && reg.ModuleIsValid(data["ticket_provider"])
  }

  /** The checks `ajax_handler_ticket_add` makes before it saves anything. */
  predicate AddAllowed(reg: ProviderRegistry, post: FormData, platform: Platform)
    reads reg
    requires reg.Valid()
  {
    && "formdata" in post && "post_ID" in post
    && HasPermission(PostId(post["post_ID"]), post, "add_ticket_nonce", platform)
    && ProviderChosen(reg, platform.parseArgs(post["formdata"]))
  }

  /**
   * `ajax_handler_ticket_add`: missing `formdata` or `post_ID` is a bad
   * post; then the permission check; then the chosen provider must be
   * registered; only then is the ticket saved, through the handler's own
   * provider. A truthy save answers with the event's fresh ticket list.
   */
  function AjaxTicketAdd(reg: ProviderRegistry, self: ClassName, post: FormData,
                         instance: ClassName -> Provider, platform: Platform): (r: Response)
    reads reg
    requires reg.Valid()
    ensures r == Error(BAD_POST) <==> "formdata" !in post || "post_ID" !in post
    ensures r == Error(CHEATING) <==>
      "formdata" in post && "post_ID" in post
      && !HasPermission(PostId(post["post_ID"]), post, "add_ticket_nonce", platform)
    ensures r == Error(BAD_MODULE) <==>
      "formdata" in post && "post_ID" in post
      && HasPermission(PostId(post["post_ID"]), post, "add_ticket_nonce", platform)
      && !ProviderChosen(reg, platform.parseArgs(post["formdata"]))
    ensures r == Error(SOMETHING_WENT_WRONG) <==>
      AddAllowed(reg, post, platform)
      && TicketAdd(Str(post["post_ID"]), platform.parseArgs(post["formdata"]), self, instance(self), platform.escape) == Bool(false)
    ensures r.Ok? ==> AddAllowed(reg, post, platform)
    ensures AddAllowed(reg, post, platform) ==>
      var saved := TicketAdd(Str(post["post_ID"]), platform.parseArgs(post["formdata"]), self, instance(self), platform.escape);
      && (!IsEmpty(saved) ==> r == Ok(Str(platform.notice("Your ticket has been saved.")
                  + platform.ticketListMarkup(Gather(reg.classes, TicketLists(instance, Str(post["post_ID"])))))))
      && (IsEmpty(saved) ==> r == AjaxOk(saved))
  {
    if "formdata" !in post then Error(BAD_POST)
    else if "post_ID" !in post then Error(BAD_POST)
    else
      var data := platform.parseArgs(post["formdata"]);
      var postId := post["post_ID"];
      if !HasPermission(PostId(postId), post, "add_ticket_nonce", platform) then Error(CHEATING)
      else if !ProviderChosen(reg, data) then Error(BAD_MODULE)
      else
        var saved := TicketAdd(Str(postId), data, self, instance(self), platform.escape);
        if !IsEmpty(saved) then TicketListReply(reg, postId, "Your ticket has been saved.", instance, platform)
        else AjaxOk(saved)
  }

  /** `post_ID` and `ticket_id` are posted and `has_permission` passes for the nonce action. */
  predicate TicketRequestAllowed(post: FormData, nonceAction: string, platform: Platform) {
    && "post_ID" in post && "ticket_id" in post
    && HasPermission(PostId(post["post_ID"]), post, nonceAction, platform)
  }

  /**
   * `ajax_handler_ticket_delete`: missing `post_ID` or `ticket_id` is a bad
   * post; then the permission check; there is no provider check. A truthy
   * delete answers with the fresh ticket list; any other result goes
   * through `ajax_ok`, so only `false` is an error.
   */
  function AjaxTicketDelete(reg: ProviderRegistry, self: ClassName, post: FormData,
                            instance: ClassName -> Provider, platform: Platform): (r: Response)
    reads reg
    ensures r == Error(BAD_POST) <==> "post_ID" !in post || "ticket_id" !in post
    ensures r == Error(CHEATING) <==>
      "post_ID" in post && "ticket_id" in post
      && !HasPermission(PostId(post["post_ID"]), post, "remove_ticket_nonce", platform)
    ensures r == Error(SOMETHING_WENT_WRONG) <==>
      TicketRequestAllowed(post, "remove_ticket_nonce", platform)
      && instance(self).deleteTicket(Str(post["post_ID"]), post["ticket_id"]) == Bool(false)
    ensures r.Ok? ==> TicketRequestAllowed(post, "remove_ticket_nonce", platform)
    ensures TicketRequestAllowed(post, "remove_ticket_nonce", platform) ==>
      var deleted := instance(self).deleteTicket(Str(post["post_ID"]), post["ticket_id"]);
      && (!IsEmpty(deleted) ==> r == Ok(Str(platform.notice("Your ticket has been deleted.")
                  + platform.ticketListMarkup(Gather(reg.classes, TicketLists(instance, Str(post["post_ID"])))))))
      && (IsEmpty(deleted) ==> r == AjaxOk(deleted))
  {
    if "post_ID" !in post then Error(BAD_POST)
    else if "ticket_id" !in post then Error(BAD_POST)
    else
      var postId := post["post_ID"];
      if !HasPermission(PostId(postId), post, "remove_ticket_nonce", platform) then Error(CHEATING)
      else
        var deleted := instance(self).deleteTicket(Str(postId), post["ticket_id"]);
        if !IsEmpty(deleted) then TicketListReply(reg, postId, "Your ticket has been deleted.", instance, platform)
        else AjaxOk(deleted)
  }

  /** `get_object_vars` on what `get_ticket` returned; a non-object gives no fields. */
  function TicketVars(ticket: Value): (fields: seq<(Key, Value)>)
    ensures !ticket.Obj? ==> fields == []
    ensures ticket.Obj? ==> |fields| == |ticket.props|
    ensures ticket.Obj? ==> forall i :: 0 <= i < |fields| ==> fields[i] == (StrKey(ticket.props[i].0), ticket.props[i].1)
  {
    if ticket.Obj? then ObjectVars(ticket.props) else []
  }

  /**
   * `ajax_handler_ticket_edit`: the same two bad-post checks and the
   * permission check; then the ticket's fields, with the provider's
   * advanced-options output under `advanced_fields`, always as a success.
   */
  function AjaxTicketEdit(self: ClassName, post: FormData,
                          instance: ClassName -> Provider, platform: Platform): (r: Response)
    ensures r == Error(BAD_POST) <==> "post_ID" !in post || "ticket_id" !in post
    ensures r == Error(CHEATING) <==>
      "post_ID" in post && "ticket_id" in post
      && !HasPermission(PostId(post["post_ID"]), post, "edit_ticket_nonce", platform)
    ensures r.Ok? <==> TicketRequestAllowed(post, "edit_ticket_nonce", platform)
    ensures r.Ok? ==> r.data.Arr?
    ensures r.Ok? ==>
      var postId, ticketId := Str(post["post_ID"]), post["ticket_id"];
      var fields := TicketVars(instance(self).getTicket(postId, ticketId));
      && Lookup(r.data.entries, StrKey("advanced_fields")) == Some(Str(instance(self).advancedOptions(postId, ticketId)))
      && forall k :: k != StrKey("advanced_fields") ==> Lookup(r.data.entries, k) == Lookup(fields, k)
  {
    if "post_ID" !in post then Error(BAD_POST)
    else if "ticket_id" !in post then Error(BAD_POST)
    else
      var postId := post["post_ID"];
      if !HasPermission(PostId(postId), post, "edit_ticket_nonce", platform) then Error(CHEATING)
      else
        var ticketId := post["ticket_id"];
        var fields := TicketVars(instance(self).getTicket(Str(postId), ticketId));
        var extra := instance(self).advancedOptions(Str(postId), ticketId);
        AjaxOk(Arr(SetEntry(fields, StrKey("advanced_fields"), Str(extra))))
  }

  // ---------------------------------------------------------------------------
  // Check-in / uncheck-in

  /** `order_ID` is present and `intval` does not read it as 0. */
  predicate OrderIdGiven(post: FormData) {
    "order_ID" in post && IntVal(post["order_ID"]) != 0
  }

  /** `provider` is present and names a registered provider. */
  predicate ProviderGiven(reg: ProviderRegistry, post: FormData)
    reads reg
    requires reg.Valid()
  {
    "provider" in post && reg.ModuleIsValid(post["provider"])
  }

  /** The check chain the two check-in handlers share, in their order. */
  function AttendeeRequest(reg: ProviderRegistry, post: FormData, nonceAction: string, cap: string,
                           operation: string -> Value, platform: Platform): (r: Response)
    reads reg
    requires reg.Valid()
    ensures r == Error(BAD_POST) <==> !OrderIdGiven(post)
    ensures r == Error(BAD_MODULE) <==> OrderIdGiven(post) && !ProviderGiven(reg, post)
    ensures r == Error(CHEATING) <==>
      OrderIdGiven(post) && ProviderGiven(reg, post) && !NonceAndCapability(post, nonceAction, cap, platform)
    ensures OrderIdGiven(post) && ProviderGiven(reg, post) && NonceAndCapability(post, nonceAction, cap, platform) ==>
      r == AjaxOk(operation(post["order_ID"]))
  {
    if !OrderIdGiven(post) then Error(BAD_POST)
    else if !ProviderGiven(reg, post) then Error(BAD_MODULE)
    else if !NonceAndCapability(post, nonceAction, cap, platform) then Error(CHEATING)
    else AjaxOk(operation(post["order_ID"]))
  }

  /**
   * `ajax_handler_attendee_checkin`: a missing or zero `order_ID` is reported
   * first, then an unregistered provider, then a failed nonce or missing
   * `edit_posts`; the handler's own provider checks the attendee in only
   * when all three pass.
   */
  function AjaxAttendeeCheckin(reg: ProviderRegistry, self: ClassName, post: FormData,
                               instance: ClassName -> Provider, platform: Platform): (r: Response)
    reads reg
    requires reg.Valid()
    ensures r == Error(BAD_POST) <==> !OrderIdGiven(post)
    ensures r == Error(BAD_MODULE) <==> OrderIdGiven(post) && !ProviderGiven(reg, post)
    ensures r == Error(CHEATING) <==>
      OrderIdGiven(post) && ProviderGiven(reg, post) && !NonceAndCapability(post, "checkin", "edit_posts", platform)
    ensures OrderIdGiven(post) && ProviderGiven(reg, post) && NonceAndCapability(post, "checkin", "edit_posts", platform) ==>
      r == AjaxOk(instance(self).checkin(post["order_ID"]))
  {
    AttendeeRequest(reg, post, "checkin", "edit_posts", instance(self).checkin, platform)
  }

  /**
   * `ajax_handler_attendee_uncheckin`: the same order of checks, with the
   * nonce action "uncheckin" and the capability `edit_tribe_events`.
   */
  function AjaxAttendeeUncheckin(reg: ProviderRegistry, self: ClassName, post: FormData,
                                 instance: ClassName -> Provider, platform: Platform): (r: Response)
    reads reg
    requires reg.Valid()
    ensures r == Error(BAD_POST) <==> !OrderIdGiven(post)
    ensures r == Error(BAD_MODULE) <==> OrderIdGiven(post) && !ProviderGiven(reg, post)
    ensures r == Error(CHEATING) <==>
      OrderIdGiven(post) && ProviderGiven(reg, post) && !NonceAndCapability(post, "uncheckin", "edit_tribe_events", platform)
    ensures OrderIdGiven(post) && ProviderGiven(reg, post) && NonceAndCapability(post, "uncheckin", "edit_tribe_events", platform) ==>
      r == AjaxOk(instance(self).uncheckin(post["order_ID"]))
  {
    AttendeeRequest(reg, post, "uncheckin", "edit_tribe_events", instance(self).uncheckin, platform)
  }

  /**
   * Until every check has passed, no provider is asked anything: swapping
   * all providers for others leaves the response unchanged.
   */
  lemma CheckinConsultsProviderLast(reg: ProviderRegistry, self: ClassName, post: FormData,
                                    instance: ClassName -> Provider, other: ClassName -> Provider, platform: Platform)
    requires reg.Valid()
    requires !(OrderIdGiven(post) && ProviderGiven(reg, post) && NonceAndCapability(post, "checkin", "edit_posts", platform))
    ensures AjaxAttendeeCheckin(reg, self, post, instance, platform) == AjaxAttendeeCheckin(reg, self, post, other, platform)
  {
  }

  /** An order ID that `intval` reads as 0 is a bad post for both handlers, whatever else is sent. */
  lemma CheckinRejectsZeroOrder(reg: ProviderRegistry, self: ClassName, post: FormData,
                                instance: ClassName -> Provider, platform: Platform)
    requires reg.Valid()
    requires "order_ID" in post && IntVal(post["order_ID"]) == 0
    ensures AjaxAttendeeCheckin(reg, self, post, instance, platform) == Error(BAD_POST)
    ensures AjaxAttendeeUncheckin(reg, self, post, instance, platform) == Error(BAD_POST)
  {
  }

  /** Order IDs `intval` reads as 0: "0", "-0", text with no leading digits, and a hex literal. */
  lemma ZeroOrderIds()
    ensures IntVal("0") == 0 && IntVal("-0") == 0 && IntVal("abc") == 0 && IntVal("") == 0 && IntVal(" 0x1A") == 0
  {
    IntValOfDecimal(0, "");
    assert DecimalString(0) + "" == "0";
    IntValOfDecimal(0, "x1A");
    assert DecimalString(0) + "x1A" == "0x1A";
  }

  /**
   * An order ID too large for a 64-bit integer is read as `PHP_INT_MAX`,
   * not as 0, so it passes the "Bad post" check of both handlers.
   */
  lemma OverflowingOrderIdIsGiven(n: nat, post: FormData)
    requires n > PHP_INT_MAX
    requires "order_ID" in post && post["order_ID"] == DecimalString(n)
    ensures IntVal(post["order_ID"]) == PHP_INT_MAX
    ensures OrderIdGiven(post)
  {
    IntValSaturates(n, "");
    assert DecimalString(n) + "" == DecimalString(n);
  }

  // ---------------------------------------------------------------------------
  // Templates and the content filter

  predicate HasPhpSuffix(s: string) {
    |s| >= 4 && s[|s| - 4..] == ".php"
  }

  /**
   * The template name `getTemplateHierarchy` looks up: ".php" is appended
   * unless the name already ends with it, so the name always ends with it
   * and applying the rule twice changes nothing.
   */
  function TemplateName(template: string): (name: string)
    ensures HasPhpSuffix(name)
    ensures HasPhpSuffix(template) ==> name == template
    ensures !HasPhpSuffix(template) ==> |name| == |template| + 4 && name[..|template|] == template
  {
    if !HasPhpSuffix(template) then template + ".php" else template
  }

  /**
   * The file `getTemplateHierarchy` picks: the theme's override under
   * "tribe-events/" when `locateTemplate` finds one, else the plugin's view.
   */
  function TemplateFile(template: string, pluginPath: string, locateTemplate: string -> string): (file: string)
    ensures var theme := locateTemplate("tribe-events/" + TemplateName(template));
      && (!IsEmptyString(theme) ==> file == theme)
      && (IsEmptyString(theme) ==> file == pluginPath + "src/views/" + TemplateName(template) && HasPhpSuffix(file))
  {
    var name := TemplateName(template);
    var theme := locateTemplate("tribe-events/" + name);
    if !IsEmptyString(theme) then theme
    else
      var file := pluginPath + "src/views/" + name;
      assert file[|file| - 4..] == name[|name| - 4..];
      file
  }

  /** The global `$post` when it is a `WP_Post`. */
  datatype PostRecord = PostRecord(id: Value, postType: string)

  /**
   * `front_end_tickets_form_in_content`: the content is returned untouched
   * unless the post is a supported type other than `tribe_events` with
   * tickets from this provider, in which case the form is appended.
   */
  function FrontEndTicketsFormInContent(post: Option<PostRecord>, content: string, supportedTypes: seq<string>,
                                        provider: Provider): (r: string)
    ensures |content| <= |r| && r[..|content|] == content
    ensures var shown := post.Some? && post.value.postType in supportedTypes
                         && post.value.postType != "tribe_events" && provider.getTickets(post.value.id) != [];
      && (shown ==> r == content + provider.frontEndForm(content))
      && (!shown ==> r == content)
  {
    if post.None? then content
    else if post.value.postType !in supportedTypes then content
    else if post.value.postType == "tribe_events" then content
    else if provider.getTickets(post.value.id) == [] then content
    else content + provider.frontEndForm(content)
  }
}
