/**
 * The registry of documented calls (`DocBuilder`): calls in registration
 * order, plus the interceptor context (method, uri, action) of the route
 * being hit, which `register` uses to fill in what the call leaves empty.
 * `DOCUMENTATION_MODE` is an explicit argument.
 */
module DocBuilders {
  import opened Wrappers
  import opened Strings
  import opened Framework
  import opened ApiCalls

  /** The three interceptor slots; None is a missing key or a null value. */
  datatype Interceptor = Interceptor(httpMethod: Option<string>, uri: Option<string>, action: Option<string>)

  const NoInterceptor := Interceptor(None, None, None)

  /** The exceptions `register` throws. */
  datatype RegisterError =
    | MissingRoute                      // no route on the call and none intercepted
    | UnknownController(cls: string)    // `new ReflectionClass` on a class that does not exist

  /** What `register` leaves behind: the call's new state, whether it was stored, and any exception. */
  datatype Registration = Registration(call: CallRecord, stored: bool, error: Option<RegisterError>)

  /** A non-empty slot: `!empty($this->attributes[$k])`. */
  predicate Filled(slot: Option<string>) {
    slot.Some? && !EmptyStr(slot.value)
  }

  /** The default name, chosen by the lower-cased method and, for reads, the lower-cased action. */
  function DefaultName(group: string, lowerMethod: string, action: Option<string>, fw: Helpers): string {
    var singular := fw.singular(group);
    if lowerMethod == "post" then "Create a " + singular
    else if lowerMethod == "delete" then "Delete a " + singular
    else if lowerMethod == "put" || lowerMethod == "patch" then "Update a " + singular
    else if action.Some? && Contains(Lower(action.value), "index") then "Search " + singular
    else if action.Some? && Contains(Lower(action.value), "search") then "List " + group
    else "Get a " + singular
  }

  /** The group taken from the controller: its short class name without `Controller`. */
  function ControllerGroup(action: string, fw: Helpers): Result<string, RegisterError> {
    var cls := Split(action, '@')[0];
    match fw.shortClassName(cls)
    case None => Failure(UnknownController(cls))
    case Some(short) => Success(ReplaceAll(short, "Controller", ""))
  }

  /** The steps of `register` after the route is known: method, group, name, then the `Misc` group. */
  function CompleteCall(c: CallRecord, ctx: Interceptor, fw: Helpers): Registration {
    var c1 := if !EmptyStr(c.httpMethod) then c
      else c.(httpMethod := if Filled(ctx.httpMethod) then ctx.httpMethod.value else "get");
    var found := if EmptyStr(c1.group) && ctx.action.Some? then ControllerGroup(ctx.action.value, fw) else Success(c1.group);
    if found.Failure? then Registration(c1, false, Some(found.error))
    else
      var group := found.value;
      var c2 := c1.(group := group);
      var c3 := if EmptyStr(c2.name) then c2.(name := DefaultName(group, Lower(c2.httpMethod), ctx.action, fw)) else c2;
      var c4 := if EmptyStr(group) then c3.(group := "Misc") else c3;
      Registration(c4, true, None)
  }

  /** `register($call)` on the call's state. */
  function Registered(c: CallRecord, documentationMode: bool, ctx: Interceptor, fw: Helpers): Registration {
    if !documentationMode then Registration(c, false, None)
    else if c.define.Some? then
      Registration(if EmptyStr(c.group) then c.(group := fw.snake(c.define.value.title)) else c, true, None)
    else
      var c1 := if c.addDefaultHeaders then c.(use := c.use + ["default_headers"]) else c;
      if !EmptyStr(c1.route) then CompleteCall(c1, ctx, fw)
      else if Filled(ctx.uri) then CompleteCall(c1.(route := ctx.uri.value), ctx, fw)
      else Registration(c1, false, Some(MissingRoute))
  }

  /** Outside documentation mode `register` does nothing. */
  lemma RegisterInert(c: CallRecord, ctx: Interceptor, fw: Helpers)
    ensures Registered(c, false, ctx, fw) == Registration(c, false, None)
  {
  }

  /** A fragment is stored at once: only an empty group is filled in, from its title. */
  lemma RegisterFragment(c: CallRecord, ctx: Interceptor, fw: Helpers)
    requires c.define.Some?
    ensures var reg := Registered(c, true, ctx, fw);
      && reg.stored && reg.error.None?
      && reg.call.use == c.use && reg.call.route == c.route
      && reg.call.httpMethod == c.httpMethod && reg.call.name == c.name
      && (EmptyStr(c.group) ==> reg.call.group == fw.snake(c.define.value.title))
      && (!EmptyStr(c.group) ==> reg.call == c)
  {
  }

  /** A non-fragment that wants default headers uses `default_headers`, whether or not it is stored. */
  lemma RegisterDefaultHeaders(c: CallRecord, ctx: Interceptor, fw: Helpers)
    requires c.define.None? && c.addDefaultHeaders
    ensures Registered(c, true, ctx, fw).call.use == c.use + ["default_headers"]
  {
  }

  /** Without a route of its own or an intercepted uri, the call is refused and not stored. */
  lemma RegisterNeedsRoute(c: CallRecord, ctx: Interceptor, fw: Helpers)
    requires c.define.None? && EmptyStr(c.route) && !Filled(ctx.uri)
    ensures var reg := Registered(c, true, ctx, fw);
      !reg.stored && reg.error == Some(MissingRoute)
  {
  }

  /** A stored non-fragment has a route, a method, a group and a name. */
  lemma RegisterComplete(c: CallRecord, ctx: Interceptor, fw: Helpers)
    requires c.define.None?
    requires Registered(c, true, ctx, fw).stored
    ensures var r := Registered(c, true, ctx, fw).call;
      !EmptyStr(r.route) && !EmptyStr(r.httpMethod) && !EmptyStr(r.group) && !EmptyStr(r.name)
  {
    var c1 := if c.addDefaultHeaders then c.(use := c.use + ["default_headers"]) else c;
    var c0 := if !EmptyStr(c1.route) then c1 else c1.(route := ctx.uri.value);
    CompleteCallFills(c0, ctx, fw);
  }

  lemma CompleteCallFills(c: CallRecord, ctx: Interceptor, fw: Helpers)
    requires CompleteCall(c, ctx, fw).stored
    ensures var r := CompleteCall(c, ctx, fw);
      && r.call.route == c.route && !EmptyStr(r.call.httpMethod) && !EmptyStr(r.call.group) && !EmptyStr(r.call.name)
      && r.error.None?
  {
    var r := CompleteCall(c, ctx, fw);
    var c1 := if !EmptyStr(c.httpMethod) then c
      else c.(httpMethod := if Filled(ctx.httpMethod) then ctx.httpMethod.value else "get");
    assert !EmptyStr(c1.httpMethod);
    if EmptyStr(c1.name) {
      var n := DefaultName(r.call.group, Lower(c1.httpMethod), ctx.action, fw);
      DefaultNameFilled(if EmptyStr(c1.group) && ctx.action.Some? then ControllerGroup(ctx.action.value, fw).value else c1.group,
        Lower(c1.httpMethod), ctx.action, fw);
    }
  }

  /** Every default name is at least a verb and a space, so never empty. */
  lemma DefaultNameFilled(group: string, lowerMethod: string, action: Option<string>, fw: Helpers)
    ensures |DefaultName(group, lowerMethod, action, fw)| >= 5
  {
  }

  /** For a read, an action mentioning `index` wins over one mentioning `search`. */
  lemma IndexBeatsSearch(group: string, action: string, fw: Helpers)
    requires Contains(Lower(action), "index") && Contains(Lower(action), "search")
    ensures DefaultName(group, "get", Some(action), fw) == "Search " + fw.singular(group)
  {
  }

  /** Without a group or an action the name is built from the empty group, and only then is the group `Misc`. */
  lemma MiscAfterName(c: CallRecord, ctx: Interceptor, fw: Helpers)
    requires !EmptyStr(c.route) && !EmptyStr(c.httpMethod)
    requires EmptyStr(c.group) && EmptyStr(c.name) && ctx.action.None?
    ensures var r := CompleteCall(c, ctx, fw);
      && r.stored && r.call.group == "Misc"
      && r.call.name == DefaultName(c.group, Lower(c.httpMethod), None, fw)
  {
  }

  /** The second half of `register`, on the call object: method, group, name and the `Misc` group. */
  method CompleteCallIn(call: APICall, ctx: Interceptor, fw: Helpers) returns (stored: bool, error: Option<RegisterError>)
    modifies call
    ensures var reg := CompleteCall(old(call.Record()), ctx, fw);
      call.Record() == reg.call && stored == reg.stored && error == reg.error
  {
    ghost var c := call.Record();
    ghost var c1 := if !EmptyStr(c.httpMethod) then c
      else c.(httpMethod := if Filled(ctx.httpMethod) then ctx.httpMethod.value else "get");
    if EmptyStr(call.httpMethod) {
      if Filled(ctx.httpMethod) {
        call.SetMethod(ctx.httpMethod.value);
      } else {
        call.SetMethod("get");
      }
    }
    assert call.Record() == c1;
    var group := call.group;
    if EmptyStr(group) && ctx.action.Some? {
      var cls := Split(ctx.action.value, '@')[0];
      var short := fw.shortClassName(cls);
      if short.None? {
        assert ControllerGroup(ctx.action.value, fw) == Failure(UnknownController(cls));
        return false, Some(UnknownController(cls));
      }
      group := ReplaceAll(short.value, "Controller", "");
      assert ControllerGroup(ctx.action.value, fw) == Success(group);
      call.SetGroup(group);
    }
    ghost var c2 := c1.(group := group);
    assert call.Record() == c2;
    ghost var c3 := if EmptyStr(c2.name) then c2.(name := DefaultName(group, Lower(c2.httpMethod), ctx.action, fw)) else c2;
    if EmptyStr(call.name) {
      call.SetName(DefaultName(group, Lower(call.httpMethod), ctx.action, fw));
    }
    assert call.Record() == c3;
    if EmptyStr(group) {
      call.SetGroup("Misc");
    }
    assert CompleteCall(c, ctx, fw) == Registration(call.Record(), true, None);
    stored, error := true, None;
  }

  /** The registry object. */
  class DocBuilder {
    var apiCalls: seq<APICall>
    var interceptor: Interceptor

    constructor()
      ensures apiCalls == [] && interceptor == NoInterceptor
    {
      apiCalls := [];
      interceptor := NoInterceptor;
    }

    /** `reset()`: forget every registered call; the interceptor stays. */
    method Reset()
      modifies this
      ensures apiCalls == [] && interceptor == old(interceptor)
    {
      apiCalls := [];
    }

    /** `setInterceptor($method, $uri, $action)` overwrites all three slots. */
    method SetInterceptor(m: Option<string>, uri: Option<string>, action: Option<string>)
      modifies this
      ensures interceptor == Interceptor(m, uri, action) && apiCalls == old(apiCalls)
    {
      interceptor := Interceptor(m, uri, action);
    }

    /** `clearInterceptor()` empties all three slots. */
    method ClearInterceptor()
      modifies this
      ensures interceptor == NoInterceptor && apiCalls == old(apiCalls)
    {
      interceptor := NoInterceptor;
    }

    /** `register($call)`: the call is completed in place and, unless refused, appended. */
    method Register(call: APICall, documentationMode: bool, fw: Helpers) returns (r: Outcome<RegisterError>)
      modifies this, call
      ensures var reg := Registered(old(call.Record()), documentationMode, old(interceptor), fw);
        && call.Record() == reg.call
        && apiCalls == old(apiCalls) + (if reg.stored then [call] else [])
        && interceptor == old(interceptor)
        && r == (if reg.error.Some? then Fail(reg.error.value) else Pass)
    {
      if !documentationMode {
        return Pass;
      }
      if call.define.Some? {
        if EmptyStr(call.group) {
          call.SetGroup(fw.snake(call.define.value.title));
        }
        apiCalls := apiCalls + [call];
        return Pass;
      }
      if call.addDefaultHeaders {
        call.SetUse("default_headers");
      }
      if EmptyStr(call.route) {
        if Filled(interceptor.uri) {
          call.SetRoute(interceptor.uri.value);
        } else {
          return Fail(MissingRoute);
        }
      }
      var stored, error := CompleteCallIn(call, interceptor, fw);
      if stored {
        apiCalls := apiCalls + [call];
      }
      r := if error.Some? then Fail(error.value) else Pass;
    }

    /** `findByDefinition($title)`: the first registered call defined under that title, if any. */
    method FindByDefinition(title: string) returns (r: Option<APICall>)
      ensures r.None? <==> forall i :: 0 <= i < |apiCalls| ==> !DefinedAs(apiCalls[i].define, title)
      ensures r.Some? ==> exists i :: (0 <= i < |apiCalls| && apiCalls[i] == r.value
        && DefinedAs(apiCalls[i].define, title)
        && (forall j :: 0 <= j < i ==> !DefinedAs(apiCalls[j].define, title)))
    {
      var i := 0;
      while i < |apiCalls|
        invariant 0 <= i <= |apiCalls|
        invariant forall j :: 0 <= j < i ==> !DefinedAs(apiCalls[j].define, title)
      {
        if DefinedAs(apiCalls[i].define, title) {
          return Some(apiCalls[i]);
        }
        i := i + 1;
      }
      r := None;
    }

    /** `getApiCalls()`: the registered calls, in registration order. */
    method GetApiCalls() returns (calls: seq<APICall>)
      ensures calls == apiCalls
    {
      calls := apiCalls;
    }
  }

  /** `isset($define['title']) && $define['title'] === $title` */
  predicate DefinedAs(d: Option<Define>, title: string) {
    d.Some? && d.value.title == title
  }
}
