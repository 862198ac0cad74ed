/**
 * The product routes (backend/src/routes/product.routes.ts), mounted under
 * `/api/v1/products`: which handler chain a method and path reach, the
 * request-body checks of each chain, and the order in which authentication,
 * the seller gate, validation and the controller run.
 */
module ProductRoutes {
  import opened Wrappers
  import Strings
  import opened ErrorHandler
  import ValidateRequest
  import Auth

  // ---------------------------------------------------------------------
  // Request bodies and their checks
  // ---------------------------------------------------------------------

  /** A JSON body value: text (numbers, booleans and null by their text form), an array or an object. */
  datatype BodyValue = Text(text: string) | List(items: seq<BodyValue>) | Object(fields: map<string, BodyValue>)

  /** A parsed request body: its top-level fields. */
  type Body = map<string, BodyValue>

  /** The validators the routes use. */
  datatype Check = NotEmpty | IsNumeric | IsNonNegativeInt | IsArray

  /** Text without a leading `+` or `-`. */
  function Unsigned(s: string): string {
    if |s| > 0 && (s[0] == '+' || s[0] == '-') then s[1..] else s
  }

  /** validator.js `isNumeric`: an optional sign, optional digits and a point, then at least one digit. */
  predicate NumericText(s: string) {
    var b := Unsigned(s);
    (b != [] && Strings.AllDigits(b)) ||
    (exists k :: 0 <= k < |b| - 1 && b[k] == '.' && Strings.AllDigits(b[..k]) && Strings.AllDigits(b[k + 1..]))
  }

  /**
   * validator.js `isInt({ min: 0 })`: an optional sign and at least one digit
   * (leading zeros are allowed unless `allow_leading_zeroes: false` is given),
   * whose value is not negative; "-0" and "-00" have the value 0.
   */
  predicate NonNegativeIntText(s: string) {
    var b := Unsigned(s);
    b != [] && Strings.AllDigits(b) && (s[0] == '-' ==> forall i :: 0 <= i < |b| ==> b[i] == '0')
  }

  /**
   * A stock the check accepts is read by `parseInt(stock, 10)` in the
   * controller as the non-negative number its digits denote.
   */
  lemma StockParses(s: string)
    requires NonNegativeIntText(s)
    ensures Strings.ParseInt(s) == Some(Strings.DigitsValue(Unsigned(s)))
  {
    var b := Unsigned(s);
    Strings.AllDigitsLeading(b);
    if s[0] == '-' {
      Strings.ZerosValue(b);
    }
  }

  /** A text check on one value; an array is checked element by element, an object by `[object Object]`. */
  predicate PassesText(c: Check, s: string) {
    match c
    case NotEmpty => s != ""
    case IsNumeric => NumericText(s)
    case IsNonNegativeInt => NonNegativeIntText(s)
    case IsArray => false
  }

  predicate PassesValue(c: Check, v: BodyValue)
    decreases v
  {
    if c == IsArray then v.List?
    else
      match v
      case Text(s) => PassesText(c, s)
      case Object(_) => PassesText(c, "[object Object]")
      case List(items) =>
        if items == [] then PassesText(c, "")
        else forall i :: 0 <= i < |items| ==> PassesValue(c, items[i])
  }

  /** A missing field is checked as "" (and is never an array). */
  predicate Passes(c: Check, v: Option<BodyValue>) {
    if v.None? then c != IsArray && PassesText(c, "") else PassesValue(c, v.value)
  }

  /** The fields a chain checks: one top-level field, or every element (or a field of every element) of an array. */
  datatype Selector = Field(name: string) | EachOf(listName: string, member: Option<string>)

  /** `body(...)` with one validator, `.optional()` or not, and its message. */
  datatype Rule = Rule(selector: Selector, check: Check, optional: bool, message: string)

  /** `name[i]` or `name[i].member`, the path express-validator reports for an element. */
  function ElementPath(listName: string, i: nat, member: Option<string>): string {
    listName + "[" + Strings.DecimalText(i) + "]" + (if member.Some? then "." + member.value else "")
  }

  /** The value an element selector picks out of element `item`. */
  function Member(item: BodyValue, member: Option<string>): Option<BodyValue> {
    if member.None? then Some(item)
    else if item.Object? && member.value in item.fields then Some(item.fields[member.value])
    else None
  }

  /** The errors of one rule over the elements `items[from..]`. */
  function ElementErrors(rule: Rule, listName: string, member: Option<string>, items: seq<BodyValue>, from: nat)
    : (errors: seq<ValidateRequest.FieldError>)
    requires from <= |items|
    ensures errors == [] <==> forall i :: from <= i < |items| ==> Passes(rule.check, Member(items[i], member))
    decreases |items| - from
  {
    if from == |items| then []
    else
      var rest := ElementErrors(rule, listName, member, items, from + 1);
      if Passes(rule.check, Member(items[from], member)) then rest
      else [ValidateRequest.FieldError(Some(ElementPath(listName, from, member)), Some(rule.message))] + rest
  }

  /** The errors one rule reports on a body; an optional rule skips a missing field. */
  function RuleErrors(rule: Rule, body: Body): (errors: seq<ValidateRequest.FieldError>)
    ensures rule.selector.Field? ==> |errors| <= 1
  {
    match rule.selector
    case Field(name) =>
      var v := if name in body then Some(body[name]) else None;
      if (rule.optional && v.None?) || Passes(rule.check, v) then []
      else [ValidateRequest.FieldError(Some(name), Some(rule.message))]
    case EachOf(listName, member) =>
      if listName in body && body[listName].List? then ElementErrors(rule, listName, member, body[listName].items, 0)
      else []
  }

  /** The errors of all rules, in the order the rules are declared. */
  function Errors(rules: seq<Rule>, body: Body): (errors: seq<ValidateRequest.FieldError>)
    ensures errors == [] <==> forall i :: 0 <= i < |rules| ==> RuleErrors(rules[i], body) == []
  {
    if rules == [] then [] else RuleErrors(rules[0], body) + Errors(rules[1..], body)
  }

  const CreateRules := [
    Rule(Field("name"), NotEmpty, false, "Product name is required"),
    Rule(Field("description"), NotEmpty, false, "Product description is required"),
    Rule(Field("price"), IsNumeric, false, "Price must be a number"),
    Rule(Field("categoryId"), NotEmpty, false, "Category is required"),
    Rule(Field("stock"), IsNonNegativeInt, false, "Stock must be a positive integer")
  ]

  const UpdateRules := [
    Rule(Field("name"), NotEmpty, true, "Product name cannot be empty"),
    Rule(Field("price"), IsNumeric, true, "Price must be a number"),
    Rule(Field("stock"), IsNonNegativeInt, true, "Stock must be a positive integer")
  ]

  const AttributeRules := [
    Rule(Field("attributes"), IsArray, false, "Attributes must be an array"),
    Rule(EachOf("attributes", Some("name")), NotEmpty, false, "Attribute name is required"),
    Rule(EachOf("attributes", Some("value")), NotEmpty, false, "Attribute value is required")
  ]

  const TagRules := [
    Rule(Field("tags"), IsArray, false, "Tags must be an array"),
    Rule(EachOf("tags", None), NotEmpty, false, "Tag name is required")
  ]

  /** A required rule on a text field that rejects "": it passes exactly when the field is present and passes. */
  lemma RequiredTextRule(name: string, c: Check, message: string, body: Body)
    requires c != IsArray && !PassesText(c, "")
    requires forall k :: k in body ==> body[k].Text?
    ensures RuleErrors(Rule(Field(name), c, false, message), body) == [] <==> name in body && PassesText(c, body[name].text)
  {
  }

  /**
   * With text fields, a create body passes exactly when name, description
   * and category are non-empty, price is numeric and stock is a non-negative
   * integer.
   */
  lemma CreateBodyAccepted(body: Body)
    requires forall k :: k in body ==> body[k].Text?
    ensures Errors(CreateRules, body) == [] <==>
      && "name" in body && body["name"].text != ""
      && "description" in body && body["description"].text != ""
      && "price" in body && NumericText(body["price"].text)
      && "categoryId" in body && body["categoryId"].text != ""
      && "stock" in body && NonNegativeIntText(body["stock"].text)
  {
    var rs := CreateRules;
    RequiredTextRule("name", NotEmpty, "Product name is required", body);
    RequiredTextRule("description", NotEmpty, "Product description is required", body);
    RequiredTextRule("price", IsNumeric, "Price must be a number", body);
    RequiredTextRule("categoryId", NotEmpty, "Category is required", body);
    RequiredTextRule("stock", IsNonNegativeInt, "Stock must be a positive integer", body);
    if Errors(rs, body) == [] {
      assert RuleErrors(rs[0], body) == [] && RuleErrors(rs[1], body) == [] && RuleErrors(rs[2], body) == [];
      assert RuleErrors(rs[3], body) == [] && RuleErrors(rs[4], body) == [];
    }
    if RuleErrors(rs[0], body) == [] && RuleErrors(rs[1], body) == [] && RuleErrors(rs[2], body) == []
       && RuleErrors(rs[3], body) == [] && RuleErrors(rs[4], body) == [] {
      forall i | 0 <= i < |rs| ensures RuleErrors(rs[i], body) == [] {
        if i == 0 {} else if i == 1 {} else if i == 2 {} else if i == 3 {} else {}
      }
    }
  }

  /** An empty update body passes; so does any body that leaves out the checked fields. */
  lemma UpdateWithoutCheckedFields(body: Body)
    requires "name" !in body && "price" !in body && "stock" !in body
    ensures Errors(UpdateRules, body) == []
  {
  }

  /** A tags listName of texts passes exactly when no tag is empty. */
  lemma TagsAccepted(body: Body, tags: seq<string>)
    requires "tags" in body && body["tags"] == List(seq(|tags|, i requires 0 <= i < |tags| => Text(tags[i])))
    ensures Errors(TagRules, body) == [] <==> forall i :: 0 <= i < |tags| ==> tags[i] != ""
  {
    var items := body["tags"].items;
    assert forall i :: 0 <= i < |tags| ==> Member(items[i], None) == Some(Text(tags[i]));
  }

  /** Without an array of attributes only "Attributes must be an array" is reported. */
  lemma AttributesNotArray(body: Body)
    requires "attributes" !in body || !body["attributes"].List?
    ensures Errors(AttributeRules, body) ==
      [ValidateRequest.FieldError(Some("attributes"), Some("Attributes must be an array"))]
  {
  }

  /** Stock: "0", "12", "012", "+7" and "-0" pass; "-1", "1.5", "" and "+" do not. */
  lemma StockExamples()
    ensures NonNegativeIntText("0") && NonNegativeIntText("12") && NonNegativeIntText("012")
    ensures NonNegativeIntText("+7") && NonNegativeIntText("-0")
    ensures !NonNegativeIntText("-1") && !NonNegativeIntText("1.5") && !NonNegativeIntText("") && !NonNegativeIntText("+")
  {
    assert Unsigned("-1") == "1" && "1"[0] != '0';
    assert Unsigned("+7") == "7" && Unsigned("-0") == "0" && Unsigned("+") == "";
    assert Unsigned("1.5") == "1.5" && !Strings.IsDigit("1.5"[1]);
  }

  /** Price: "12", "-3.5" and ".5" pass, "" and "5." do not. */
  lemma PriceExamples()
    ensures NumericText("12") && NumericText("-3.5") && NumericText(".5")
    ensures !NumericText("") && !NumericText("5.")
  {
    assert Unsigned("-3.5") == "3.5";
    assert "3.5"[1] == '.' && Strings.AllDigits("3.5"[..1]) && Strings.AllDigits("3.5"[2..]);
    assert ".5"[0] == '.' && Strings.AllDigits(".5"[..0]) && Strings.AllDigits(".5"[1..]);
    assert !Strings.IsDigit("5."[1]);
  }

  // ---------------------------------------------------------------------
  // The route table
  // ---------------------------------------------------------------------

  datatype HttpMethod = GET | POST | PUT | DELETE

  datatype Action =
    | GetAllProducts | GetFeaturedProducts | GetProductById | CreateProduct | UpdateProduct
    | DeleteProduct | GetProductsBySeller | GetProductsByCategory | AddProductAttributes | AddProductTags

  /** A step of a route's handler chain. */
  datatype Handler =
    | Authenticate            // authMiddleware
    | RequireSeller           // sellerMiddleware
    | Validate(rules: seq<Rule>)   // the body(...) chains followed by validateRequest
    | Controller(action: Action)

  /** A path segment of a route: a literal or a `:name` parameter. */
  datatype Segment = Literal(text: string) | Param(name: string)

  datatype Route = Route(verb: HttpMethod, pattern: seq<Segment>, handlers: seq<Handler>)

  const SellerOnly := [Authenticate, RequireSeller]

  /** The routes in registration order, paths relative to `/api/v1/products`. */
  function Routes(): seq<Route> {
    [
      Route(GET, [], [Controller(GetAllProducts)]),
      Route(GET, [Literal("featured")], [Controller(GetFeaturedProducts)]),
      Route(GET, [Param("id")], [Controller(GetProductById)]),
      Route(POST, [], SellerOnly + [Validate(CreateRules), Controller(CreateProduct)]),
      Route(PUT, [Param("id")], SellerOnly + [Validate(UpdateRules), Controller(UpdateProduct)]),
      Route(DELETE, [Param("id")], SellerOnly + [Controller(DeleteProduct)]),
      Route(GET, [Literal("seller"), Param("sellerId")], [Controller(GetProductsBySeller)]),
      Route(GET, [Literal("category"), Param("categoryId")], [Controller(GetProductsByCategory)]),
      Route(POST, [Param("id"), Literal("attributes")], SellerOnly + [Validate(AttributeRules), Controller(AddProductAttributes)]),
      Route(POST, [Param("id"), Literal("tags")], SellerOnly + [Validate(TagRules), Controller(AddProductTags)])
    ]
  }

  /**
   * A pattern matches a path of the same length; a parameter takes any
   * non-empty segment. `Router()` is created without `caseSensitive`, so a
   * literal matches its text in any mix of upper and lower case.
   */
  predicate SegmentMatches(s: Segment, part: string) {
    match s
    case Literal(text) => Strings.LowerAscii(part) == Strings.LowerAscii(text)
    case Param(_) => part != ""
  }

  predicate PatternMatches(pattern: seq<Segment>, path: seq<string>) {
    |pattern| == |path| && forall i :: 0 <= i < |path| ==> SegmentMatches(pattern[i], path[i])
  }

  predicate RouteMatches(r: Route, verb: HttpMethod, path: seq<string>) {
    r.verb == verb && PatternMatches(r.pattern, path)
  }

  /** Index of the first route from `from` on that matches, or -1. */
  function FirstMatch(routes: seq<Route>, verb: HttpMethod, path: seq<string>, from: nat): (k: int)
    requires from <= |routes|
    ensures k == -1 || from <= k < |routes|
    ensures k >= 0 ==> RouteMatches(routes[k], verb, path)
    ensures k >= 0 ==> forall j :: from <= j < k ==> !RouteMatches(routes[j], verb, path)
    ensures k == -1 ==> forall j :: from <= j < |routes| ==> !RouteMatches(routes[j], verb, path)
    decreases |routes| - from
  {
    if from == |routes| then -1
    else if RouteMatches(routes[from], verb, path) then from
    else FirstMatch(routes, verb, path, from + 1)
  }

  /** The parameters a pattern binds on a matching path. */
  function Params(pattern: seq<Segment>, path: seq<string>): (m: map<string, string>)
    requires |pattern| == |path|
    ensures forall i :: 0 <= i < |pattern| && pattern[i].Param? ==> pattern[i].name in m
  {
    if pattern == [] then map[]
    else
      var rest := Params(pattern[1..], path[1..]);
      if pattern[0].Param? then rest[pattern[0].name := path[0]] else rest
  }

  /** The handler chain and parameters Express picks: the first registered route that matches. */
  function Resolve(verb: HttpMethod, path: seq<string>): (r: Option<(seq<Handler>, map<string, string>)>)
    ensures r.None? <==> forall j :: 0 <= j < |Routes()| ==> !RouteMatches(Routes()[j], verb, path)
  {
    var k := FirstMatch(Routes(), verb, path, 0);
    if k == -1 then None else Some((Routes()[k].handlers, Params(Routes()[k].pattern, path)))
  }

  /** The action a chain ends in. */
  function ActionOf(handlers: seq<Handler>): Option<Action> {
    if handlers != [] && handlers[|handlers| - 1].Controller? then Some(handlers[|handlers| - 1].action) else None
  }

  /** `GET /featured` reaches the featured listing, not the lookup by id: it is registered first. */
  lemma FeaturedBeforeId()
    ensures Resolve(GET, ["featured"]).Some? && ActionOf(Resolve(GET, ["featured"]).value.0) == Some(GetFeaturedProducts)
  {
    assert RouteMatches(Routes()[1], GET, ["featured"]);
    assert !RouteMatches(Routes()[0], GET, ["featured"]);
  }

  /** The literal of the featured route is already in lower case. */
  lemma FeaturedIsLower()
    ensures Strings.LowerAscii("featured") == "featured"
  {
    Strings.LowerAsciiFixes("featured");
  }

  /**
   * The featured listing answers "featured" in any case: `/FEATURED` and
   * `/Featured` never reach the lookup by id.
   */
  lemma FeaturedInAnyCase(part: string)
    requires Strings.LowerAscii(part) == "featured"
    ensures Resolve(GET, [part]) == Some(([Controller(GetFeaturedProducts)], map[]))
  {
    FeaturedIsLower();
    assert SegmentMatches(Routes()[1].pattern[0], [part][0]);
    assert RouteMatches(Routes()[1], GET, [part]);
    assert !RouteMatches(Routes()[0], GET, [part]);
    assert [Literal("featured")][1..] == [] && [part][1..] == [];
    assert Params([Literal("featured")], [part]) == map[];
  }

  /** `GET /FEATURED` is the featured listing. */
  lemma UpperCaseFeatured()
    ensures Resolve(GET, ["FEATURED"]) == Some(([Controller(GetFeaturedProducts)], map[]))
  {
    assert Strings.LowerAscii("FEATURED") == "featured";
    FeaturedInAnyCase("FEATURED");
  }

  /**
   * Any other single segment is a product id, including `seller` and
   * `category` alone; "featured" in any case is not.
   */
  lemma SingleSegmentIsId(id: string)
    requires id != "" && Strings.LowerAscii(id) != "featured"
    ensures Resolve(GET, [id]) == Some(([Controller(GetProductById)], map["id" := id]))
  {
    FeaturedIsLower();
    assert SegmentMatches(Routes()[2].pattern[0], [id][0]);
    assert RouteMatches(Routes()[2], GET, [id]);
    assert !SegmentMatches(Routes()[1].pattern[0], [id][0]);
    assert !RouteMatches(Routes()[0], GET, [id]) && !RouteMatches(Routes()[1], GET, [id]);
    assert [Param("id")][1..] == [] && [id][1..] == [];
    assert Params([Param("id")], [id]) == map["id" := id];
  }

  /** `GET /seller/:sellerId` binds the seller id. */
  lemma SellerListingRoute(sellerId: string)
    requires sellerId != ""
    ensures Resolve(GET, ["seller", sellerId]) == Some(([Controller(GetProductsBySeller)], map["sellerId" := sellerId]))
  {
    var path := ["seller", sellerId];
    var pattern := [Literal("seller"), Param("sellerId")];
    assert SegmentMatches(pattern[0], path[0]) && SegmentMatches(pattern[1], path[1]);
    assert RouteMatches(Routes()[6], GET, path);
    assert forall j :: 0 <= j < 6 ==> |Routes()[j].pattern| != 2;
    assert pattern[1..] == [Param("sellerId")] && path[1..] == [sellerId];
    assert pattern[1..][1..] == [] && path[1..][1..] == [];
    assert Params(pattern[1..], path[1..]) == map["sellerId" := sellerId];
    assert Params(pattern, path) == Params(pattern[1..], path[1..]);
  }

  /** Every route that changes data runs authentication, then the seller gate, and ends in its controller; every read is public. */
  lemma MutationsAreSellerOnly()
    ensures forall j :: 0 <= j < |Routes()| ==>
      var r := Routes()[j];
      ActionOf(r.handlers).Some? &&
      (r.verb != GET ==> |r.handlers| >= 3 && r.handlers[..2] == SellerOnly) &&
      (r.verb == GET ==> |r.handlers| == 1)
  {
  }

  /** Deleting is the only seller route without body validation. */
  lemma OnlyDeleteSkipsValidation()
    ensures forall j :: 0 <= j < |Routes()| && Routes()[j].verb != GET ==>
      (Routes()[j].handlers[2].Validate? <==> Routes()[j].verb != DELETE)
  {
  }

  // ---------------------------------------------------------------------
  // Running a chain
  // ---------------------------------------------------------------------

  /** What the services behind the chain answer for this request. */
  datatype RequestContext = RequestContext(
    authorization: Option<string>, reply: Auth.IdentityReply, users: map<string, Auth.UserRecord>, body: Body)

  /**
   * How a chain ends: an error passed to `next` (and on to the error
   * handler), the controller runs, the seller gate reads a user that was
   * never attached (a TypeError), or the chain ends without a controller.
   */
  datatype ChainResult =
    | Stopped(error: HttpError)
    | Reached(action: Action, user: Option<Auth.AuthUser>)
    | MissingUser
    | NoController

  /**
   * Run the handlers in order; the user attached by authentication is
   * visible to the later steps. A chain stops only with the 401 of
   * authentication, the 403 or 404 of the seller gate or the 400 of
   * validation, and a controller it reaches is one of its own handlers.
   */
  function Run(handlers: seq<Handler>, ctx: RequestContext, user: Option<Auth.AuthUser>): (r: ChainResult)
    ensures r.Stopped? ==> r.error.statusCode in {400, 401, 403, 404}
    ensures r.Reached? ==> Controller(r.action) in handlers
    decreases |handlers|
  {
    if handlers == [] then NoController
    else
      match handlers[0]
      case Controller(action) => Reached(action, user)
      case Authenticate =>
        (match Auth.AuthenticateAsWritten(ctx.authorization, ctx.reply, ctx.users)
         case Err(e) => Stopped(e)
         case Ok(u) => Run(handlers[1..], ctx, Some(u)))
      case RequireSeller =>
        if user.None? then MissingUser
        else
          var gate := Auth.SellerGate(user.value);
          if gate.Some? then Stopped(gate.value) else Run(handlers[1..], ctx, user)
      case Validate(rules) =>
        var failure := ValidateRequest.Rejection(Errors(rules, ctx.body));
        if failure.Some? then Stopped(failure.value) else Run(handlers[1..], ctx, user)
  }

  /**
   * The two seller middlewares in front of any rest of a chain: a failed
   * authentication or a refused seller gate stops the chain with its error,
   * otherwise the rest runs with the authenticated user attached.
   */
  lemma SellerPrefix(rest: seq<Handler>, ctx: RequestContext)
    ensures var auth := Auth.AuthenticateAsWritten(ctx.authorization, ctx.reply, ctx.users);
      Run(SellerOnly + rest, ctx, None) ==
        if auth.Err? then Stopped(auth.error)
        else if Auth.SellerGate(auth.value).Some? then Stopped(Auth.SellerGate(auth.value).value)
        else Run(rest, ctx, Some(auth.value))
  {
    var hs := SellerOnly + rest;
    assert hs[0] == Authenticate;
    assert hs[1..] == [RequireSeller] + rest;
    assert hs[1..][1..] == rest;
  }

  /** A validation step followed by the controller: the controller runs exactly when the body passes. */
  lemma ValidateThenController(rules: seq<Rule>, action: Action, ctx: RequestContext, u: Option<Auth.AuthUser>)
    ensures var failure := ValidateRequest.Rejection(Errors(rules, ctx.body));
      Run([Validate(rules), Controller(action)], ctx, u) ==
        if failure.Some? then Stopped(failure.value) else Reached(action, u)
  {
    assert [Validate(rules), Controller(action)][1..] == [Controller(action)];
  }

  /**
   * A seller route reaches its controller exactly when the caller is
   * authenticated, passes the seller gate and the body passes the rules; the
   * controller then sees the authenticated user.
   */
  lemma SellerChain(rules: seq<Rule>, action: Action, ctx: RequestContext)
    ensures var r := Run(SellerOnly + [Validate(rules), Controller(action)], ctx, None);
      var auth := Auth.AuthenticateAsWritten(ctx.authorization, ctx.reply, ctx.users);
      (r.Reached? <==> auth.Ok? && Auth.SellerGate(auth.value).None? && Errors(rules, ctx.body) == []) &&
      (r.Reached? ==> r == Reached(action, Some(auth.value)))
  {
    SellerPrefix([Validate(rules), Controller(action)], ctx);
    var auth := Auth.AuthenticateAsWritten(ctx.authorization, ctx.reply, ctx.users);
    if auth.Ok? {
      ValidateThenController(rules, action, ctx, Some(auth.value));
    }
  }

  /** The three chain shapes the routes use: public, seller-only, and seller-only with validation. */
  predicate ChainShape(hs: seq<Handler>) {
    || (|hs| == 1 && hs[0].Controller?)
    || (|hs| == 3 && hs[..2] == SellerOnly && hs[2].Controller?)
    || (|hs| == 4 && hs[..2] == SellerOnly && hs[2].Validate? && hs[3].Controller?)
  }

  lemma RoutesShaped()
    ensures forall j :: 0 <= j < |Routes()| ==> ChainShape(Routes()[j].handlers)
  {
  }

  /** A chain of one of the three shapes ends in an error or in its controller. */
  lemma ShapedChainComplete(hs: seq<Handler>, ctx: RequestContext)
    requires ChainShape(hs)
    ensures Run(hs, ctx, None).Stopped? || Run(hs, ctx, None).Reached?
  {
    if |hs| > 1 {
      var rest := hs[2..];
      assert hs == SellerOnly + rest;
      SellerPrefix(rest, ctx);
      var auth := Auth.AuthenticateAsWritten(ctx.authorization, ctx.reply, ctx.users);
      if auth.Ok? && |hs| == 4 {
        assert rest == [Validate(rest[0].rules), Controller(rest[1].action)];
        ValidateThenController(rest[0].rules, rest[1].action, ctx, Some(auth.value));
      }
    }
  }

  /** Every registered chain ends in an error or in its controller: a user is always attached before the seller gate reads it. */
  lemma ChainsComplete(j: int, ctx: RequestContext)
    requires 0 <= j < |Routes()|
    ensures Run(Routes()[j].handlers, ctx, None).Stopped? || Run(Routes()[j].handlers, ctx, None).Reached?
  {
    RoutesShaped();
    ShapedChainComplete(Routes()[j].handlers, ctx);
  }

  /** A failed authentication stops the chain with its 401 before anything else runs. */
  lemma AuthenticationFirst(rest: seq<Handler>, ctx: RequestContext)
    requires Auth.AuthenticateAsWritten(ctx.authorization, ctx.reply, ctx.users).Err?
    ensures var r := Run([Authenticate] + rest, ctx, None);
      r == Stopped(Auth.AuthenticateAsWritten(ctx.authorization, ctx.reply, ctx.users).error) &&
      r.error.statusCode == 401
  {
  }

  /**
   * A valid token whose user has no row is stopped on every seller route
   * with 401 "Authentication failed", not with the 404 the middleware raises.
   */
  lemma UnknownUserOnSellerRoute(rest: seq<Handler>, token: string, sub: string, users: map<string, Auth.UserRecord>, body: Body)
    requires token != "" && ' ' !in token && sub != "" && sub !in users
    ensures var ctx := RequestContext(Some(Auth.BearerPrefix + token),
        Auth.UserAttributes([Auth.CognitoAttribute("sub", Some(sub))]), users, body);
      Run(SellerOnly + rest, ctx, None) == Stopped(HttpError("Authentication failed", 401))
  {
    var ctx := RequestContext(Some(Auth.BearerPrefix + token),
      Auth.UserAttributes([Auth.CognitoAttribute("sub", Some(sub))]), users, body);
    Auth.UnknownUserAsWritten(token, sub, users);
    SellerPrefix(rest, ctx);
  }

  /** A customer is refused with 403 on every seller route, whatever the body. */
  lemma CustomersRefused(j: int, ctx: RequestContext)
    requires 0 <= j < |Routes()| && Routes()[j].verb != GET
    requires Auth.AuthenticateAsWritten(ctx.authorization, ctx.reply, ctx.users).Ok?
    requires Auth.AuthenticateAsWritten(ctx.authorization, ctx.reply, ctx.users).value.role == Auth.CUSTOMER
    ensures Run(Routes()[j].handlers, ctx, None) == Stopped(HttpError("Access denied. Seller role required", 403))
  {
    MutationsAreSellerOnly();
    CustomerStopsAtGate(Routes()[j].handlers, ctx);
  }

  /** Any chain that starts with the seller middlewares refuses a customer at the gate. */
  lemma CustomerStopsAtGate(hs: seq<Handler>, ctx: RequestContext)
    requires |hs| >= 2 && hs[..2] == SellerOnly
    requires Auth.AuthenticateAsWritten(ctx.authorization, ctx.reply, ctx.users).Ok?
    requires Auth.AuthenticateAsWritten(ctx.authorization, ctx.reply, ctx.users).value.role == Auth.CUSTOMER
    ensures Run(hs, ctx, None) == Stopped(HttpError("Access denied. Seller role required", 403))
  {
    assert hs == SellerOnly + hs[2..];
    SellerPrefix(hs[2..], ctx);
  }

  /** Invalid input is answered 400 through the error handler. */
  lemma InvalidBodyIs400(rules: seq<Rule>, action: Action, ctx: RequestContext, currentStatus: int, production: bool)
    requires Errors(rules, ctx.body) != []
    requires Auth.AuthenticateAsWritten(ctx.authorization, ctx.reply, ctx.users).Ok?
    requires Auth.SellerGate(Auth.AuthenticateAsWritten(ctx.authorization, ctx.reply, ctx.users).value).None?
    ensures var r := Run(SellerOnly + [Validate(rules), Controller(action)], ctx, None);
      r.Stopped? && HandleError(Thrown(r.error), currentStatus, production).status == 400
  {
    var u := Auth.AuthenticateAsWritten(ctx.authorization, ctx.reply, ctx.users).value;
    SellerPrefix([Validate(rules), Controller(action)], ctx);
    ValidateThenController(rules, action, ctx, Some(u));
  }
}
