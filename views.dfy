/** The request-shaping rules of the views: the profile name split, the
    catalog viewsets' action-to-permission table, and how the order
    endpoint turns a request body into an order payload. */
module Views {
  import opened Wrappers
  import opened Text
  import opened Json
  import opened Models
  import opened Permissions

  // ---------------------------------------------------------------------
  // ProfileView.update: the "name" field
  // ---------------------------------------------------------------------

  /** `s.split(' ', 1)`: split at the first space character only. */
  function SplitOnce(s: string): (parts: seq<string>)
    ensures |parts| == 1 || |parts| == 2
    ensures |parts| == 1 <==> ' ' !in s
    ensures |parts| == 1 ==> parts[0] == s
    ensures |parts| == 2 ==> s == parts[0] + " " + parts[1] && ' ' !in parts[0]
  {
    var i := IndexOf(s, ' ');
    if i == |s| then [s]
    else
      assert s == s[..i] + " " + s[i + 1..];
      [s[..i], s[i + 1..]]
  }

  /** First and last name from a profile "name": the text before the first
      space and the text after it, each stripped; no space means no last
      name. Both come out without surrounding whitespace. */
  function SplitName(name: string): (r: (string, string))
    ensures Trimmed(r.0) && Trimmed(r.1)
    ensures ' ' !in name ==> r == (Strip(name), "")
  {
    var parts := SplitOnce(name);
    (Strip(parts[0]), if |parts| > 1 then Strip(parts[1]) else "")
  }

  /** Only the first space splits: everything after it, spaces included,
      becomes the last name. */
  lemma SplitNameAtFirstSpace(first: string, rest: string)
    requires ' ' !in first
    ensures SplitName(first + " " + rest) == (Strip(first), Strip(rest))
  {
    var s := first + " " + rest;
    var parts := SplitOnce(s);
    assert s[|first|] == ' ';
    assert |parts| == 2;
    assert parts[0] == first;
    assert parts[1] == s[|first| + 1..] == rest;
  }

  /** "A B C" gives first name "A" and last name "B C". */
  lemma SplitNameExample()
    ensures SplitName("A B C") == ("A", "B C")
  {
    var first, rest := "A", "B C";
    assert first + " " + rest == "A B C";
    assert Trimmed(first) && Trimmed(rest);
    SplitNameRoundTrip(first, rest);
  }

  /** Joining a first name (without spaces) and a last name with one space
      and splitting again gives both back. */
  lemma SplitNameRoundTrip(first: string, last: string)
    requires ' ' !in first && Trimmed(first) && Trimmed(last)
    ensures SplitName(first + " " + last) == (first, last)
  {
    SplitNameAtFirstSpace(first, last);
    StripKeepsTrimmed(first);
    StripKeepsTrimmed(last);
  }

  /** The name step of `ProfileView.update`: a truthy "name" that is a
      string sets first and last name from `SplitName`; an absent, null or
      empty "name" leaves both alone; any other truthy value has no `split`
      and raises `AttributeError` before anything is assigned. */
  method UpdateProfileName(user: User, data: map<string, Value>)
    returns (raised: Option<Exception>)
    modifies user`firstName, user`lastName
    ensures var name := Get(data, "name", Null);
            if !Truthy(name) then
              raised == None && unchanged(user)
            else if name.Str? then
              raised == None && (user.firstName, user.lastName) == SplitName(name.s)
            else
              raised == Some(AttributeError("split")) && unchanged(user)
  {
    var name := Get(data, "name", Null);
    raised := None;
    if Truthy(name) {
      if name.Str? {
        var parts := SplitOnce(name.s);
        user.firstName := Strip(parts[0]);
        user.lastName := if |parts| > 1 then Strip(parts[1]) else "";
      } else {
        raised := Some(AttributeError("split"));
      }
    }
  }

  // ---------------------------------------------------------------------
  // ProductViewset / CategoryViewset.get_permissions
  // ---------------------------------------------------------------------

  /** The DRF permission classes the catalog viewsets hand out. */
  datatype PermissionClass = AllowAny | IsAdminUser

  const ReadActions: set<string> := {"list", "retrieve"}
  const WriteActions: set<string> := {"create", "update", "partial_update", "destroy"}

  /** `get_permissions` of the product and the category viewsets (the two
      are the same code): read actions are open to all, write actions need
      an admin, and any other action, or none, carries no permission. */
  function CatalogPermissions(action: Option<string>): (perms: seq<PermissionClass>)
    ensures perms == [AllowAny] <==> action.Some? && action.value in ReadActions
    ensures perms == [IsAdminUser] <==> action.Some? && action.value in WriteActions
    ensures perms == [] <==> action.None? || (action.value !in ReadActions && action.value !in WriteActions)
  {
    if action == Some("list") || action == Some("retrieve") then [AllowAny]
    else if action.Some? && action.value in ["create", "update", "partial_update", "destroy"] then [IsAdminUser]
    else []
  }

  /** `has_permission` of the framework's classes: `AllowAny` always grants;
      `IsAdminUser` grants to a user object whose `is_staff` is set. */
  predicate Grants(perm: PermissionClass, user: Requester) {
    match perm
    case AllowAny => true
    case IsAdminUser => user.Account? && user.isStaff
  }

  /** A request passes when every permission in the list grants it. */
  predicate Permitted(perms: seq<PermissionClass>, user: Requester) {
    forall i :: 0 <= i < |perms| ==> Grants(perms[i], user)
  }

  /** What the table means for a request: only the write actions are
      restricted, and they admit exactly the staff. */
  lemma CatalogAccess(action: Option<string>, user: Requester)
    ensures Permitted(CatalogPermissions(action), user)
        <==> (action.Some? && action.value in WriteActions ==> user.Account? && user.isStaff)
  {
    var perms := CatalogPermissions(action);
    if action.Some? && action.value in WriteActions {
      assert perms[0] == IsAdminUser;
    }
  }

  /** `IsAdminUser` looks at `is_staff` only: a superuser who is not staff
      may not create, update or delete catalog entries. */
  lemma SuperuserWithoutStaffCannotWrite(action: string, seller: Option<bool>)
    requires action in WriteActions
    ensures !Permitted(CatalogPermissions(Some(action)), Account(false, true, seller))
  {
    assert CatalogPermissions(Some(action))[0] == IsAdminUser;
  }

  // ---------------------------------------------------------------------
  // OrderView.post
  // ---------------------------------------------------------------------

  /** One entry of `order_items`: a product reference and a quantity, both
      passed through from the request as they came. */
  datatype OrderLine = OrderLine(product: Value, quantity: Value)

  /** The data handed to the order serializer. */
  datatype OrderPayload = OrderPayload(user: Option<nat>, address: Value, orderItems: seq<OrderLine>)

  /** How the endpoint ends: the payload goes on to the order serializer,
      the request is refused with a status code, or an exception escapes. */
  datatype OrderPost =
    | Submitted(payload: OrderPayload)
    | Rejected(status: int, error: string)
    | Raised(exception: Exception)

  const BadRequest: int := 400

  /** A cart item the loop can read: an object holding "product_id". */
  predicate Orderable(item: Value) {
    item.Object? && "product_id" in item.fields
  }

  /** The order line for a readable cart item; the quantity defaults to 1. */
  function LineOf(item: Value): (line: OrderLine)
    requires Orderable(item)
    ensures line.product == item.fields["product_id"]
    ensures "quantity" !in item.fields ==> line.quantity == Num(1)
    ensures "quantity" in item.fields ==> line.quantity == item.fields["quantity"]
  {
    OrderLine(item.fields["product_id"], Get(item.fields, "quantity", Num(1)))
  }

  /** What reading "product_id" of an unreadable item raises. */
  function FailureOf(item: Value): (e: Exception)
    requires !Orderable(item)
  {
    if item.Object? then KeyError("product_id") else TypeError
  }

  /** `lines` has one line per item, in the same order. */
  ghost predicate LinesFor(items: seq<Value>, lines: seq<OrderLine>) {
    && |lines| == |items|
    && forall i :: 0 <= i < |items| ==> Orderable(items[i]) && lines[i] == LineOf(items[i])
  }

  /** Item `k` is the first one the loop cannot read, and `e` is what it raises. */
  ghost predicate FailsAt(items: seq<Value>, k: int, e: Exception) {
    && 0 <= k < |items|
    && (forall i :: 0 <= i < k ==> Orderable(items[i]))
    && !Orderable(items[k])
    && e == FailureOf(items[k])
  }

  /** What `for item in cart_items` iterates over: a list's elements, a
      string's characters; an empty object gives nothing, while the first
      key of a non-empty one is a string, which cannot be indexed by
      "product_id"; null, booleans and numbers are not iterable. */
  function CartItemsOf(v: Value): (r: Result<seq<Value>, Exception>)
    ensures v.Array? ==> r == Ok(v.items)
    ensures v.Str? ==> r.Ok? && |r.value| == |v.s|
                       && forall i :: 0 <= i < |v.s| ==> r.value[i] == Str([v.s[i]])
    ensures v.Object? ==> r == if v.fields == map[] then Ok([]) else Err(TypeError)
    ensures v.Null? || v.Bool? || v.Num? ==> r == Err(TypeError)
  {
    match v
    case Array(xs) => Ok(xs)
    case Str(s) => Ok(seq(|s|, i requires 0 <= i < |s| => Str([s[i]])))
    case Object(m) => if m == map[] then Ok([]) else Err(TypeError)
    case _ => Err(TypeError)
  }

  /** The loop of `OrderView.post` that builds `order_items_data`: one line
      per cart item, in order, or the exception of the first item that is
      not an object holding "product_id". */
  method BuildOrderLines(items: seq<Value>) returns (r: Result<seq<OrderLine>, Exception>)
    ensures r.Ok? <==> forall i :: 0 <= i < |items| ==> Orderable(items[i])
    ensures r.Ok? ==> LinesFor(items, r.value)
    ensures r.Err? ==> exists k :: FailsAt(items, k, r.error)
  {
    var lines: seq<OrderLine> := [];
    var i := 0;
    while i < |items|
      invariant 0 <= i <= |items|
      invariant |lines| == i
      invariant forall j :: 0 <= j < i ==> Orderable(items[j]) && lines[j] == LineOf(items[j])
    {
      var item := items[i];
      if !item.Object? {
        assert FailsAt(items, i, TypeError);
        return Err(TypeError);
      }
      if "product_id" !in item.fields {
        assert FailsAt(items, i, KeyError("product_id"));
        return Err(KeyError("product_id"));
      }
      lines := lines + [LineOf(item)];
      i := i + 1;
    }
    return Ok(lines);
  }

  /** `OrderView.post` up to the order serializer. With "product_id" the
      order has that one product, at the given quantity (default 1), and
      "cart_items" is ignored; otherwise with "cart_items" it has one line
      per cart item, in order; with neither the request is refused with 400
      "Invalid data". The address is passed through, null when absent. */
  method PostOrder(userId: Option<nat>, data: map<string, Value>) returns (r: OrderPost)
    ensures "product_id" in data ==>
              r == Submitted(OrderPayload(userId, Get(data, "address", Null),
                                          [OrderLine(data["product_id"], Get(data, "quantity", Num(1)))]))
    ensures "product_id" !in data && "cart_items" !in data ==>
              r == Rejected(BadRequest, "Invalid data")
    ensures "product_id" !in data && "cart_items" in data ==>
              match CartItemsOf(data["cart_items"])
              case Err(e) => r == Raised(e)
              case Ok(items) =>
                && (r.Submitted? <==> forall i :: 0 <= i < |items| ==> Orderable(items[i]))
                && (r.Submitted? || r.Raised?)
                && (r.Submitted? ==> r.payload.user == userId
                                     && r.payload.address == Get(data, "address", Null)
                                     && LinesFor(items, r.payload.orderItems))
                && (r.Raised? ==> exists k :: FailsAt(items, k, r.exception))
  {
    if "product_id" in data {
      var line := OrderLine(data["product_id"], Get(data, "quantity", Num(1)));
      r := Submitted(OrderPayload(userId, Get(data, "address", Null), [line]));
    } else if "cart_items" in data {
      var cart := CartItemsOf(data["cart_items"]);
      if cart.Err? {
        r := Raised(cart.error);
      } else {
        var lines := BuildOrderLines(cart.value);
        if lines.Err? {
          r := Raised(lines.error);
        } else {
          r := Submitted(OrderPayload(userId, Get(data, "address", Null), lines.value));
        }
      }
    } else {
      r := Rejected(BadRequest, "Invalid data");
    }
  }
}
