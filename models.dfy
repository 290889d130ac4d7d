/** The data model of the store: cart pricing, the cart status choices and
    the user account with its phone-number field validator. */
module Models {
  import opened Wrappers
  import opened Text
  import opened Json

  // ---------------------------------------------------------------------
  // Cart pricing
  // ---------------------------------------------------------------------

  /** An amount of money as a whole number of paise (hundredths of a rupee).
      The source's `DecimalField(decimal_places=2)` values are exact
      decimals, and subtraction and multiplication by a whole quantity stay
      exact at the declared digit counts, so whole paise lose nothing. */
  type Paise = int

  /** A cart line: the product, how many, the price snapshotted when the
      line was added and an optional (nullable) discount per unit. */
  datatype CartItem = CartItem(
    product: nat,
    quantity: nat,
    priceAtTime: Paise,
    discount: Option<Paise>)

  /** `CartItem.total_price`: the unit price less the discount (0 when the
      discount is null), times the quantity. Nothing stops a discount larger
      than the price, in which case the line total is negative. */
  function ItemTotal(item: CartItem): (r: Paise)
    ensures item.quantity == 0 ==> r == 0
    ensures item.quantity > 0 ==> (r < 0 <==> item.discount.GetOr(0) > item.priceAtTime)
    ensures item.quantity > 0 ==> (r == 0 <==> item.discount.GetOr(0) == item.priceAtTime)
  {
    (item.priceAtTime - item.discount.GetOr(0)) * item.quantity
  }

  /** Without a discount a line costs exactly price times quantity. */
  lemma ItemTotalWithoutDiscount(item: CartItem)
    requires item.discount == None
    ensures ItemTotal(item) == item.priceAtTime * item.quantity
  {
  }

  /** A null discount and a zero discount price a line the same way. */
  lemma NullDiscountIsZero(item: CartItem)
    ensures ItemTotal(item.(discount := None)) == ItemTotal(item.(discount := Some(0)))
  {
  }

  /** Each extra unit adds the discounted unit price once. */
  lemma ItemTotalPerUnit(item: CartItem)
    ensures ItemTotal(item.(quantity := item.quantity + 1))
         == ItemTotal(item) + item.priceAtTime - item.discount.GetOr(0)
  {
  }

  /** `Cart.total_price`: the sum of the line totals of the cart's items
      (Python's `sum`, which starts at 0). */
  function CartTotal(items: seq<CartItem>): (r: Paise)
    ensures items == [] ==> r == 0
    ensures (forall i :: 0 <= i < |items| ==> ItemTotal(items[i]) >= 0) ==> r >= 0
    ensures (forall i :: 0 <= i < |items| ==> items[i].quantity == 0) ==> r == 0
  {
    if items == [] then 0 else ItemTotal(items[0]) + CartTotal(items[1..])
  }

  /** The total of two runs of lines is the sum of their totals. */
  lemma {:induction false} CartTotalConcat(a: seq<CartItem>, b: seq<CartItem>)
    ensures CartTotal(a + b) == CartTotal(a) + CartTotal(b)
  {
    if a != [] {
      assert (a + b)[0] == a[0];
      assert (a + b)[1..] == a[1..] + b;
      CartTotalConcat(a[1..], b);
    } else {
      assert a + b == b;
    }
  }

  /** Adding a line raises the cart total by exactly that line's total. */
  lemma {:induction false} CartTotalAdd(items: seq<CartItem>, item: CartItem)
    ensures CartTotal(items + [item]) == CartTotal(items) + ItemTotal(item)
  {
    CartTotalConcat(items, [item]);
  }

  /** Removing the line at position k lowers the total by exactly its total. */
  lemma {:induction false} CartTotalRemove(items: seq<CartItem>, k: nat)
    requires k < |items|
    ensures CartTotal(items[..k] + items[k + 1..]) == CartTotal(items) - ItemTotal(items[k])
  {
    assert items == items[..k] + ([items[k]] + items[k + 1..]);
    CartTotalConcat(items[..k], [items[k]] + items[k + 1..]);
    CartTotalConcat(items[..k], items[k + 1..]);
  }

  /** The items of a cart come from an unordered query, so the total must
      not depend on their order: any rearrangement has the same total. */
  lemma {:induction false} CartTotalOrderIrrelevant(a: seq<CartItem>, b: seq<CartItem>)
    requires multiset(a) == multiset(b)
    ensures CartTotal(a) == CartTotal(b)
  {
    if a != [] {
      assert a[0] in multiset(b);
      var k :| 0 <= k < |b| && b[k] == a[0];
      RemoveMatching(a, b, k);
      CartTotalOrderIrrelevant(a[1..], b[..k] + b[k + 1..]);
      CartTotalRemove(b, k);
    } else {
      assert |b| == |multiset(b)|;
    }
  }

  /** Taking the same element off two rearrangements of one another leaves
      rearrangements of one another. */
  lemma RemoveMatching<T>(a: seq<T>, b: seq<T>, k: nat)
    requires multiset(a) == multiset(b) && a != [] && k < |b| && b[k] == a[0]
    ensures multiset(a[1..]) == multiset(b[..k] + b[k + 1..])
  {
    assert b == b[..k] + [b[k]] + b[k + 1..];
    assert a == [a[0]] + a[1..];
    assert multiset(a[1..]) == multiset(a) - multiset{a[0]};
    assert multiset(b[..k] + b[k + 1..]) == multiset(b) - multiset{a[0]};
  }

  // ---------------------------------------------------------------------
  // Cart status
  // ---------------------------------------------------------------------

  /** The three choices of `Cart.status`. */
  datatype CartStatus = Active | Abandoned | Ordered

  /** The value stored in the status column for each choice. */
  function StatusValue(status: CartStatus): (value: string) {
    match status
    case Active => "active"
    case Abandoned => "abandoned"
    case Ordered => "ordered"
  }

  /** The stored values the choices admit (the column is `max_length=20`). */
  const StatusChoices: seq<string> := ["active", "abandoned", "ordered"]

  /** Reads a stored status value back: only the three choice keys are valid. */
  function ParseStatus(value: string): (r: Option<CartStatus>)
    ensures r.Some? <==> value in StatusChoices
    ensures r.Some? ==> StatusValue(r.value) == value
  {
    if value == "active" then Some(Active)
    else if value == "abandoned" then Some(Abandoned)
    else if value == "ordered" then Some(Ordered)
    else None
  }

  /** Every status is stored as one of the choices, fits the column and
      reads back as itself. */
  lemma StatusRoundTrip(status: CartStatus)
    ensures StatusValue(status) in StatusChoices
    ensures |StatusValue(status)| <= 20
    ensures ParseStatus(StatusValue(status)) == Some(status)
  {
  }

  /** A buyer's cart: its owner, its status and its lines. */
  datatype Cart = Cart(user: nat, status: CartStatus, items: seq<CartItem>)

  /** A cart as created: status takes its default, `active`, and it holds no
      lines, so it totals 0. */
  function NewCart(user: nat): (c: Cart)
    ensures c.user == user && StatusValue(c.status) == "active"
    ensures c.items == [] && CartTotal(c.items) == 0
  {
    Cart(user, Active, [])
  }

  // ---------------------------------------------------------------------
  // User.phone_number
  // ---------------------------------------------------------------------

  /** Whether Python's `re.search(r'^\d{10}$', s)` finds a match: `$` also
      matches just before a final newline, so ten digits followed by "\n"
      match as well. */
  predicate PhoneRegexMatches(s: string) {
    || (|s| == 10 && AllDigits(s))
    || (|s| == 11 && AllDigits(s[..10]) && s[10] == '\n')
  }

  /** Model-level validation of `User.phone_number`: the column is nullable
      and may be blank, and Django skips the validators of a blank-allowed
      field whose value is empty; any other value must pass both the
      `max_length=10` check and the regular expression. The result: null,
      the empty string, or exactly ten digits. */
  function ModelPhoneValid(phone: Option<string>): (ok: bool)
    ensures ok <==> phone == None || phone == Some("")
                    || (|phone.value| == 10 && AllDigits(phone.value))
  {
    match phone
    case None => true
    case Some(s) => s == "" || (|s| <= 10 && PhoneRegexMatches(s))
  }

  /** The regular expression alone would let a trailing newline through; the
      length limit is what rejects it. */
  lemma RegexAloneAdmitsTrailingNewline()
    ensures PhoneRegexMatches("0123456789\n")
    ensures !ModelPhoneValid(Some("0123456789\n"))
  {
    assert AllDigits("0123456789\n"[..10]) by {
      assert "0123456789\n"[..10] == "0123456789";
    }
  }

  // ---------------------------------------------------------------------
  // User accounts
  // ---------------------------------------------------------------------

  /** The stored columns of one user row that the modelled code touches. */
  datatype UserRecord = UserRecord(
    id: nat,
    username: string,
    password: string,
    firstName: string,
    lastName: string,
    email: string,
    phoneNumber: Option<string>,
    address: string,
    isStaff: bool,
    isSuperuser: bool)

  /** The row a user gets when created from a username alone: every other
      column takes its default (empty strings, a null phone number, no
      password, not staff). */
  function DefaultRecord(id: nat, username: string): (r: UserRecord)
    ensures r.id == id && r.username == username && r.password == ""
    ensures r.firstName == "" && r.lastName == "" && r.email == ""
    ensures r.phoneNumber == None && r.address == ""
    ensures !r.isStaff && !r.isSuperuser
  {
    UserRecord(id, username, "", "", "", "", None, "", false, false)
  }

  /** A `User` instance in memory, whose fields the views and serializers
      assign before saving. */
  class User {
    var id: nat
    var username: string
    var password: string
    var firstName: string
    var lastName: string
    var email: string
    var phoneNumber: Option<string>
    var address: string
    var isStaff: bool
    var isSuperuser: bool

    /** A fresh instance holding the given row. */
    constructor (r: UserRecord)
      ensures Record() == r
    {
      id, username, password := r.id, r.username, r.password;
      firstName, lastName, email := r.firstName, r.lastName, r.email;
      phoneNumber, address := r.phoneNumber, r.address;
      isStaff, isSuperuser := r.isStaff, r.isSuperuser;
    }

    /** The instance's fields as a row. */
    function Record(): (r: UserRecord)
      reads this
    {
      UserRecord(id, username, password, firstName, lastName, email,
                 phoneNumber, address, isStaff, isSuperuser)
    }

    /** `set_password`: stores the hash of the raw password, never the raw
        value; `hash` stands for Django's password hasher. */
    method SetPassword(raw: string, hash: string -> string)
      modifies this`password
      ensures password == hash(raw)
      ensures Record() == old(Record()).(password := hash(raw))
    {
      password := hash(raw);
    }
  }

  /** The user table: row `i` has id `i`, and no two rows share a
      username (`AbstractUser.username` is a unique column). */
  class UserTable {
    var rows: seq<UserRecord>

    ghost predicate Valid()
      reads this
    {
      && (forall i :: 0 <= i < |rows| ==> rows[i].id == i)
      && (forall i, j :: 0 <= i < j < |rows| ==> rows[i].username != rows[j].username)
    }

    constructor ()
      ensures Valid() && rows == []
    {
      rows := [];
    }

    /** Some row holds `name`. */
    predicate HasUsername(name: string)
      reads this
    {
      exists i :: 0 <= i < |rows| && rows[i].username == name
    }

    /** Some row other than row `id` holds `name`. */
    predicate OtherHasUsername(id: nat, name: string)
      reads this
    {
      exists i :: 0 <= i < |rows| && i != id && rows[i].username == name
    }

    /** `User.objects.create(username=...)`: inserts a row with every other
        column at its default and returns the instance; a taken username
        breaks the unique column, raises `IntegrityError` and inserts
        nothing. */
    method Create(username: string) returns (r: Result<User, Exception>)
      requires Valid()
      modifies this
      ensures Valid()
      ensures old(HasUsername(username)) ==>
                r == Err(IntegrityError("username")) && rows == old(rows)
      ensures !old(HasUsername(username)) ==>
                && r.Ok? && fresh(r.value)
                && r.value.Record() == DefaultRecord(|old(rows)|, username)
                && rows == old(rows) + [r.value.Record()]
    {
      if HasUsername(username) {
        return Err(IntegrityError("username"));
      }
      var u := new User(DefaultRecord(|rows|, username));
      rows := rows + [u.Record()];
      r := Ok(u);
    }

    /** `user.save()`: writes the instance's fields over its row; a
        username another row holds raises `IntegrityError` and writes
        nothing. */
    method Save(u: User) returns (raised: Option<Exception>)
      requires Valid() && u.id < |rows|
      modifies this
      ensures Valid()
      ensures old(OtherHasUsername(u.id, u.username)) ==>
                raised == Some(IntegrityError("username")) && rows == old(rows)
      ensures !old(OtherHasUsername(u.id, u.username)) ==>
                raised == None && rows == old(rows)[u.id := u.Record()]
    {
      if OtherHasUsername(u.id, u.username) {
        return Some(IntegrityError("username"));
      }
      rows := rows[u.id := u.Record()];
      raised := None;
    }
  }
}
