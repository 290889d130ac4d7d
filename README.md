# Store rules of the e-commerce REST backend, in Dafny

This project models the small set of rules in the `Store` app of a Django REST
e-commerce backend that are more than field declarations and framework wiring,
and proves what they promise:

- **Cart pricing** (`models.py`): a cart line costs `(price_at_time − discount) × quantity`.
  A null discount counts as 0. A cart costs the sum of its lines. Money is whole
  paise (hundredths of a rupee), which is exact for the source's two-decimal
  `Decimal` fields. Adding a line raises the total by that line's total, and
  removing one lowers it by the same amount. The total does not depend on the
  order of the lines.
- **Cart status** (`models.py`): the three choices `active`, `abandoned`, `ordered`,
  with `active` as the default.
- **Phone numbers** (`models.py`, `serializers.py`): the model column and the
  registration field, each with Python's regular-expression semantics. `$` also
  matches before a final newline. On the model column the length limit is what
  rejects ten digits followed by a newline; the registration field trims
  surrounding whitespace first, so there the same value is accepted as the ten
  digits.
- **User accounts** (`models.py`, `serializers.py`): a `User` class whose fields
  the views and the serializer assign, and a user table standing for the database.
- **Permissions** (`permissions.py`): `IsAdminOrStaff` and `IsSellerOrReadOnly`
  as decisions over the HTTP method and the requesting user.
- **Registration** (`serializers.py`): the password confirmation check. What
  `create` stores: the username and the hashed password only. What the serialized
  output shows: never the write-only password fields.
- **Views** (`views.py`): the profile "name" split into first and last name.
  The action-to-permission table of the product and category viewsets. How the
  order endpoint builds its payload from `product_id` or from `cart_items`.

Files: `wrappers.dfy` (Option, Result), `text.dfy` (Python's `strip()`,
whitespace and digit classes), `json.dfy` (request-body values, truthiness,
`dict.get`, the exceptions a handler can raise), `models.dfy`, `permissions.dfy`,
`serializers.dfy`, `views.dfy`.

Facts about the code that shape the model:

- A line is priced from its `price_at_time` snapshot less a nullable `discount`.
- `PositiveIntegerField` admits 0, so quantity is a `nat`.
- The phone column has `blank=True`, and Django skips a blank-allowed field's
  validators when its value is empty, so `""` is accepted as well as null and
  ten digits.

The `User` model in `models.py` declares no `is_seller`. `IsSellerOrReadOnly`
reads that attribute for an authenticated user making an unsafe request. The
model therefore gives an account an optional seller flag. The lemma
`Permissions.DeclaredUserHasNoSellerFlag` shows that without the flag such a
request raises `AttributeError`.

## Model

| member | source | states |
|---|---|---|
| Models.ItemTotal | EcommerceApiBackend/Store/models.py:82-84 | a line with quantity 0 totals 0; with a positive quantity the total is negative exactly when the discount (0 if null) exceeds the snapshot price, and 0 exactly when they are equal |
| Models.ItemTotalWithoutDiscount | EcommerceApiBackend/Store/models.py:84 | with no discount a line totals exactly price_at_time × quantity |
| Models.NullDiscountIsZero | EcommerceApiBackend/Store/models.py:84 | a null discount prices a line the same as a zero discount (`discount or 0`) |
| Models.ItemTotalPerUnit | EcommerceApiBackend/Store/models.py:84 | one more unit adds the discounted unit price exactly once |
| Models.CartTotal | EcommerceApiBackend/Store/models.py:71-72 | an empty cart totals 0; if no line total is negative the cart total is not negative; a cart whose lines all have quantity 0 totals 0 |
| Models.CartTotalConcat | EcommerceApiBackend/Store/models.py:71-72 | the total of two runs of lines is the sum of their totals |
| Models.CartTotalAdd | EcommerceApiBackend/Store/models.py:72 | adding a line raises the cart total by exactly that line's total |
| Models.CartTotalRemove | EcommerceApiBackend/Store/models.py:72 | removing any line lowers the cart total by exactly that line's total |
| Models.CartTotalOrderIrrelevant | EcommerceApiBackend/Store/models.py:71-72 | any rearrangement of a cart's lines (same multiset) has the same total, so the unordered query does not change the sum |
| Models.ParseStatus | EcommerceApiBackend/Store/models.py:65-69 | a stored status value is valid exactly when it is one of the three choice keys, and a valid one maps back to that key |
| Models.StatusRoundTrip | EcommerceApiBackend/Store/models.py:65-69 | every status is stored as one of the choices, fits the 20-character column and reads back as itself |
| Models.NewCart | EcommerceApiBackend/Store/models.py:65-69 | a new cart has the default status `active`, no lines and total 0 |
| Models.ModelPhoneValid | EcommerceApiBackend/Store/models.py:8-17 | the phone column accepts null, the empty string (blank) or exactly ten digits, and nothing else; the regular expression's trailing-newline match is cut off by max_length |
| Models.RegexAloneAdmitsTrailingNewline | EcommerceApiBackend/Store/models.py:9-13 | `^\d{10}$` matches ten digits followed by a newline, which the column still rejects |
| Models.DefaultRecord | EcommerceApiBackend/Store/models.py:7-19 | a user created from a username alone has empty names, email and address, a null phone number, no password and no staff or superuser flag |
| Models.User.SetPassword | EcommerceApiBackend/Store/serializers.py:37 | `set_password` stores the hash of the raw password and changes no other field |
| Models.UserTable.Create | EcommerceApiBackend/Store/serializers.py:32-34 | `User.objects.create(username=...)` appends a row with every other column at its default and returns a fresh instance holding it; a username already in the table raises `IntegrityError` and inserts nothing, so usernames stay unique (the column comes from `AbstractUser`, models.py:7) |
| Models.UserTable.Save | EcommerceApiBackend/Store/serializers.py:38 | `save()` overwrites the instance's own row and no other; a username held by another row raises `IntegrityError` and writes nothing, so usernames stay unique |
| Permissions.IsAdminOrStaff | EcommerceApiBackend/Store/permissions.py:9-15 | GET, HEAD and OPTIONS are granted to anyone; any other method exactly to an authenticated user who is staff or superuser |
| Permissions.IsSellerOrReadOnly | EcommerceApiBackend/Store/permissions.py:21-24 | safe methods are granted to anyone; an unsafe method is refused to an unauthenticated requester, granted to an authenticated one exactly when `is_seller` is true, and raises when the account has no `is_seller` |
| Permissions.UnauthenticatedNeverWrites | EcommerceApiBackend/Store/permissions.py:15-24 | neither class grants an unsafe method to a requester who is not authenticated |
| Permissions.StaffAreNotSellers | EcommerceApiBackend/Store/permissions.py:24 | a staff or superuser account that is not a seller is refused unsafe methods by `IsSellerOrReadOnly`, though `IsAdminOrStaff` grants them |
| Permissions.RequesterOf | EcommerceApiBackend/Store/models.py:7-19 | a signed-in user of the declared `User` model is an authenticated account with that user's staff and superuser flags and no `is_seller` attribute |
| Permissions.DeclaredUserHasNoSellerFlag | EcommerceApiBackend/Store/permissions.py:24 | for every user row of the declared `User` model, every unsafe request makes `IsSellerOrReadOnly` raise `AttributeError` on `is_seller` |
| Serializers.RegistrationPhone | EcommerceApiBackend/Store/serializers.py:7-17 | a registration phone number is accepted exactly when it is present and its whitespace-trimmed value is ten digits; the trimmed value is kept; a missing one is refused as required; a refusal always carries at least one error |
| Serializers.RegistrationMatchesModelPhone | EcommerceApiBackend/Store/serializers.py:7-17 | for a non-empty value without surrounding whitespace the registration field and the model column accept the same phone numbers |
| Serializers.RegistrationPhoneTrims | EcommerceApiBackend/Store/serializers.py:7-17 | ten digits padded with whitespace on either side are accepted and kept without the padding |
| Serializers.Validate | EcommerceApiBackend/Store/serializers.py:24-27 | validation fails, with an error keyed `password`, exactly when password and password2 differ, and otherwise returns the attributes unchanged |
| Serializers.CreateKeepsOnlyCredentials | EcommerceApiBackend/Store/serializers.py:29-38 | the created row holds the username and the hash of the password; first and last name, email, phone number and address are not stored, and the raw password is never written |
| Serializers.CreateIgnoresProfileFields | EcommerceApiBackend/Store/serializers.py:32-34 | with one fixed hasher, two registrations with the same username and password create the same row whatever else they carry (the real hasher salts at random, so only the password column would differ) |
| Serializers.Create | EcommerceApiBackend/Store/serializers.py:29-39 | for a username not yet in the table, `create` appends exactly one row, built from the username with the hashed password, and returns a fresh user holding it; for a taken username it returns the `IntegrityError` and leaves the table unchanged |
| Serializers.Represent | EcommerceApiBackend/Store/serializers.py:21-22 | the output holds exactly the seven readable fields, never `password` or `password2`, and each holds the user's column: id, username, names, email and address as stored, and the phone number or null |
| Serializers.OutputFieldsAreReadable | EcommerceApiBackend/Store/serializers.py:21-22 | the fields shown are exactly the declared fields less the write-only ones |
| Serializers.RepresentHidesPassword | EcommerceApiBackend/Store/serializers.py:22 | the output does not depend on the stored password |
| Views.SplitOnce | EcommerceApiBackend/Store/views.py:67 | `split(' ', 1)` gives one part (the whole string) exactly when there is no space, and otherwise two parts around the first space |
| Views.SplitName | EcommerceApiBackend/Store/views.py:66-69 | first and last name come out stripped; with no space the last name is empty and the first name is the stripped name |
| Views.SplitNameAtFirstSpace | EcommerceApiBackend/Store/views.py:67-69 | only the first space splits: first name is the stripped text before it, last name the stripped text after it, inner spaces included |
| Views.SplitNameExample | EcommerceApiBackend/Store/views.py:67-69 | "A B C" gives first name "A" and last name "B C" |
| Views.SplitNameRoundTrip | EcommerceApiBackend/Store/views.py:66-69 | a first name without spaces and a last name, both trimmed, joined by one space split back into themselves |
| Views.UpdateProfileName | EcommerceApiBackend/Store/views.py:63-69 | an absent, null or empty name leaves first and last name unchanged; a non-empty string sets them from `SplitName`; any other truthy value raises before anything is assigned |
| Views.CatalogPermissions | EcommerceApiBackend/Store/views.py:86-98 | `list` and `retrieve` give AllowAny, `create`, `update`, `partial_update` and `destroy` give IsAdminUser, any other action or none gives no permission |
| Views.CatalogAccess | EcommerceApiBackend/Store/views.py:116-128 | for both the product and category viewsets a request passes its permissions exactly when it is not a write action or the user is staff |
| Views.SuperuserWithoutStaffCannotWrite | EcommerceApiBackend/Store/views.py:92-94 | a superuser who is not staff is refused every write action on the catalog |
| Views.LineOf | EcommerceApiBackend/Store/views.py:171-174 | an order line takes its product from the cart item's `product_id`, its quantity from the item's `quantity` when present, and 1 otherwise |
| Views.CartItemsOf | EcommerceApiBackend/Store/views.py:166-170 | iterating `cart_items` yields a list's elements in order and a string's characters in order, one single-character string each; an empty object yields nothing, a non-empty object raises TypeError (its keys cannot be indexed by `product_id`), and null, booleans and numbers raise TypeError |
| Views.BuildOrderLines | EcommerceApiBackend/Store/views.py:167-174 | succeeds exactly when every cart item is an object with `product_id`, giving one line per item in the same order; otherwise raises what the first unreadable item raises (KeyError or TypeError) |
| Views.PostOrder | EcommerceApiBackend/Store/views.py:146-184 | with `product_id` the payload has exactly that product at the given quantity (default 1) and `cart_items` is ignored; otherwise with `cart_items` one line per cart item in order, or, when a cart item cannot be read, the KeyError or TypeError it raises (never a 400); with neither the result is 400 "Invalid data" and no payload |

## Left out

- Token issuance and blacklisting (`RegisterView`, `LogoutView`) are calls into a JWT library.
- The database queries of the cart, order list, order detail and review views are not modelled. The user table stands in for the database only where `create` writes to it.
- `CancelOrder.patch` is an empty stub, and the payment section is empty.
- HTTP response objects and the catch-all 404 handler are not modelled. Status codes appear as plain integers.
- The password hasher is a function parameter (`hash`). Its salting and algorithm are outside the model.
- The admin configuration, the URL routing files and the filter configuration are declarative framework setup.
- The older `EcommerceApi/` revision duplicates declarations that the modelled files already cover.
- `OrderSerializer`, `ProfileSerializer`, `Order`, `OrderItem` and `Review` are imported by the views but not defined in the modelled files. So `PostOrder` stops at the payload it hands to the order serializer, and `UpdateProfileName` stops before the profile serializer saves.
- `has_object_permission` and the framework's other permission hooks are not modelled. `Requester` states authentication as the kind of user object.
- Models.ModelPhoneValid: `\d` is taken as the ASCII digits 0-9. Python's `\d` also matches other Unicode decimal digits.
- Serializers.RegistrationPhone: `\d` is ASCII digits only, as for the model column. The field's null-character and surrogate validators are omitted. They never reject a value that the regular expression accepts, but they can add error messages to a value that is already refused. The input is a string or absent; JSON null and numbers sent for the field are not modelled.
- Models.ModelPhoneValid states which values model validation accepts. That validation runs only when a model is fully cleaned, and the registration path never does so.
- `max_digits` limits of the decimal fields are storage constraints and are not enforced. Exact integer paise need no precision limit.
- The `UniqueValidator` that DRF puts on the `username` field is not modelled as a validation step. A taken username reaches `Serializers.Create`, which returns the `IntegrityError` the insert raises; the 400 the validator would answer instead is not modelled, nor is a race between validation and insert.
- Request bodies are JSON objects. Form-encoded bodies are not modelled, and JSON numbers are integers.
