/** The `/api/stores` route: listing and slug lookup with the `isOwner`
    annotation (GET), creation (POST), update (PUT) and removal (DELETE) of a
    store. The store table is a sequence in `createdAt` descending order, so a
    new store goes in front; the caller is the id `ResolveCaller` produced. */
module StoresApi {
  import opened Js
  import opened Api

  /** A row of the store table. Amounts are integer cents. */
  datatype Store = Store(
    id: string, userId: UserId, name: string, slug: string,
    description: Option<string>, image: Option<string>,
    category: string, cnpj: string, phone: string, email: string,
    minimumOrder: Option<int>, deliveryFee: Option<int>, freeShippingThreshold: Option<int>,
    street: string, number: string, complement: Option<string>,
    neighborhood: string, city: string, state: string, zipCode: string)

  /** The `address` object of a request body. */
  datatype AddressBody = AddressBody(
    zipCode: Option<string>, street: Option<string>, number: Option<string>,
    complement: Option<string>, neighborhood: Option<string>,
    city: Option<string>, state: Option<string>)

  /** A POST or PUT request body. `address` is `None` when it is missing or
      not an object; `id` is only read by PUT. */
  datatype StoreBody = StoreBody(
    id: Option<string>, name: Option<string>, slug: Option<string>,
    description: Option<string>, image: Option<string>, category: Option<string>,
    cnpj: Option<string>, phone: Option<string>, email: Option<string>,
    minimumOrder: Option<int>, deliveryFee: Option<int>, freeShippingThreshold: Option<int>,
    address: Option<AddressBody>)

  /** The validation errors, in the order the handlers check them. */
  datatype StoreError =
    | NameRequired | SlugRequired | SlugMalformed | SlugInUse
    | CategoryRequired | CnpjRequired | PhoneRequired | EmailRequired
    | AddressRequired | ZipCodeRequired | StreetRequired | NumberRequired
    | NeighborhoodRequired | CityRequired | StateRequired

  /** The message each error puts in the response's `errors` array. */
  function Message(e: StoreError): string {
    match e
    case NameRequired => "Nome da loja é obrigatório"
    case SlugRequired => "Identificação única é obrigatória"
    case SlugMalformed => "Identificação deve conter apenas letras minúsculas e números"
    case SlugInUse => "Esta identificação já está em uso"
    case CategoryRequired => "Categoria é obrigatória"
    case CnpjRequired => "CNPJ é obrigatório"
    case PhoneRequired => "Telefone é obrigatório"
    case EmailRequired => "Email é obrigatório"
    case AddressRequired => "Endereço é obrigatório"
    case ZipCodeRequired => "CEP é obrigatório"
    case StreetRequired => "Rua é obrigatória"
    case NumberRequired => "Número é obrigatório"
    case NeighborhoodRequired => "Bairro é obrigatório"
    case CityRequired => "Cidade é obrigatória"
    case StateRequired => "Estado é obrigatório"
  }

  function Messages(errors: seq<StoreError>): (r: seq<string>)
    ensures |r| == |errors|
    ensures forall i :: 0 <= i < |errors| ==> r[i] == Message(errors[i])
  {
    seq(|errors|, i requires 0 <= i < |errors| => Message(errors[i]))
  }

  /** The single error of a create that hit the CNPJ uniqueness constraint. */
  const CnpjTaken := "CNPJ já cadastrado. Uma loja com este CNPJ já existe no sistema."

  // ---------------------------------------------------------------- lookups

  /** `findUnique({ where: { slug } })`. */
  function FindBySlug(db: seq<Store>, slug: string): (r: Option<Store>)
    ensures r.Some? ==> r.value in db && r.value.slug == slug
    ensures r.None? ==> forall i :: 0 <= i < |db| ==> db[i].slug != slug
  {
    Find((s: Store) => s.slug == slug, db)
  }

  predicate SlugTaken(db: seq<Store>, slug: string) {
    FindBySlug(db, slug).Some?
  }

  /** Position of the store with the given id. */
  function IndexOfId(db: seq<Store>, id: string): (r: Option<nat>)
    ensures r.Some? ==> r.value < |db| && db[r.value].id == id
    ensures r.None? ==> forall j :: 0 <= j < |db| ==> db[j].id != id
  {
    FirstIndex((s: Store) => s.id == id, db)
  }

  /** Position of the first store owned by `userId` (`where: { userId }`). */
  function IndexOfOwner(db: seq<Store>, userId: UserId): (r: Option<nat>)
    ensures r.Some? ==> r.value < |db| && db[r.value].userId == userId
    ensures r.Some? ==> forall j :: 0 <= j < r.value ==> db[j].userId != userId
    ensures r.None? ==> forall j :: 0 <= j < |db| ==> db[j].userId != userId
  {
    FirstIndex((s: Store) => s.userId == userId, db)
  }

  // ---------------------------------------------------------------- validation

  /** `/^[a-z0-9]+$/.test(slug)`. */
  predicate SlugFormat(slug: string) {
    |slug| > 0 && forall i :: 0 <= i < |slug| ==> 'a' <= slug[i] <= 'z' || '0' <= slug[i] <= '9'
  }

  /** Whether the uniqueness lookup runs and finds the trimmed slug: on
      create always, on update only when the slug differs from the store's. */
  predicate SlugConflict(db: seq<Store>, current: Option<Store>, slug: string) {
    (current.None? || Trim(slug) != current.value.slug) && SlugTaken(db, Trim(slug))
  }

  /** The number of checks the handlers run. */
  const CheckCount := 15

  /** The position of each check in the order the handlers run them. */
  function Rank(e: StoreError): nat {
    match e
    case NameRequired => 0
    case SlugRequired => 1
    case SlugMalformed => 2
    case SlugInUse => 3
    case CategoryRequired => 4
    case CnpjRequired => 5
    case PhoneRequired => 6
    case EmailRequired => 7
    case AddressRequired => 8
    case ZipCodeRequired => 9
    case StreetRequired => 10
    case NumberRequired => 11
    case NeighborhoodRequired => 12
    case CityRequired => 13
    case StateRequired => 14
  }

  /** The `i`-th check the handlers run. */
  function NthCheck(i: nat): (e: StoreError)
    requires i < CheckCount
    ensures Rank(e) == i
  {
    if i == 0 then NameRequired
    else if i == 1 then SlugRequired
    else if i == 2 then SlugMalformed
    else if i == 3 then SlugInUse
    else if i == 4 then CategoryRequired
    else if i == 5 then CnpjRequired
    else if i == 6 then PhoneRequired
    else if i == 7 then EmailRequired
    else if i == 8 then AddressRequired
    else if i == 9 then ZipCodeRequired
    else if i == 10 then StreetRequired
    else if i == 11 then NumberRequired
    else if i == 12 then NeighborhoodRequired
    else if i == 13 then CityRequired
    else StateRequired
  }

  /** Every error belongs to exactly one check. */
  lemma RankInverse(e: StoreError)
    ensures Rank(e) < CheckCount && NthCheck(Rank(e)) == e
  {
  }

  /** When the handlers report `e`: a blank field, or for the slug the first
      of blank, malformed and taken that applies; the address fields are
      only checked when `address` is an object. */
  predicate Fails(e: StoreError, body: StoreBody, db: seq<Store>, current: Option<Store>) {
    match e
    case NameRequired => Blank(body.name)
    case SlugRequired => Blank(body.slug)
    case SlugMalformed => !Blank(body.slug) && !SlugFormat(body.slug.value)
    case SlugInUse => !Blank(body.slug) && SlugFormat(body.slug.value) && SlugConflict(db, current, body.slug.value)
    case CategoryRequired => Blank(body.category)
    case CnpjRequired => Blank(body.cnpj)
    case PhoneRequired => Blank(body.phone)
    case EmailRequired => Blank(body.email)
    case AddressRequired => body.address.None?
    case ZipCodeRequired => body.address.Some? && Blank(body.address.value.zipCode)
    case StreetRequired => body.address.Some? && Blank(body.address.value.street)
    case NumberRequired => body.address.Some? && Blank(body.address.value.number)
    case NeighborhoodRequired => body.address.Some? && Blank(body.address.value.neighborhood)
    case CityRequired => body.address.Some? && Blank(body.address.value.city)
    case StateRequired => body.address.Some? && Blank(body.address.value.state)
  }

  /** The errors the first `n` checks push, in push order. */
  function ErrorsOfFirst(body: StoreBody, db: seq<Store>, current: Option<Store>, n: nat): seq<StoreError>
    requires n <= CheckCount
  {
    if n == 0 then []
    else
      var e := NthCheck(n - 1);
      ErrorsOfFirst(body, db, current, n - 1) + Flag(Fails(e, body, db, current), e)
  }

  /** The errors POST (`current == None`) and PUT (`current` the store being
      edited) collect. */
  function StoreErrors(body: StoreBody, db: seq<Store>, current: Option<Store>): seq<StoreError> {
    ErrorsOfFirst(body, db, current, CheckCount)
  }

  /** Without an address object the address field checks report nothing. */
  lemma NoAddressNoFieldChecks(body: StoreBody, db: seq<Store>, current: Option<Store>)
    requires body.address.None?
    ensures StoreErrors(body, db, current) == ErrorsOfFirst(body, db, current, 9)
  {
    PassedCheckAddsNothing(ErrorsOfFirst(body, db, current, 9), ZipCodeRequired);
    PassedCheckAddsNothing(ErrorsOfFirst(body, db, current, 10), StreetRequired);
    PassedCheckAddsNothing(ErrorsOfFirst(body, db, current, 11), NumberRequired);
    PassedCheckAddsNothing(ErrorsOfFirst(body, db, current, 12), NeighborhoodRequired);
    PassedCheckAddsNothing(ErrorsOfFirst(body, db, current, 13), CityRequired);
    PassedCheckAddsNothing(ErrorsOfFirst(body, db, current, 14), StateRequired);
  }

  /** One `if (failed) errors.push(message)` step, as the `n`-th check. */
  method PushCheck(errors: seq<StoreError>, failed: bool, error: StoreError,
                   ghost body: StoreBody, ghost db: seq<Store>, ghost current: Option<Store>, ghost n: nat)
    returns (r: seq<StoreError>)
    requires n < CheckCount && error == NthCheck(n) && failed == Fails(error, body, db, current)
    requires errors == ErrorsOfFirst(body, db, current, n)
    ensures r == ErrorsOfFirst(body, db, current, n + 1)
  {
    r := Push(errors, failed, error);
  }

  /** The slug block: "required", else "malformed", else the uniqueness
      lookup, which an update skips when the slug is the store's own. */
  method CheckSlug(errors: seq<StoreError>, body: StoreBody, db: seq<Store>, current: Option<Store>)
    returns (r: seq<StoreError>)
    requires errors == ErrorsOfFirst(body, db, current, 1)
    ensures r == ErrorsOfFirst(body, db, current, 4)
  {
    ghost var second := ErrorsOfFirst(body, db, current, 2);
    ghost var third := ErrorsOfFirst(body, db, current, 3);
    r := errors;
    if Blank(body.slug) {
      r := r + [SlugRequired];
      assert second == r && third == r;
    } else if !SlugFormat(body.slug.value) {
      r := r + [SlugMalformed];
      assert second == errors && third == r;
    } else {
      assert second == errors && third == errors;
      if current.None? || Trim(body.slug.value) != current.value.slug {
        var existing := FindBySlug(db, Trim(body.slug.value));
        if existing.Some? {
          r := r + [SlugInUse];
        }
      }
    }
  }

  /** With an address object, the address checks are the field checks. */
  lemma AddressChecks(body: StoreBody, db: seq<Store>, current: Option<Store>)
    requires body.address.Some?
    ensures var a := body.address.value;
      && Fails(ZipCodeRequired, body, db, current) == Blank(a.zipCode)
      && Fails(StreetRequired, body, db, current) == Blank(a.street)
      && Fails(NumberRequired, body, db, current) == Blank(a.number)
      && Fails(NeighborhoodRequired, body, db, current) == Blank(a.neighborhood)
      && Fails(CityRequired, body, db, current) == Blank(a.city)
      && Fails(StateRequired, body, db, current) == Blank(a.state)
  {
  }

  /** The address block: "required" when there is no address object,
      otherwise one check per field. */
  method CheckAddress(errors: seq<StoreError>, body: StoreBody, db: seq<Store>, current: Option<Store>)
    returns (r: seq<StoreError>)
    requires errors == ErrorsOfFirst(body, db, current, 8)
    ensures r == StoreErrors(body, db, current)
  {
    r := errors;
    if body.address.None? {
      r := PushCheck(r, true, AddressRequired, body, db, current, 8);
      NoAddressNoFieldChecks(body, db, current);
    } else {
      PassedCheckAddsNothing(r, AddressRequired);
      r := CheckAddressFields(r, body, db, current);
    }
  }

  /** The six field checks of an address object. */
  method CheckAddressFields(errors: seq<StoreError>, body: StoreBody, db: seq<Store>, current: Option<Store>)
    returns (r: seq<StoreError>)
    requires body.address.Some? && errors == ErrorsOfFirst(body, db, current, 9)
    ensures r == ErrorsOfFirst(body, db, current, 15)
  {
    var a := body.address.value;
    AddressChecks(body, db, current);
    r := PushCheck(errors, Blank(a.zipCode), ZipCodeRequired, body, db, current, 9);
    r := PushCheck(r, Blank(a.street), StreetRequired, body, db, current, 10);
    r := PushCheck(r, Blank(a.number), NumberRequired, body, db, current, 11);
    r := CheckLocalityFields(r, body, db, current);
  }

  /** The neighbourhood, city and state checks. */
  method CheckLocalityFields(errors: seq<StoreError>, body: StoreBody, db: seq<Store>, current: Option<Store>)
    returns (r: seq<StoreError>)
    requires body.address.Some? && errors == ErrorsOfFirst(body, db, current, 12)
    ensures r == ErrorsOfFirst(body, db, current, 15)
  {
    var a := body.address.value;
    AddressChecks(body, db, current);
    r := PushCheck(errors, Blank(a.neighborhood), NeighborhoodRequired, body, db, current, 12);
    r := PushCheck(r, Blank(a.city), CityRequired, body, db, current, 13);
    r := PushCheck(r, Blank(a.state), StateRequired, body, db, current, 14);
  }

  /** The validation as the handlers run it, one push at a time. */
  method ValidateStore(body: StoreBody, db: seq<Store>, current: Option<Store>) returns (errors: seq<StoreError>)
    ensures errors == StoreErrors(body, db, current)
  {
    errors := PushCheck([], Blank(body.name), NameRequired, body, db, current, 0);
    errors := CheckSlug(errors, body, db, current);
    errors := PushCheck(errors, Blank(body.category), CategoryRequired, body, db, current, 4);
    errors := CheckContactFields(errors, body, db, current);
    errors := CheckAddress(errors, body, db, current);
  }

  /** The CNPJ, phone and e-mail checks. */
  method CheckContactFields(errors: seq<StoreError>, body: StoreBody, db: seq<Store>, current: Option<Store>)
    returns (r: seq<StoreError>)
    requires errors == ErrorsOfFirst(body, db, current, 5)
    ensures r == ErrorsOfFirst(body, db, current, 8)
  {
    r := PushCheck(errors, Blank(body.cnpj), CnpjRequired, body, db, current, 5);
    r := PushCheck(r, Blank(body.phone), PhoneRequired, body, db, current, 6);
    r := PushCheck(r, Blank(body.email), EmailRequired, body, db, current, 7);
  }

  /** Errors in strictly increasing check order, all of them from checks
      before the `k`-th; so no error occurs twice. */
  ghost predicate OrderedBelow(errors: seq<StoreError>, k: nat) {
    && (forall i, j :: 0 <= i < j < |errors| ==> Rank(errors[i]) < Rank(errors[j]))
    && (forall i :: 0 <= i < |errors| ==> Rank(errors[i]) < k)
  }

  /** Pushing the error of a later check keeps the order. */
  lemma PushKeepsOrder(errors: seq<StoreError>, failed: bool, e: StoreError)
    requires OrderedBelow(errors, Rank(e))
    ensures OrderedBelow(errors + Flag(failed, e), Rank(e) + 1)
  {
    var r := errors + Flag(failed, e);
    forall i, j | 0 <= i < j < |r| ensures Rank(r[i]) < Rank(r[j]) {
      if j < |errors| {
        assert r[i] == errors[i] && r[j] == errors[j];
      } else {
        assert r[i] == errors[i] && r[j] == e;
      }
    }
  }

  /** The first `n` checks report their errors in check order, each once. */
  lemma {:induction false} ErrorsOfFirstOrdered(body: StoreBody, db: seq<Store>, current: Option<Store>, n: nat)
    requires n <= CheckCount
    ensures OrderedBelow(ErrorsOfFirst(body, db, current, n), n)
  {
    if n > 0 {
      ErrorsOfFirstOrdered(body, db, current, n - 1);
      var e := NthCheck(n - 1);
      PushKeepsOrder(ErrorsOfFirst(body, db, current, n - 1), Fails(e, body, db, current), e);
    }
  }

  /** The first `n` checks report exactly those among them that fail. */
  lemma {:induction false} ErrorsOfFirstMembers(body: StoreBody, db: seq<Store>, current: Option<Store>, n: nat)
    requires n <= CheckCount
    ensures forall e :: e in ErrorsOfFirst(body, db, current, n) <==> Rank(e) < n && Fails(e, body, db, current)
  {
    if n > 0 {
      ErrorsOfFirstMembers(body, db, current, n - 1);
      forall x ensures x in ErrorsOfFirst(body, db, current, n) <==> Rank(x) < n && Fails(x, body, db, current) {
        RankInverse(x);
      }
    }
  }

  /** Each error is reported exactly when its check fails, at most once,
      and in the order the checks run. */
  lemma StoreErrorsExact(body: StoreBody, db: seq<Store>, current: Option<Store>)
    ensures OrderedBelow(StoreErrors(body, db, current), CheckCount)
    ensures forall e :: e in StoreErrors(body, db, current) <==> Fails(e, body, db, current)
  {
    ErrorsOfFirstOrdered(body, db, current, CheckCount);
    ErrorsOfFirstMembers(body, db, current, CheckCount);
  }

  /** The body passes validation, stated check by check. */
  predicate Acceptable(body: StoreBody, db: seq<Store>, current: Option<Store>) {
    && !Blank(body.name)
    && !Blank(body.slug) && SlugFormat(body.slug.value) && !SlugConflict(db, current, body.slug.value)
    && !Blank(body.category) && !Blank(body.cnpj) && !Blank(body.phone) && !Blank(body.email)
    && body.address.Some?
    && !Blank(body.address.value.zipCode) && !Blank(body.address.value.street)
    && !Blank(body.address.value.number) && !Blank(body.address.value.neighborhood)
    && !Blank(body.address.value.city) && !Blank(body.address.value.state)
  }

  lemma FailedCheckRejects(e: StoreError, body: StoreBody, db: seq<Store>, current: Option<Store>)
    requires Fails(e, body, db, current)
    ensures !Acceptable(body, db, current)
  {
  }

  lemma PlainFieldsPass(body: StoreBody, db: seq<Store>, current: Option<Store>)
    requires !Fails(NameRequired, body, db, current) && !Fails(CategoryRequired, body, db, current)
    requires !Fails(CnpjRequired, body, db, current)
    requires !Fails(PhoneRequired, body, db, current) && !Fails(EmailRequired, body, db, current)
    ensures !Blank(body.name) && !Blank(body.category) && !Blank(body.cnpj)
    ensures !Blank(body.phone) && !Blank(body.email)
  {
  }

  lemma SlugPasses(body: StoreBody, db: seq<Store>, current: Option<Store>)
    requires !Fails(SlugRequired, body, db, current)
    requires !Fails(SlugMalformed, body, db, current) && !Fails(SlugInUse, body, db, current)
    ensures !Blank(body.slug) && SlugFormat(body.slug.value) && !SlugConflict(db, current, body.slug.value)
  {
  }

  lemma AddressPasses(body: StoreBody, db: seq<Store>, current: Option<Store>)
    requires !Fails(AddressRequired, body, db, current) && !Fails(ZipCodeRequired, body, db, current)
    requires !Fails(StreetRequired, body, db, current) && !Fails(NumberRequired, body, db, current)
    requires !Fails(NeighborhoodRequired, body, db, current) && !Fails(CityRequired, body, db, current)
    requires !Fails(StateRequired, body, db, current)
    ensures body.address.Some?
    ensures !Blank(body.address.value.zipCode) && !Blank(body.address.value.street)
    ensures !Blank(body.address.value.number) && !Blank(body.address.value.neighborhood)
    ensures !Blank(body.address.value.city) && !Blank(body.address.value.state)
  {
  }

  /** No error is reported exactly when every check passes. */
  lemma StoreErrorsEmptyIff(body: StoreBody, db: seq<Store>, current: Option<Store>)
    ensures StoreErrors(body, db, current) == [] <==> Acceptable(body, db, current)
  {
    var errors := StoreErrors(body, db, current);
    StoreErrorsExact(body, db, current);
    if errors != [] {
      FailedCheckRejects(errors[0], body, db, current);
    } else {
      assert NameRequired !in errors && CategoryRequired !in errors && CnpjRequired !in errors;
      assert PhoneRequired !in errors && EmailRequired !in errors;
      PlainFieldsPass(body, db, current);
      assert SlugRequired !in errors && SlugMalformed !in errors && SlugInUse !in errors;
      SlugPasses(body, db, current);
      assert AddressRequired !in errors && ZipCodeRequired !in errors && StreetRequired !in errors;
      assert NumberRequired !in errors && NeighborhoodRequired !in errors;
      assert CityRequired !in errors && StateRequired !in errors;
      AddressPasses(body, db, current);
    }
  }

  /** The slug block reports at most one error: blank, else malformed, else
      taken. */
  lemma AtMostOneSlugError(body: StoreBody, db: seq<Store>, current: Option<Store>)
    ensures var errors := StoreErrors(body, db, current);
      && (SlugRequired in errors <==> Blank(body.slug))
      && (SlugMalformed in errors <==> !Blank(body.slug) && !SlugFormat(body.slug.value))
      && (SlugInUse in errors <==> !Blank(body.slug) && SlugFormat(body.slug.value) && SlugConflict(db, current, body.slug.value))
      && !(SlugRequired in errors && SlugMalformed in errors)
      && !(SlugRequired in errors && SlugInUse in errors)
      && !(SlugMalformed in errors && SlugInUse in errors)
  {
    StoreErrorsExact(body, db, current);
  }

  /** Resubmitting the store's own slug on update never reports it in use. */
  lemma OwnSlugNeverConflicts(body: StoreBody, db: seq<Store>, current: Store)
    requires body.slug.Some? && Trim(body.slug.value) == current.slug
    ensures SlugInUse !in StoreErrors(body, db, Some(current))
  {
    StoreErrorsExact(body, db, Some(current));
  }

  // ---------------------------------------------------------------- the record

  /** Every field the record construction reads with `.trim()` is present. */
  predicate HasRequiredFields(body: StoreBody) {
    && body.name.Some? && body.slug.Some? && body.category.Some? && body.cnpj.Some?
    && body.phone.Some? && body.email.Some? && body.address.Some?
    && body.address.value.zipCode.Some? && body.address.value.street.Some?
    && body.address.value.number.Some? && body.address.value.neighborhood.Some?
    && body.address.value.city.Some? && body.address.value.state.Some?
  }

  /** The persisted record: required strings trimmed, blank optional strings
      and falsy amounts as null. */
  function BuildStoreRecord(id: string, userId: UserId, body: StoreBody): (r: Store)
    requires HasRequiredFields(body)
    ensures r.id == id && r.userId == userId
  {
    var a := body.address.value;
    Store(
      id, userId, Trim(body.name.value), Trim(body.slug.value),
      TrimOrNull(body.description), TrimOrNull(body.image),
      Trim(body.category.value), Trim(body.cnpj.value), Trim(body.phone.value), Trim(body.email.value),
      NonZeroOrNull(body.minimumOrder), NonZeroOrNull(body.deliveryFee), NonZeroOrNull(body.freeShippingThreshold),
      Trim(a.street.value), Trim(a.number.value), TrimOrNull(a.complement),
      Trim(a.neighborhood.value), Trim(a.city.value), Trim(a.state.value), Trim(a.zipCode.value))
  }

  /** Non-empty and without surrounding whitespace, so its own trim
      (`TrimOfTrimmed`). */
  predicate Trimmed(s: string) {
    s != "" && !IsWhitespace(s[0]) && !IsWhitespace(s[|s| - 1])
  }

  predicate OptionalTrimmed(s: Option<string>) {
    s.Some? ==> Trimmed(s.value)
  }

  predicate OptionalNonZero(x: Option<int>) {
    x.Some? ==> x.value != 0
  }

  /** The shape every record the handlers write has. */
  predicate WellFormedStore(s: Store) {
    && Trimmed(s.name) && SlugFormat(s.slug)
    && OptionalTrimmed(s.description) && OptionalTrimmed(s.image)
    && Trimmed(s.category) && Trimmed(s.cnpj) && Trimmed(s.phone) && Trimmed(s.email)
    && OptionalNonZero(s.minimumOrder) && OptionalNonZero(s.deliveryFee)
    && OptionalNonZero(s.freeShippingThreshold)
    && Trimmed(s.street) && Trimmed(s.number) && OptionalTrimmed(s.complement)
    && Trimmed(s.neighborhood) && Trimmed(s.city) && Trimmed(s.state) && Trimmed(s.zipCode)
  }

  lemma TrimmedOf(s: Option<string>)
    requires !Blank(s)
    ensures Trimmed(Trim(s.value))
  {
    TrimEmptyIff(s.value);
  }

  lemma OptionalTrimmedOf(s: Option<string>)
    ensures OptionalTrimmed(TrimOrNull(s))
  {
    if TrimOrNull(s).Some? {
      TrimmedOf(s);
    }
  }

  /** A slug in the required format has nothing to trim. */
  lemma FormattedSlugIsTrimmed(slug: string)
    requires SlugFormat(slug)
    ensures Trim(slug) == slug
  {
    forall i | 0 <= i < |slug| ensures !IsWhitespace(slug[i]) {
    }
    TrimNoWhitespace(slug);
  }

  /** The required store-level strings of an accepted body are present. */
  lemma AcceptedHasRequiredFields(body: StoreBody, db: seq<Store>, current: Option<Store>)
    requires Acceptable(body, db, current)
    ensures HasRequiredFields(body)
  {
  }

  /** A body that passed validation builds a well-formed record whose slug
      is the submitted slug itself (a slug matching the format has no
      whitespace to trim). A delivery fee of 0 is stored as null. */
  lemma AcceptedBodyBuildsWellFormedStore(body: StoreBody, db: seq<Store>, current: Option<Store>, id: string, userId: UserId)
    requires Acceptable(body, db, current)
    ensures HasRequiredFields(body)
    ensures WellFormedStore(BuildStoreRecord(id, userId, body))
    ensures BuildStoreRecord(id, userId, body).slug == body.slug.value
    ensures body.deliveryFee == Some(0) ==> BuildStoreRecord(id, userId, body).deliveryFee.None?
  {
    AcceptedHasRequiredFields(body, db, current);
    var a := body.address.value;
    TrimmedOf(body.name); TrimmedOf(body.category); TrimmedOf(body.cnpj);
    TrimmedOf(body.phone); TrimmedOf(body.email);
    TrimmedOf(a.street); TrimmedOf(a.number); TrimmedOf(a.neighborhood);
    TrimmedOf(a.city); TrimmedOf(a.state); TrimmedOf(a.zipCode);
    OptionalTrimmedOf(body.description); OptionalTrimmedOf(body.image); OptionalTrimmedOf(a.complement);
    FormattedSlugIsTrimmed(body.slug.value);
  }

  // ---------------------------------------------------------------- handlers

  /** A store with the flag GET adds to it. */
  datatype OwnedStore = OwnedStore(store: Store, isOwner: bool)

  /** `isOwner: currentUserId ? store.userId === currentUserId : false`. */
  function Annotate(store: Store, caller: Option<UserId>): OwnedStore {
    OwnedStore(store, Truthy(caller) && store.userId == caller.value)
  }

  /** The listing filter: case-insensitive city and exact state, each only
      when its query parameter is non-empty, both compared trimmed. */
  predicate MatchesQuery(city: Option<string>, state: Option<string>, s: Store) {
    && (Truthy(city) ==> Lower(s.city) == Lower(Trim(city.value)))
    && (Truthy(state) ==> s.state == Trim(state.value))
  }

  function StoresOf(listed: seq<OwnedStore>): (r: seq<Store>)
    ensures |r| == |listed|
    ensures forall i :: 0 <= i < |r| ==> r[i] == listed[i].store
  {
    seq(|listed|, i requires 0 <= i < |listed| => listed[i].store)
  }

  /** GET: with a non-empty `slug`, the one store with the trimmed slug;
      otherwise every store matching the city and state parameters, in table
      order. Each listed store says whether the caller owns it. A query that
      throws (`queryFails`) answers 500. */
  method Get(db: seq<Store>, caller: Option<UserId>, slug: Option<string>, city: Option<string>, state: Option<string>,
             queryFails: bool)
    returns (resp: Response<seq<OwnedStore>>)
    ensures queryFails ==> resp == ServerError
    ensures !queryFails && Truthy(slug) ==> (resp == NotFound <==> !SlugTaken(db, Trim(slug.value)))
    ensures !queryFails && Truthy(slug) && !resp.NotFound? ==>
              resp.Ok? && |resp.body| == 1 && resp.body[0].store in db
              && resp.body[0].store.slug == Trim(slug.value)
    ensures !queryFails && !Truthy(slug) ==>
              resp.Ok? && StoresOf(resp.body) == Filter((s: Store) => MatchesQuery(city, state, s), db)
    ensures resp.Ok? ==> forall i :: 0 <= i < |resp.body| ==>
              (resp.body[i].isOwner <==> Truthy(caller) && resp.body[i].store.userId == caller.value)
  {
    if queryFails {
      return ServerError;
    }
    if Truthy(slug) {
      var found := FindBySlug(db, Trim(slug.value));
      if found.None? {
        return NotFound;
      }
      return Ok([Annotate(found.value, caller)]);
    }
    var stores := Filter((s: Store) => MatchesQuery(city, state, s), db);
    var listed := seq(|stores|, i requires 0 <= i < |stores| => Annotate(stores[i], caller));
    assert StoresOf(listed) == stores;
    resp := Ok(listed);
  }

  /** What a failed `prisma.store.create` threw: a unique-constraint
      violation (P2002) on the named columns, or anything else. */
  datatype DbFault = UniqueViolation(target: seq<string>) | OtherFault

  /** The catch block of POST. */
  function CreateFailure(fault: DbFault): (r: Response<Store>)
    ensures r == BadRequest([CnpjTaken]) <==> fault.UniqueViolation? && "cnpj" in fault.target
    ensures r != BadRequest([CnpjTaken]) ==> r == ServerError
  {
    if fault.UniqueViolation? && "cnpj" in fault.target then BadRequest([CnpjTaken]) else ServerError
  }

  /** What a create that passed validation writes. */
  lemma AcceptedCreate(body: StoreBody, db: seq<Store>, id: string, userId: UserId)
    requires StoreErrors(body, db, None) == []
    ensures HasRequiredFields(body)
    ensures var store := BuildStoreRecord(id, userId, body);
      WellFormedStore(store) && store.userId == userId && !SlugTaken(db, store.slug)
  {
    StoreErrorsEmptyIff(body, db, None);
    AcceptedBodyBuildsWellFormedStore(body, db, None, id, userId);
  }

  /** POST: 401 without a caller, 400 with the validation errors, then the
      insert, which either fails (`fault`) or puts the new store in front. */
  method Post(db: seq<Store>, caller: Option<UserId>, body: StoreBody, newId: string, fault: Option<DbFault>)
    returns (resp: Response<Store>, db': seq<Store>)
    ensures !Truthy(caller) ==> resp == Unauthorized && db' == db
    ensures Truthy(caller) && StoreErrors(body, db, None) != [] ==>
              resp == BadRequest(Messages(StoreErrors(body, db, None))) && db' == db
    ensures Truthy(caller) && StoreErrors(body, db, None) == [] && fault.Some? ==>
              resp == CreateFailure(fault.value) && db' == db
    ensures Truthy(caller) && StoreErrors(body, db, None) == [] && fault.None? ==>
              && HasRequiredFields(body)
              && resp == Created(BuildStoreRecord(newId, caller.value, body))
              && db' == [resp.body] + db
    ensures resp.Created? ==>
              WellFormedStore(resp.body) && resp.body.userId == caller.value && !SlugTaken(db, resp.body.slug)
  {
    if !Truthy(caller) {
      return Unauthorized, db;
    }
    var errors := ValidateStore(body, db, None);
    if |errors| > 0 {
      return BadRequest(Messages(errors)), db;
    }
    if fault.Some? {
      return CreateFailure(fault.value), db;
    }
    AcceptedCreate(body, db, newId, caller.value);
    var store := BuildStoreRecord(newId, caller.value, body);
    resp, db' := Created(store), [store] + db;
  }

  /** What an update that passed validation writes. */
  lemma AcceptedUpdate(body: StoreBody, db: seq<Store>, current: Store, id: string, userId: UserId)
    requires StoreErrors(body, db, Some(current)) == []
    ensures HasRequiredFields(body)
    ensures var store := BuildStoreRecord(id, userId, body);
      WellFormedStore(store) && store.userId == userId && store.id == id
  {
    StoreErrorsEmptyIff(body, db, Some(current));
    AcceptedBodyBuildsWellFormedStore(body, db, Some(current), id, userId);
  }

  /** Whether a row other than `k` already holds `slug`; the unique slug
      column then makes writing it at `k` throw. */
  predicate SlugHeldElsewhere(db: seq<Store>, k: nat, slug: string) {
    exists i :: 0 <= i < |db| && i != k && db[i].slug == slug
  }

  /** Writing a row whose slug no other row holds keeps slugs unique. */
  lemma WriteKeepsSlugsUnique(db: seq<Store>, k: nat, store: Store)
    requires StoreTableUnique(db) && k < |db|
    requires !SlugHeldElsewhere(db, k, store.slug)
    ensures StoreTableUnique(db[k := store])
  {
    var db' := db[k := store];
    forall i, j | 0 <= i < j < |db'| ensures db'[i].slug != db'[j].slug {
      if i == k {
        assert db[j].slug != store.slug;
      } else if j == k {
        assert db[i].slug != store.slug;
      }
    }
  }

  /** The part of PUT after the ownership check: 400 with the validation
      errors, otherwise the update, which writes to the first store owned by
      the caller and fails with 500 when the database does. */
  method SaveOwnStore(db: seq<Store>, caller: UserId, current: Store, body: StoreBody, updateFails: bool)
    returns (resp: Response<Store>, db': seq<Store>)
    requires current in db && current.userId == caller
    ensures StoreErrors(body, db, Some(current)) != [] ==>
              resp == BadRequest(Messages(StoreErrors(body, db, Some(current)))) && db' == db
    ensures StoreErrors(body, db, Some(current)) == [] && updateFails ==> resp == ServerError && db' == db
    ensures StoreErrors(body, db, Some(current)) == [] && !updateFails ==>
              var k := IndexOfOwner(db, caller);
              && HasRequiredFields(body) && k.Some?
              && var store := BuildStoreRecord(db[k.value].id, caller, body);
                 && (SlugHeldElsewhere(db, k.value, store.slug) ==> resp == ServerError && db' == db)
                 && (!SlugHeldElsewhere(db, k.value, store.slug) ==> resp == Ok(store) && db' == db[k.value := store])
    ensures resp.Ok? ==> WellFormedStore(resp.body) && resp.body.userId == caller
    ensures StoreTableUnique(db) ==> StoreTableUnique(db')
  {
    var errors := ValidateStore(body, db, Some(current));
    if |errors| > 0 {
      return BadRequest(Messages(errors)), db;
    }
    var owned := IndexOfOwner(db, caller);
    if owned.None? {
      // the store found by id is owned by the caller, so this lookup succeeds
      assert false;
      return NotFound, db;
    }
    if updateFails {
      return ServerError, db;
    }
    var k := owned.value;
    AcceptedUpdate(body, db, current, db[k].id, caller);
    var store := BuildStoreRecord(db[k].id, caller, body);
    if SlugHeldElsewhere(db, k, store.slug) {
      return ServerError, db;
    }
    resp, db' := Ok(store), db[k := store];
    if StoreTableUnique(db) {
      WriteKeepsSlugsUnique(db, k, store);
    }
  }

  /** PUT: 401, then the store named by `id` (a body without `id` makes the
      lookup throw), 404, 403 for another owner's store, and then
      `SaveOwnStore`. */
  method Put(db: seq<Store>, caller: Option<UserId>, body: StoreBody, updateFails: bool)
    returns (resp: Response<Store>, db': seq<Store>)
    ensures !Truthy(caller) ==> resp == Unauthorized && db' == db
    ensures Truthy(caller) && body.id.None? ==> resp == ServerError && db' == db
    ensures Truthy(caller) && body.id.Some? && IndexOfId(db, body.id.value).None? ==>
              resp == NotFound && db' == db
    ensures Truthy(caller) && body.id.Some? && IndexOfId(db, body.id.value).Some? ==>
              var current := db[IndexOfId(db, body.id.value).value];
              && (current.userId != caller.value ==> resp == Forbidden && db' == db)
              && (current.userId == caller.value && StoreErrors(body, db, Some(current)) != [] ==>
                    resp == BadRequest(Messages(StoreErrors(body, db, Some(current)))) && db' == db)
              && (current.userId == caller.value && StoreErrors(body, db, Some(current)) == [] && updateFails ==>
                    resp == ServerError && db' == db)
              && (current.userId == caller.value && StoreErrors(body, db, Some(current)) == [] && !updateFails ==>
                    var k := IndexOfOwner(db, caller.value);
                    && HasRequiredFields(body) && k.Some?
                    && var store := BuildStoreRecord(db[k.value].id, caller.value, body);
                       && (SlugHeldElsewhere(db, k.value, store.slug) ==> resp == ServerError && db' == db)
                       && (!SlugHeldElsewhere(db, k.value, store.slug) ==>
                             resp == Ok(store) && db' == db[k.value := store]))
    ensures resp.Ok? ==> WellFormedStore(resp.body) && resp.body.userId == caller.value
    ensures StoreTableUnique(db) ==> StoreTableUnique(db')
  {
    if !Truthy(caller) {
      return Unauthorized, db;
    }
    if body.id.None? {
      return ServerError, db;
    }
    var at := IndexOfId(db, body.id.value);
    if at.None? {
      return NotFound, db;
    }
    var current := db[at.value];
    if current.userId != caller.value {
      return Forbidden, db;
    }
    resp, db' := SaveOwnStore(db, caller.value, current, body, updateFails);
  }

  /** When the caller owns only the store named by `id`, the update lands on
      that very store. */
  lemma UpdateTargetsNamedStore(db: seq<Store>, caller: UserId, at: nat)
    requires at < |db| && db[at].userId == caller
    requires forall i :: 0 <= i < |db| && i != at ==> db[i].userId != caller
    ensures IndexOfOwner(db, caller) == Some(at)
  {
  }

  /** An accepted update by a caller who owns only the store named by `id`
      never meets the unique slug column and keeps slugs unique: the slug is
      either that store's own or one the uniqueness lookup did not find. */
  lemma {:induction false} UpdateKeepsSlugsUnique(db: seq<Store>, caller: UserId, at: nat, body: StoreBody)
    requires StoreTableUnique(db)
    requires at < |db| && db[at].userId == caller
    requires forall i :: 0 <= i < |db| && i != at ==> db[i].userId != caller
    requires StoreErrors(body, db, Some(db[at])) == []
    ensures HasRequiredFields(body) && IndexOfOwner(db, caller) == Some(at)
    ensures !SlugHeldElsewhere(db, at, BuildStoreRecord(db[at].id, caller, body).slug)
    ensures StoreTableUnique(db[at := BuildStoreRecord(db[at].id, caller, body)])
  {
    StoreErrorsEmptyIff(body, db, Some(db[at]));
    AcceptedBodyBuildsWellFormedStore(body, db, Some(db[at]), db[at].id, caller);
    FormattedSlugIsTrimmed(body.slug.value);
    var db' := db[at := BuildStoreRecord(db[at].id, caller, body)];
    var slug := db'[at].slug;
    assert slug == Trim(body.slug.value);
    forall i, j | 0 <= i < j < |db'| ensures db'[i].slug != db'[j].slug {
      if i != at && j != at {
        assert db'[i] == db[i] && db'[j] == db[j];
      } else if slug != db[at].slug {
        assert !SlugTaken(db, slug);
      }
    }
  }

  /** A caller who owns two stores and updates the second one, keeping its
      slug, passes validation, but the write goes to the first one: the
      lookup by `id` and the write by owner pick different rows. The slug is
      then held by another row, so the unique column makes the update throw
      and PUT answers 500 with the table unchanged. */
  lemma UpdateOfSecondStoreHitsUniqueSlug(db: seq<Store>, caller: UserId, body: StoreBody)
    requires |db| == 2 && db[0].userId == caller && db[1].userId == caller
    requires db[0].id != db[1].id && db[0].slug != db[1].slug
    requires body.id == Some(db[1].id) && body.slug == Some(db[1].slug)
    requires StoreErrors(body, db, Some(db[1])) == []
    ensures IndexOfId(db, body.id.value) == Some(1) && IndexOfOwner(db, caller) == Some(0)
    ensures HasRequiredFields(body)
    ensures SlugHeldElsewhere(db, 0, BuildStoreRecord(db[0].id, caller, body).slug)
  {
    StoreErrorsEmptyIff(body, db, Some(db[1]));
    AcceptedBodyBuildsWellFormedStore(body, db, Some(db[1]), db[0].id, caller);
    assert db[1].slug == BuildStoreRecord(db[0].id, caller, body).slug;
  }

  /** DELETE: 401, 404 when the caller owns no store, otherwise the first
      store the caller owns is removed and nothing else. */
  method Delete(db: seq<Store>, caller: Option<UserId>, deleteFails: bool) returns (resp: Response<()>, db': seq<Store>)
    ensures !Truthy(caller) ==> resp == Unauthorized && db' == db
    ensures Truthy(caller) && IndexOfOwner(db, caller.value).None? ==> resp == NotFound && db' == db
    ensures Truthy(caller) && IndexOfOwner(db, caller.value).Some? && deleteFails ==>
              resp == ServerError && db' == db
    ensures Truthy(caller) && IndexOfOwner(db, caller.value).Some? && !deleteFails ==>
              var k := IndexOfOwner(db, caller.value).value;
              resp == Ok(()) && db' == db[..k] + db[k + 1..]
    ensures resp.Ok? ==> |db'| == |db| - 1 && forall s :: s in db && s.userId != caller.value ==> s in db'
  {
    if !Truthy(caller) {
      return Unauthorized, db;
    }
    var owned := IndexOfOwner(db, caller.value);
    if owned.None? {
      return NotFound, db;
    }
    if deleteFails {
      return ServerError, db;
    }
    var k := owned.value;
    db' := db[..k] + db[k + 1..];
    resp := Ok(());
    forall s | s in db && s.userId != caller.value ensures s in db' {
      var i :| 0 <= i < |db| && db[i] == s;
      if i < k {
        assert db'[i] == s;
      } else {
        assert i != k;
        assert db'[i - 1] == s;
      }
    }
  }

  /** No two stores share a slug (the column is unique). */
  ghost predicate StoreTableUnique(db: seq<Store>) {
    forall i, j :: 0 <= i < j < |db| ==> db[i].slug != db[j].slug
  }

  /** A successful create keeps slugs unique: validation rejected a slug
      already in the table. */
  lemma CreateKeepsSlugsUnique(db: seq<Store>, store: Store)
    requires StoreTableUnique(db)
    requires !SlugTaken(db, store.slug)
    ensures StoreTableUnique([store] + db)
  {
    var db' := [store] + db;
    forall i, j | 0 <= i < j < |db'| ensures db'[i].slug != db'[j].slug {
      if i == 0 {
        assert db'[j] == db[j - 1];
      } else {
        assert db'[i] == db[i - 1] && db'[j] == db[j - 1];
      }
    }
  }
}
