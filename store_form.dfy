/** The `StoreForm` component: one state field per input, filled from
    `initialData` when editing, completed from a ViaCEP answer one field at a
    time, and turned into the submitted payload. */
module StoreFormComponent {
  import opened Js
  import opened Cep
  import PanelPage
  import StoresApi

  /** The content of an amount input: empty, or a number (integer cents;
      `parseFloat` is not modelled). */
  datatype Amount = Empty | Entered(cents: int)

  /** `initialData.address`, any field of which may be missing. */
  datatype InitialAddress = InitialAddress(
    zipCode: Option<string>, street: Option<string>, number: Option<string>,
    complement: Option<string>, neighborhood: Option<string>,
    city: Option<string>, state: Option<string>)

  /** `initialData`: the store being edited. */
  datatype InitialData = InitialData(
    name: Option<string>, description: Option<string>, category: Option<string>,
    cnpj: Option<string>, phone: Option<string>, email: Option<string>,
    minimumOrder: Option<int>, deliveryFee: Option<int>, address: Option<InitialAddress>)

  /** The object handed to `onSubmit`. */
  datatype Payload = Payload(
    name: string, description: string, category: string, cnpj: string,
    phone: string, email: string, minimumOrder: Option<int>, deliveryFee: Option<int>,
    address: AddressFields)

  /** `x || ""` on a text field. */
  function TextOr(s: Option<string>): (r: string)
    ensures Truthy(s) ==> r == s.value
    ensures !Truthy(s) ==> r == ""
  {
    if Truthy(s) then s.value else ""
  }

  /** `x || ""` on an amount: zero and a missing amount leave the input empty. */
  function AmountOf(x: Option<int>): (r: Amount)
    ensures r.Empty? <==> x.None? || x.value == 0
    ensures r.Entered? ==> x == Some(r.cents)
  {
    if x.Some? && x.value != 0 then Entered(x.value) else Empty
  }

  /** `x ? parseFloat(x) : null`. */
  function Parsed(a: Amount): (r: Option<int>)
    ensures r.None? <==> a.Empty?
    ensures r.Some? ==> r.value == a.cents
  {
    match a
    case Empty => None
    case Entered(c) => Some(c)
  }

  /** Loading an amount into the form and submitting it unchanged gives the
      amount back, except that zero comes back as null. */
  lemma AmountRoundTrip(x: Option<int>)
    ensures Parsed(AmountOf(x)) == NonZeroOrNull(x)
  {
  }

  /** The fields the store-form merge writes after a usable answer: each of
      street, neighbourhood, city and state only when the answer supplies
      it, the city preferring the matched list entry. */
  function FormMerge(prev: AddressFields, value: string, data: CepData, cities: seq<City>): (r: AddressFields)
    ensures r.zipCode == value && r.number == prev.number && r.complement == prev.complement
    ensures Truthy(data.logradouro) ==> r.street == data.logradouro.value
    ensures !Truthy(data.logradouro) ==> r.street == prev.street
    ensures Truthy(data.bairro) ==> r.neighborhood == data.bairro.value
    ensures !Truthy(data.bairro) ==> r.neighborhood == prev.neighborhood
    ensures !Truthy(data.localidade) ==> r.city == prev.city
    ensures Truthy(data.localidade) && CityOfAnswer(cities, data).Some? ==> r.city == CityOfAnswer(cities, data).value.name
    ensures Truthy(data.localidade) && CityOfAnswer(cities, data).None? ==> r.city == data.localidade.value
    ensures Truthy(StateCodeOf(data.uf)) ==> r.state == StateCodeOf(data.uf).value
    ensures !Truthy(StateCodeOf(data.uf)) ==> r.state == prev.state
  {
    var code := StateCodeOf(data.uf);
    var cityData := CityOfAnswer(cities, data);
    prev.(
      zipCode := value,
      street := if Truthy(data.logradouro) then data.logradouro.value else prev.street,
      neighborhood := if Truthy(data.bairro) then data.bairro.value else prev.neighborhood,
      city := if !Truthy(data.localidade) then prev.city
              else if cityData.Some? then cityData.value.name else data.localidade.value,
      state := if Truthy(code) then code.value else prev.state)
  }

  /** The store form and the profile panel fill an address the same way,
      except for an answer with an empty locality that still matches a city
      entry: the panel takes that entry's name, the form keeps its city. */
  lemma FormMergeAgreesWithPanel(prev: AddressFields, value: string, data: CepData, cities: seq<City>)
    ensures FormMerge(prev, value, data, cities) == PanelPage.MergeAnswer(prev, value, data, cities)
            <==> Truthy(data.localidade) || CityOfAnswer(cities, data).None?
                 || CityOfAnswer(cities, data).value.name == prev.city
  {
  }

  /** The address after `handleZipCodeChange(value)`: the typed value, then
      the merge when there was a lookup and its answer is usable. */
  function FormAfterLookup(prev: AddressFields, value: string, reply: Option<CepData>, cities: seq<City>): (r: AddressFields)
    ensures !ShouldLookUp(value) || !AnswerUsable(cities, reply) ==> r == prev.(zipCode := value)
    ensures ShouldLookUp(value) && AnswerUsable(cities, reply) ==> r == FormMerge(prev, value, reply.value, cities)
  {
    var typed := prev.(zipCode := value);
    if ShouldLookUp(value) && AnswerUsable(cities, reply) then FormMerge(typed, value, reply.value, cities) else typed
  }

  /** As the form builds it, the payload carries no slug, so the stores route
      answers every submission sent as is with "Identificação única é obrigatória". */
  function AsStoreBody(p: Payload): (b: StoresApi.StoreBody)
    ensures b.slug.None? && b.address.Some?
    ensures b.name == Some(p.name) && b.minimumOrder == p.minimumOrder && b.deliveryFee == p.deliveryFee
  {
    StoresApi.StoreBody(
      None, Some(p.name), None, Some(p.description), None, Some(p.category),
      Some(p.cnpj), Some(p.phone), Some(p.email), p.minimumOrder, p.deliveryFee, None,
      Some(StoresApi.AddressBody(
        Some(p.address.zipCode), Some(p.address.street), Some(p.address.number),
        Some(p.address.complement), Some(p.address.neighborhood),
        Some(p.address.city), Some(p.address.state))))
  }

  lemma PayloadIsRejectedForSlug(p: Payload, db: seq<StoresApi.Store>, current: Option<StoresApi.Store>)
    ensures StoresApi.SlugRequired in StoresApi.StoreErrors(AsStoreBody(p), db, current)
    ensures !StoresApi.Acceptable(AsStoreBody(p), db, current)
  {
    StoresApi.StoreErrorsExact(AsStoreBody(p), db, current);
  }

  /** The form's inputs outside the address. */
  datatype Details = Details(
    name: string, description: string, category: string, cnpj: string,
    phone: string, email: string, minimumOrder: Amount, deliveryFee: Amount)

  /** The details the sync effect copies from `initialData`. */
  function SyncedDetails(d: InitialData): (r: Details)
    ensures r.name == TextOr(d.name) && r.description == TextOr(d.description)
    ensures r.category == TextOr(d.category) && r.cnpj == TextOr(d.cnpj)
    ensures r.phone == TextOr(d.phone) && r.email == TextOr(d.email)
    ensures Parsed(r.minimumOrder) == NonZeroOrNull(d.minimumOrder)
    ensures Parsed(r.deliveryFee) == NonZeroOrNull(d.deliveryFee)
  {
    Details(TextOr(d.name), TextOr(d.description), TextOr(d.category), TextOr(d.cnpj),
            TextOr(d.phone), TextOr(d.email), AmountOf(d.minimumOrder), AmountOf(d.deliveryFee))
  }

  /** The address the sync effect copies from `initialData.address`; every
      field is `""` when there is no address. */
  function SyncedAddress(d: InitialData): (r: AddressFields)
    ensures d.address.None? ==> r == AddressFields("", "", "", "", "", "", "")
    ensures d.address.Some? ==> r.street == TextOr(d.address.value.street) && r.city == TextOr(d.address.value.city)
    ensures d.address.Some? ==> r.zipCode == TextOr(d.address.value.zipCode) && r.state == TextOr(d.address.value.state)
    ensures d.address.Some? ==> r.number == TextOr(d.address.value.number)
    ensures d.address.Some? ==> r.neighborhood == TextOr(d.address.value.neighborhood)
    ensures d.address.Some? ==> r.complement == TextOr(d.address.value.complement)
  {
    var a := d.address.GetOr(InitialAddress(None, None, None, None, None, None, None));
    AddressFields(TextOr(a.street), TextOr(a.number), TextOr(a.complement), TextOr(a.neighborhood),
                  TextOr(a.city), TextOr(a.state), TextOr(a.zipCode))
  }

  /** The payload `handleSubmit` builds from the inputs. */
  function Submitted(d: Details, a: AddressFields): (p: Payload)
    ensures p.address == a
    ensures p.name == d.name && p.description == d.description && p.category == d.category
    ensures p.cnpj == d.cnpj && p.phone == d.phone && p.email == d.email
    ensures p.minimumOrder.None? <==> d.minimumOrder.Empty?
    ensures p.deliveryFee.None? <==> d.deliveryFee.Empty?
    ensures d.minimumOrder.Entered? ==> p.minimumOrder == Some(d.minimumOrder.cents)
    ensures d.deliveryFee.Entered? ==> p.deliveryFee == Some(d.deliveryFee.cents)
  {
    Payload(d.name, d.description, d.category, d.cnpj, d.phone, d.email,
            Parsed(d.minimumOrder), Parsed(d.deliveryFee), a)
  }

  /** Opening a store for editing and submitting it untouched sends back its
      own values, with `""` for every missing text and null for a missing or
      zero amount. */
  lemma UntouchedEditResubmits(d: InitialData)
    ensures var p := Submitted(SyncedDetails(d), SyncedAddress(d));
      && p.name == TextOr(d.name) && p.email == TextOr(d.email) && p.cnpj == TextOr(d.cnpj)
      && p.minimumOrder == NonZeroOrNull(d.minimumOrder) && p.deliveryFee == NonZeroOrNull(d.deliveryFee)
      && (d.address.Some? ==>
            && p.address.zipCode == TextOr(d.address.value.zipCode)
            && p.address.city == TextOr(d.address.value.city)
            && p.address.state == TextOr(d.address.value.state))
      && (d.address.None? ==> p.address == AddressFields("", "", "", "", "", "", ""))
  {
  }

  /** The four conditional `set` calls of a usable answer, one field at a
      time. */
  method FillFromAnswer(prev: AddressFields, value: string, data: CepData, cities: seq<City>) returns (r: AddressFields)
    requires prev.zipCode == value
    ensures r == FormMerge(prev, value, data, cities)
  {
    var code := StateCodeOf(data.uf);
    var cityData := CityOfAnswer(cities, data);
    r := prev;
    if Truthy(data.logradouro) {
      r := r.(street := data.logradouro.value);
    }
    if Truthy(data.bairro) {
      r := r.(neighborhood := data.bairro.value);
    }
    if Truthy(data.localidade) {
      r := r.(city := if cityData.Some? then cityData.value.name else data.localidade.value);
    }
    if Truthy(code) {
      r := r.(state := code.value);
    }
  }

  /** The component's state. */
  class StoreForm {
    var name: string
    var description: string
    var category: string
    var cnpj: string
    var phone: string
    var email: string
    var minimumOrder: Amount
    var deliveryFee: Amount
    var zipCode: string
    var street: string
    var number: string
    var complement: string
    var neighborhood: string
    var city: string
    var state: string
    var zipCodeLoading: bool
    /** The `cities` prop. */
    const cities: seq<City>

    function Address(): AddressFields
      reads this
    {
      AddressFields(street, number, complement, neighborhood, city, state, zipCode)
    }

    function Inputs(): Details
      reads this
    {
      Details(name, description, category, cnpj, phone, email, minimumOrder, deliveryFee)
    }

    constructor (cities: seq<City>)
      ensures this.cities == cities
      ensures name == "" && description == "" && category == "" && cnpj == ""
      ensures phone == "" && email == "" && minimumOrder == Empty && deliveryFee == Empty
      ensures Address() == AddressFields("", "", "", "", "", "", "") && !zipCodeLoading
    {
      this.cities := cities;
      name, description, category, cnpj, phone, email := "", "", "", "", "", "";
      minimumOrder, deliveryFee := Empty, Empty;
      zipCode, street, number, complement, neighborhood, city, state := "", "", "", "", "", "", "";
      zipCodeLoading := false;
    }

    /** The effect that copies `initialData` into the fields: every missing
        or empty value becomes `""`; without `initialData` nothing changes. */
    method SyncFromInitialData(initial: Option<InitialData>)
      modifies this`name, this`description, this`category, this`cnpj, this`phone, this`email
      modifies this`minimumOrder, this`deliveryFee
      modifies this`zipCode, this`street, this`number, this`complement, this`neighborhood, this`city, this`state
      ensures initial.None? ==> unchanged(this)
      ensures initial.Some? ==> Inputs() == SyncedDetails(initial.value)
      ensures initial.Some? ==> Address() == SyncedAddress(initial.value)
    {
      if initial.Some? {
        SetInputs(SyncedDetails(initial.value));
        SetAddress(SyncedAddress(initial.value));
      }
    }

    /** The `set` calls of the inputs outside the address. */
    method SetInputs(det: Details)
      modifies this`name, this`description, this`category, this`cnpj, this`phone, this`email
      modifies this`minimumOrder, this`deliveryFee
      ensures Inputs() == det
    {
      name, description, category, cnpj, phone, email := det.name, det.description, det.category, det.cnpj, det.phone, det.email;
      minimumOrder, deliveryFee := det.minimumOrder, det.deliveryFee;
    }

    /** The `set` calls of the address inputs. */
    method SetAddress(a: AddressFields)
      modifies this`zipCode, this`street, this`number, this`complement, this`neighborhood, this`city, this`state
      ensures Address() == a
    {
      street, number, complement, neighborhood := a.street, a.number, a.complement, a.neighborhood;
      city, state, zipCode := a.city, a.state, a.zipCode;
    }

    /** `handleZipCodeChange`: `reply` is the ViaCEP answer, `None` when the
        request or its JSON failed. */
    method HandleZipCodeChange(value: string, reply: Option<CepData>)
      modifies this`zipCode, this`street, this`neighborhood, this`city, this`state, this`zipCodeLoading
      ensures Address() == FormAfterLookup(old(Address()), value, reply, cities)
      ensures zipCodeLoading == (if ShouldLookUp(value) then false else old(zipCodeLoading))
    {
      zipCode := value;
      var clean := CleanZip(value);
      if |clean| == 8 {
        zipCodeLoading := true;
        if reply.Some? && !reply.value.erro && !MatchThrows(cities, reply.value) {
          var r := FillFromAnswer(Address(), value, reply.value, cities);
          street, neighborhood, city, state := r.street, r.neighborhood, r.city, r.state;
        }
        zipCodeLoading := false;
      }
    }

    /** The state select's `onChange`: the new state, and no city. */
    method HandleStateChange(newState: string)
      modifies this`state, this`city
      ensures state == newState && city == ""
    {
      state := newState;
      city := "";
    }

    /** The options of the city select. */
    function CityOptions(): (r: seq<City>)
      reads this
      ensures forall i :: 0 <= i < |r| ==> r[i].stateId == state
    {
      CitiesOfState(cities, state)
    }

    /** `handleSubmit`: the fields as they are, the amounts parsed or null. */
    function SubmittedPayload(): (p: Payload)
      reads this
      ensures p.name == name && p.description == description && p.category == category
      ensures p.cnpj == cnpj && p.phone == phone && p.email == email
      ensures p.address.zipCode == zipCode && p.address.street == street && p.address.number == number
      ensures p.address.complement == complement && p.address.neighborhood == neighborhood
      ensures p.address.city == city && p.address.state == state
      ensures p.minimumOrder.None? <==> minimumOrder.Empty?
      ensures p.deliveryFee.None? <==> deliveryFee.Empty?
      ensures minimumOrder.Entered? ==> p.minimumOrder == Some(minimumOrder.cents)
      ensures deliveryFee.Entered? ==> p.deliveryFee == Some(deliveryFee.cents)
    {
      Submitted(Inputs(), Address())
    }
  }
}
