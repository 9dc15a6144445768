/** The profile panel (`/painel`): the tab chosen by the URL, the city lists
    of the selected states, how a stored state code is displayed, and the two
    postal-code handlers that fill the address form and the store form from a
    ViaCEP answer. */
module PanelPage {
  import opened Js
  import opened Cep
  import StateCodes
  import CartPage

  // ---------------------------------------------------------------- tabs

  /** The tabs the `tab` URL parameter may select. */
  predicate IsTab(tab: string) {
    tab == "personal" || tab == "addresses" || tab == "stores"
  }

  /** The active tab after reading the `tab` parameter: the parameter when it
      names a tab, the current tab otherwise. */
  function TabAfterParam(current: string, tab: Option<string>): (r: string)
    ensures Truthy(tab) && IsTab(tab.value) ==> r == tab.value
    ensures !(Truthy(tab) && IsTab(tab.value)) ==> r == current
    ensures IsTab(current) ==> IsTab(r)
  {
    if Truthy(tab) && IsTab(tab.value) then tab.value else current
  }

  // ---------------------------------------------------------------- city lists

  /** The filtered city list of a form: the cities of its state, none while
      no state is selected. */
  function PanelCities(cities: seq<City>, state: string): (r: seq<City>)
    ensures state == "" ==> r == []
    ensures forall i :: 0 <= i < |r| ==> r[i].stateId == state
  {
    if state == "" then [] else CitiesOfState(cities, state)
  }

  /** A city is offered exactly when a state is selected and the city is of
      that state; the list keeps the order of the city list. */
  lemma PanelCitiesExact(cities: seq<City>, state: string)
    ensures forall c :: c in PanelCities(cities, state) <==> state != "" && c in cities && c.stateId == state
    ensures IsSubsequence(PanelCities(cities, state), cities)
  {
    CitiesOfStateExact(cities, state);
  }

  // ---------------------------------------------------------------- state display

  /** `stateCodeToUf[state] || state`. */
  function DisplayState(state: string): (r: string)
    ensures state !in StateCodes.StateCodeToUf() ==> r == state
  {
    var table := StateCodes.StateCodeToUf();
    if state in table && table[state] != "" then table[state] else state
  }

  /** The code of a UF is displayed as that UF. */
  lemma DisplayStateOfCode(uf: string)
    requires uf in StateCodes.UfToStateCode()
    ensures DisplayState(StateCodes.UfToStateCode()[uf]) == uf
  {
    StateCodes.CodeOfUfRoundTrip(uf);
    StateCodes.UfAndCodeShape(uf);
  }

  /** On a stored state code the panel and the cart page show the same UF. */
  lemma DisplayAgreesWithCartPage(code: string)
    requires code in StateCodes.StateCodeToUf()
    ensures DisplayState(code) == CartPage.StateDisplay(code)
  {
    var uf := StateCodes.StateCodeToUf()[code];
    StateCodes.UfOfCodeRoundTrip(code);
    DisplayStateOfCode(uf);
    CartPage.StateDisplayOfCode(uf);
  }

  // ---------------------------------------------------------------- postal code

  /** The address fields after a usable ViaCEP answer: the typed code; street,
      neighbourhood and state from the answer when it has them; the city
      entry matching the answer, else its locality, else the previous city;
      number and complement as they were. */
  function MergeAnswer(prev: AddressFields, value: string, data: CepData, cities: seq<City>): (r: AddressFields)
    ensures r.zipCode == value && r.number == prev.number && r.complement == prev.complement
    ensures r.street == if Truthy(data.logradouro) then data.logradouro.value else prev.street
    ensures r.neighborhood == if Truthy(data.bairro) then data.bairro.value else prev.neighborhood
    ensures r.state == if Truthy(StateCodeOf(data.uf)) then StateCodeOf(data.uf).value else prev.state
    ensures CityOfAnswer(cities, data).Some? ==> r.city == CityOfAnswer(cities, data).value.name
    ensures CityOfAnswer(cities, data).None? && Truthy(data.localidade) ==> r.city == data.localidade.value
    ensures CityOfAnswer(cities, data).None? && !Truthy(data.localidade) ==> r.city == prev.city
  {
    var code := StateCodeOf(data.uf);
    var cityData := CityOfAnswer(cities, data);
    prev.(
      zipCode := value,
      street := if Truthy(data.logradouro) then data.logradouro.value else prev.street,
      neighborhood := if Truthy(data.bairro) then data.bairro.value else prev.neighborhood,
      city := if cityData.Some? then cityData.value.name
              else if Truthy(data.localidade) then data.localidade.value else prev.city,
      state := if Truthy(code) then code.value else prev.state)
  }

  /** The form after `handleZipCodeChange(value)` (and its store-form twin):
      the typed value first, then the merge when there was a lookup and its
      answer is usable. */
  function AddressAfterLookup(prev: AddressFields, value: string, reply: Option<CepData>, cities: seq<City>): (r: AddressFields)
    ensures !ShouldLookUp(value) || !AnswerUsable(cities, reply) ==> r == prev.(zipCode := value)
    ensures ShouldLookUp(value) && AnswerUsable(cities, reply) ==> r == MergeAnswer(prev, value, reply.value, cities)
  {
    var typed := prev.(zipCode := value);
    if ShouldLookUp(value) && AnswerUsable(cities, reply) then MergeAnswer(typed, value, reply.value, cities) else typed
  }

  /** Feeding the same answer twice changes nothing more. */
  lemma MergeAnswerIdempotent(prev: AddressFields, value: string, data: CepData, cities: seq<City>)
    ensures MergeAnswer(MergeAnswer(prev, value, data, cities), value, data, cities) == MergeAnswer(prev, value, data, cities)
  {
  }

  /** After a lookup the state is either the one typed before or a state code
      the panel displays as the answer's UF; when a city entry was matched,
      it is offered in the filtered list of that state. */
  lemma LookupFillsKnownState(prev: AddressFields, value: string, reply: Option<CepData>, cities: seq<City>)
    ensures var r := AddressAfterLookup(prev, value, reply, cities);
      && (r.state == prev.state || (r.state in StateCodes.StateCodeToUf() && DisplayState(r.state) == reply.value.uf.value))
      && (ShouldLookUp(value) && AnswerUsable(cities, reply) && CityOfAnswer(cities, reply.value).Some? ==>
            exists c :: c in PanelCities(cities, r.state) && c.name == r.city)
  {
    var r := AddressAfterLookup(prev, value, reply, cities);
    if ShouldLookUp(value) && AnswerUsable(cities, reply) {
      var data := reply.value;
      var code := StateCodeOf(data.uf);
      if Truthy(code) {
        StateCodeOfIsKnownCode(data.uf);
        DisplayStateOfCode(data.uf.value);
      }
      if CityOfAnswer(cities, data).Some? {
        var c := CityOfAnswer(cities, data).value;
        MatchedCityIsOffered(cities, data);
        StateCodes.CodeOfUfRoundTrip(data.uf.value);
        StateCodes.UfAndCodeShape(data.uf.value);
        PanelCitiesExact(cities, r.state);
        CitiesOfStateExact(cities, r.state);
        assert c in PanelCities(cities, r.state) && c.name == r.city;
      }
    }
  }

  // ---------------------------------------------------------------- the page

  /** The store form's fields other than the address, as typed. */
  datatype StoreDetails = StoreDetails(
    name: string, description: string, category: string, cnpj: string,
    phone: string, email: string, minimumOrder: string, deliveryFee: string)

  /** `storeFormData`. */
  datatype StoreFormData = StoreFormData(details: StoreDetails, address: AddressFields)

  const EmptyAddress := AddressFields("", "", "", "", "", "", "")

  /** The panel state the modelled handlers read and write. */
  class ProfilePanel {
    var activeTab: string
    var addressForm: AddressFields
    var addressIsPrimary: bool
    var storeForm: StoreFormData
    var cities: seq<City>
    var zipCodeLoading: bool
    var storeZipCodeLoading: bool

    /** The active tab is always one of the three tabs. */
    ghost predicate Valid()
      reads this
    {
      IsTab(activeTab)
    }

    constructor ()
      ensures Valid() && activeTab == "personal"
      ensures addressForm == EmptyAddress && !addressIsPrimary
      ensures storeForm == StoreFormData(StoreDetails("", "", "", "", "", "", "", ""), EmptyAddress)
      ensures cities == [] && !zipCodeLoading && !storeZipCodeLoading
    {
      activeTab := "personal";
      addressForm := EmptyAddress;
      addressIsPrimary := false;
      storeForm := StoreFormData(StoreDetails("", "", "", "", "", "", "", ""), EmptyAddress);
      cities := [];
      zipCodeLoading := false;
      storeZipCodeLoading := false;
    }

    /** The effect that reads the `tab` URL parameter. */
    method ReadTabParam(tab: Option<string>)
      requires Valid()
      modifies this
      ensures Valid()
      ensures activeTab == TabAfterParam(old(activeTab), tab)
      ensures addressForm == old(addressForm) && addressIsPrimary == old(addressIsPrimary)
      ensures storeForm == old(storeForm) && cities == old(cities)
      ensures zipCodeLoading == old(zipCodeLoading) && storeZipCodeLoading == old(storeZipCodeLoading)
    {
      if Truthy(tab) && IsTab(tab.value) {
        activeTab := tab.value;
      }
    }

    /** `filteredCities` for the address form. */
    function FilteredCities(): seq<City>
      reads this
    {
      PanelCities(cities, addressForm.state)
    }

    /** `storeFilteredCities` for the store form. */
    function StoreFilteredCities(): seq<City>
      reads this
    {
      PanelCities(cities, storeForm.address.state)
    }

    /** `handleZipCodeChange`: `reply` is the ViaCEP answer, `None` when the
        request or its JSON failed. */
    method HandleZipCodeChange(value: string, reply: Option<CepData>)
      requires Valid()
      modifies this
      ensures Valid()
      ensures addressForm == AddressAfterLookup(old(addressForm), value, reply, cities)
      ensures zipCodeLoading == (if ShouldLookUp(value) then false else old(zipCodeLoading))
      ensures activeTab == old(activeTab) && addressIsPrimary == old(addressIsPrimary)
      ensures storeForm == old(storeForm) && cities == old(cities)
      ensures storeZipCodeLoading == old(storeZipCodeLoading)
    {
      addressForm := addressForm.(zipCode := value);
      var clean := CleanZip(value);
      if |clean| == 8 {
        zipCodeLoading := true;
        if reply.Some? && !reply.value.erro && !MatchThrows(cities, reply.value) {
          addressForm := MergeAnswer(addressForm, value, reply.value, cities);
        }
        zipCodeLoading := false;
      }
    }

    /** `handleStoreZipCodeChange`: the same rule on the store form's address;
        the store's other fields are left alone. */
    method HandleStoreZipCodeChange(value: string, reply: Option<CepData>)
      requires Valid()
      modifies this
      ensures Valid()
      ensures storeForm.details == old(storeForm.details)
      ensures storeForm.address == AddressAfterLookup(old(storeForm.address), value, reply, cities)
      ensures storeZipCodeLoading == (if ShouldLookUp(value) then false else old(storeZipCodeLoading))
      ensures activeTab == old(activeTab) && addressForm == old(addressForm)
      ensures addressIsPrimary == old(addressIsPrimary) && cities == old(cities)
      ensures zipCodeLoading == old(zipCodeLoading)
    {
      storeForm := storeForm.(address := storeForm.address.(zipCode := value));
      var clean := CleanZip(value);
      if |clean| == 8 {
        storeZipCodeLoading := true;
        if reply.Some? && !reply.value.erro && !MatchThrows(cities, reply.value) {
          storeForm := storeForm.(address := MergeAnswer(storeForm.address, value, reply.value, cities));
        }
        storeZipCodeLoading := false;
      }
    }
  }
}
