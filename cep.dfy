/** What the profile panel and the store form share about addresses: the
    city list, the postal code (CEP) clean-up that decides whether to ask
    ViaCEP, the ViaCEP answer, and the search of the city list for the
    locality it names. */
module Cep {
  import opened Js
  import StateCodes

  /** An entry of the city list (`estados-cidades2.json`); `stateId` is the
      text of its numeric `state_id` (`state_id.toString()`). */
  datatype City = City(id: string, name: string, stateId: string)

  /** A ViaCEP answer as the handlers read it: `erro`, `uf`, `localidade`,
      `logradouro` and `bairro`, any of which may be missing. */
  datatype CepData = CepData(
    erro: bool, uf: Option<string>, localidade: Option<string>,
    logradouro: Option<string>, bairro: Option<string>)

  /** The seven address fields both forms hold. */
  datatype AddressFields = AddressFields(
    street: string, number: string, complement: string, neighborhood: string,
    city: string, state: string, zipCode: string)

  /** `value.replace(/\D/g, "")`. */
  function CleanZip(value: string): (r: string)
    ensures |r| <= |value|
    ensures forall i :: 0 <= i < |r| ==> IsDigit(r[i])
  {
    StripNonDigits(value)
  }

  /** The lookup runs only when exactly eight digits remain. */
  predicate ShouldLookUp(value: string) {
    |CleanZip(value)| == 8
  }

  /** The clean-up keeps every digit, in order, and drops only the rest:
      cleaning a masked code is cleaning its digits, and a clean code is left
      as it is. */
  lemma CleanZipOfMasked(a: string, b: string)
    requires forall i :: 0 <= i < |a| ==> IsDigit(a[i])
    requires forall i :: 0 <= i < |b| ==> IsDigit(b[i])
    ensures CleanZip(a + "-" + b) == a + b
    ensures CleanZip(a + b) == a + b
  {
    StripNonDigitsAppend(a + "-", b);
    StripNonDigitsAppend(a, "-");
    StripNonDigitsAppend(a, b);
    StripNonDigitsFixed(a);
    StripNonDigitsFixed(b);
    assert StripNonDigits("-") == [] by {
      assert "-"[1..] == [];
    }
    AppendEmpty(a, StripNonDigits("-"));
  }

  /** A code typed with the input mask (`00000-000`) triggers the lookup; a
      code one digit short does not, whatever else it contains. */
  lemma MaskedCodeTriggersLookup(a: string, b: string)
    requires |a| == 5 && |b| == 3
    requires forall i :: 0 <= i < |a| ==> IsDigit(a[i])
    requires forall i :: 0 <= i < |b| ==> IsDigit(b[i])
    ensures ShouldLookUp(a + "-" + b)
    ensures !ShouldLookUp(a + "-" + b[..2])
  {
    CleanZipOfMasked(a, b);
    CleanZipOfMasked(a, b[..2]);
  }

  /** `ufToStateCode[data.uf]`: the IBGE code of a known UF, `undefined`
      otherwise. */
  function StateCodeOf(uf: Option<string>): (r: Option<string>)
    ensures r.Some? <==> uf.Some? && uf.value in StateCodes.UfToStateCode()
    ensures r.Some? ==> r.value == StateCodes.UfToStateCode()[uf.value]
  {
    if uf.Some? && uf.value in StateCodes.UfToStateCode() then Some(StateCodes.UfToStateCode()[uf.value]) else None
  }

  /** A state code found for a UF is a code the panel can display back as
      that UF. */
  lemma StateCodeOfIsKnownCode(uf: Option<string>)
    requires StateCodeOf(uf).Some?
    ensures StateCodeOf(uf).value in StateCodes.StateCodeToUf()
    ensures StateCodes.StateCodeToUf()[StateCodeOf(uf).value] == uf.value
  {
    StateCodes.CodeOfUfRoundTrip(uf.value);
  }

  /** Whether a city entry is the looked-up locality of the looked-up state:
      same name ignoring case, and the same state code. */
  predicate NamesLocality(c: City, locality: string, stateCode: Option<string>) {
    Lower(c.name) == Lower(locality) && stateCode == Some(c.stateId)
  }

  /** `cities.find(...)` for the locality and state of the answer. */
  function MatchCity(cities: seq<City>, locality: string, stateCode: Option<string>): (r: Option<City>)
    ensures r.Some? ==> r.value in cities && NamesLocality(r.value, locality, stateCode)
    ensures r.None? ==> forall i :: 0 <= i < |cities| ==> !NamesLocality(cities[i], locality, stateCode)
  {
    Find((c: City) => NamesLocality(c, locality, stateCode), cities)
  }

  /** The city entry an answer designates; an answer without a locality
      designates none. */
  function CityOfAnswer(cities: seq<City>, data: CepData): (r: Option<City>)
    ensures data.localidade.None? ==> r.None?
    ensures data.localidade.Some? ==> r == MatchCity(cities, data.localidade.value, StateCodeOf(data.uf))
  {
    if data.localidade.None? then None
    else MatchCity(cities, data.localidade.value, StateCodeOf(data.uf))
  }

  /** The search calls `data.localidade.toLowerCase()` for the first entry,
      so an answer without a locality throws as soon as the list has one. */
  predicate MatchThrows(cities: seq<City>, data: CepData) {
    data.localidade.None? && |cities| > 0
  }

  /** Whether the handlers get to fill the form: the request and its JSON
      succeeded (`reply` is `Some`), the answer is not `erro`, and the city
      search did not throw. */
  predicate AnswerUsable(cities: seq<City>, reply: Option<CepData>) {
    reply.Some? && !reply.value.erro && !MatchThrows(cities, reply.value)
  }

  /** `cities.filter((city) => city.state_id.toString() === state)`. */
  function CitiesOfState(cities: seq<City>, state: string): (r: seq<City>)
    ensures forall i :: 0 <= i < |r| ==> r[i].stateId == state
  {
    Filter((c: City) => c.stateId == state, cities)
  }

  /** The cities of a state are exactly the entries with its code, in list
      order. */
  lemma CitiesOfStateExact(cities: seq<City>, state: string)
    ensures forall c :: c in CitiesOfState(cities, state) <==> c in cities && c.stateId == state
    ensures IsSubsequence(CitiesOfState(cities, state), cities)
  {
    var p := (c: City) => c.stateId == state;
    forall c ensures c in Filter(p, cities) <==> c in cities && p(c) {
      FilterMembership(p, cities, c);
    }
    FilterIsSubsequence(p, cities);
  }

  /** A city entry the lookup matched is among the cities of the state the
      lookup filled in. */
  lemma MatchedCityIsOffered(cities: seq<City>, data: CepData)
    requires CityOfAnswer(cities, data).Some?
    ensures StateCodeOf(data.uf).Some?
    ensures CityOfAnswer(cities, data).value in CitiesOfState(cities, StateCodeOf(data.uf).value)
  {
    CitiesOfStateExact(cities, StateCodeOf(data.uf).value);
  }
}
