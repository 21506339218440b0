/** The desktop registration form for a new customer (`NewCustomer`): the
    form's fields, the country list with Colombia preselected, the checks
    made before a registration is sent, and what the reply does to the form
    and to the message shown. */
module NewCustomer {
  import opened Wrappers
  import Text
  import Http

  datatype Country = Country(id: int, name: string)

  /** The form. `countryId` is `None` when the select's value did not parse
      (`NaN`). */
  datatype FormData = FormData(name: string, email: string, phone: string, street: string,
                               city: string, zip: string, countryId: Option<int>)

  /** The `name` attributes of the form's inputs. */
  datatype Field = Name | Email | Phone | Street | City | Zip | CountryId

  /** The text held by a text field. */
  function FieldText(f: FormData, g: Field): string
    requires g != CountryId
  {
    match g
    case Name => f.name
    case Email => f.email
    case Phone => f.phone
    case Street => f.street
    case City => f.city
    case Zip => f.zip
  }

  /** The form as first shown; "Medellin" here is written without an accent. */
  const InitialForm := FormData("", "", "", "", "Medellin", "050001", Some(0))

  /** The `handleChange` updater: the named field takes the new value, the
      country through `parseInt(value, 10)`; nothing else changes. */
  function Update(f: FormData, field: Field, value: string): (r: FormData)
    ensures field == CountryId ==> r.countryId == Text.ParseInt(value)
    ensures field != CountryId ==> FieldText(r, field) == value && r.countryId == f.countryId
    ensures forall g :: g != CountryId && g != field ==> FieldText(r, g) == FieldText(f, g)
  {
    match field
    case Name => f.(name := value)
    case Email => f.(email := value)
    case Phone => f.(phone := value)
    case Street => f.(street := value)
    case City => f.(city := value)
    case Zip => f.(zip := value)
    case CountryId => f.(countryId := Text.ParseInt(value))
  }

  /** Edits to two different fields do not interfere. */
  lemma UpdateCommutes(f: FormData, a: Field, va: string, b: Field, vb: string)
    requires a != b
    ensures Update(Update(f, a, va), b, vb) == Update(Update(f, b, vb), a, va)
  {
  }

  /** A second edit to the same field replaces the first. */
  lemma UpdateOverwrites(f: FormData, a: Field, v1: string, v2: string)
    ensures Update(Update(f, a, v1), a, v2) == Update(f, a, v2)
  {
  }

  /** Choosing a country from the select (whose option values are the
      countries' ids written out) stores that id. */
  lemma SelectCountry(f: FormData, c: Country)
    ensures Update(f, CountryId, Text.IntToString(c.id)).countryId == Some(c.id)
  {
    Text.ParseIntOfIntToString(c.id);
  }

  /** The match made by the lookup: the lower-cased name is "colombia". */
  predicate IsColombia(c: Country)
  {
    Text.ToLower(c.name) == "colombia"
  }

  /** The position of the first country named Colombia, in any case, or
      the list's length when there is none. */
  function ColombiaIndex(countries: seq<Country>): (i: nat)
    ensures i <= |countries|
    ensures i < |countries| ==> IsColombia(countries[i])
    ensures forall j :: 0 <= j < i ==> !IsColombia(countries[j])
  {
    if countries == [] || IsColombia(countries[0]) then 0
    else 1 + ColombiaIndex(countries[1..])
  }

  /** `data.find(...)`: the first country named Colombia, if any. */
  function FindColombia(countries: seq<Country>): (r: Option<Country>)
    ensures r.None? <==> forall i :: 0 <= i < |countries| ==> !IsColombia(countries[i])
    ensures r.Some? ==> r.value in countries && IsColombia(r.value)
  {
    var i := ColombiaIndex(countries);
    if i < |countries| then Some(countries[i]) else None
  }

  /** The country chosen once the list has loaded: Colombia's id when the
      list has it, the current choice otherwise. */
  function Preselect(f: FormData, countries: seq<Country>): (r: FormData)
    ensures FindColombia(countries).Some? ==> r.countryId == Some(FindColombia(countries).value.id)
    ensures FindColombia(countries).None? ==> r == f
    ensures r.(countryId := f.countryId) == f
  {
    var colombia := FindColombia(countries);
    if colombia.Some? then f.(countryId := Some(colombia.value.id)) else f
  }

  /** Why a submission is refused before anything is sent. */
  datatype Refusal = MissingSeller | MissingRequired

  /** The checks of `handleSubmit`, in order: the seller's id first, then a
      non-empty name and email. */
  function Check(stored: Option<string>, f: FormData): (r: Option<Refusal>)
    ensures r.None? <==> Http.Present(stored) && f.name != "" && f.email != ""
    ensures !Http.Present(stored) ==> r == Some(MissingSeller)
    ensures r == Some(MissingRequired) <==> Http.Present(stored) && (f.name == "" || f.email == "")
  {
    if !Http.Present(stored) then Some(MissingSeller)
    else if f.name == "" || f.email == "" then Some(MissingRequired)
    else None
  }

  const SellerMessage := "Error: No se encontró el ID del vendedor. Inicie sesión de nuevo."
  const RequiredMessage := "El Nombre y el Email son obligatorios."
  const NetworkMessage := "Error de red. No se pudo conectar con el servidor."
  const UnknownMessage := "Error desconocido del servidor."

  function RefusalText(why: Refusal): string
  {
    match why
    case MissingSeller => SellerMessage
    case MissingRequired => RequiredMessage
  }

  datatype MessageKind = NoMessage | Success | Failure

  /** The banner under the form. */
  datatype Message = Message(text: string, kind: MessageKind)

  const NoBanner := Message("", NoMessage)

  /** What is sent: the whole form plus `employee_id`. */
  datatype Payload = Payload(form: FormData, employeeId: string)

  /** The fields of the `/register-partner` reply the page reads ("" when
      missing). */
  datatype RegisterJson = RegisterJson(message: string, error: string, detailedError: string)

  /** The default success text, naming the customer. */
  function Registered(name: string): string
  {
    "Cliente " + name + " registrado con éxito."
  }

  /** The banner after a reply. An unreadable body counts as `{}`; a success
      shows the server's `message` or the default; a refusal shows `error`,
      else `detailedError`, else the unknown-error text. Also says whether
      the registration went through. */
  function Outcome(f: FormData, reply: Http.Reply<RegisterJson>): (r: (Message, bool))
    ensures r.1 <==> reply.Response? && reply.ok
    ensures r.0.text != ""
    ensures r.0.kind == (if r.1 then Success else Failure)
    ensures reply.Response? && reply.ok && (reply.body.Unparsable? || reply.body.value.message == "") ==>
              r.0.text == Registered(f.name)
    ensures reply.Response? && !reply.ok ==> Text.StartsWith(r.0.text, "Error: ")
    ensures reply.Response? && !reply.ok && reply.body.Json? && reply.body.value.error != "" ==>
              r.0.text == "Error: " + reply.body.value.error
    ensures reply.Response? && !reply.ok && reply.body.Json? && reply.body.value.error == ""
            && reply.body.value.detailedError != "" ==>
              r.0.text == "Error: " + reply.body.value.detailedError
    ensures reply.Response? && !reply.ok
            && (reply.body.Unparsable? || (reply.body.value.error == "" && reply.body.value.detailedError == "")) ==>
              r.0.text == "Error: " + UnknownMessage
    ensures reply.Response? && reply.ok && reply.body.Json? && reply.body.value.message != "" ==>
              r.0.text == reply.body.value.message
    ensures reply.Thrown? ==> r.0.text == NetworkMessage
  {
    match reply
    case Thrown(_) => (Message(NetworkMessage, Failure), false)
    case Response(ok, _, _, body) =>
      var data := if body.Json? then body.value else RegisterJson("", "", "");
      if ok then (Message(Http.Or(data.message, Registered(f.name)), Success), true)
      else
        var text := "Error: " + Http.Or(Http.Or(data.error, data.detailedError), UnknownMessage);
        assert text[..|"Error: "|] == "Error: ";
        (Message(text, Failure), false)
  }

  /** The reset after a success: every text field emptied, the country kept. */
  function Cleared(f: FormData): (r: FormData)
    ensures forall g :: g != CountryId ==> FieldText(r, g) == ""
    ensures r.countryId == f.countryId
  {
    FormData("", "", "", "", "", "", f.countryId)
  }

  class NewCustomerPage {
    var formData: FormData
    var countries: seq<Country>
    var isSaving: bool
    var isLoadingCountries: bool
    var message: Message

    constructor ()
      ensures formData == InitialForm && countries == [] && !isSaving && isLoadingCountries
      ensures message == NoBanner
    {
      formData := InitialForm;
      countries := [];
      isSaving := false;
      isLoadingCountries := true;
      message := NoBanner;
    }

    /** `fetchCountries`, with the reply as an input: a readable list replaces
        the countries and preselects Colombia; any failure leaves both as
        they were. */
    method LoadCountries(reply: Http.Reply<seq<Country>>)
      modifies this
      ensures reply.Response? && reply.ok && reply.body.Json? ==>
                countries == reply.body.value && formData == Preselect(old(formData), countries)
      ensures !(reply.Response? && reply.ok && reply.body.Json?) ==>
                countries == old(countries) && formData == old(formData)
      ensures !isLoadingCountries && isSaving == old(isSaving) && message == old(message)
    {
      isLoadingCountries := true;
      if reply.Response? && reply.ok && reply.body.Json? {
        countries := reply.body.value;
        formData := Preselect(formData, countries);
      }
      isLoadingCountries := false;
    }

    /** `handleChange`. The country select is disabled while the countries
        load, so no country can be chosen before the list is there. */
    method HandleChange(field: Field, value: string)
      modifies this
      ensures formData == if field == CountryId && old(isLoadingCountries) then old(formData)
                          else Update(old(formData), field, value)
      ensures countries == old(countries) && isSaving == old(isSaving)
      ensures isLoadingCountries == old(isLoadingCountries) && message == old(message)
    {
      if !(field == CountryId && isLoadingCountries) {
        formData := Update(formData, field, value);
      }
    }

    /** `handleSubmit`, with the stored employee id and the reply as inputs.
        The save button is disabled while saving or loading the countries.
        Returns what was sent, if anything. */
    method HandleSubmit(stored: Option<string>, reply: Http.Reply<RegisterJson>) returns (sent: Option<Payload>)
      modifies this
      ensures old(isSaving || isLoadingCountries) ==>
                sent.None? && formData == old(formData) && message == old(message)
      ensures !old(isSaving || isLoadingCountries) && Check(stored, old(formData)).Some? ==>
                sent.None? && formData == old(formData)
                && message == Message(RefusalText(Check(stored, old(formData)).value), Failure)
      ensures sent.Some? <==> !old(isSaving || isLoadingCountries) && Check(stored, old(formData)).None?
      ensures sent.Some? ==>
                sent.value == Payload(old(formData), stored.value)
                && message == Outcome(old(formData), reply).0
                && formData == (if Outcome(old(formData), reply).1 then Cleared(old(formData)) else old(formData))
      ensures isSaving == old(isSaving) && countries == old(countries)
      ensures isLoadingCountries == old(isLoadingCountries)
    {
      if isSaving || isLoadingCountries {
        return None;
      }
      var refusal := Check(stored, formData);
      if refusal.Some? {
        message := Message(RefusalText(refusal.value), Failure);
        return None;
      }
      isSaving := true;
      message := NoBanner;
      sent := Some(Payload(formData, stored.value));
      var outcome := Outcome(formData, reply);
      message := outcome.0;
      if outcome.1 {
        formData := Cleared(formData);
      }
      isSaving := false;
    }
  }
}
