/** The mobile registration form (`NewCustomerMov`): the same fields, lookup
    and checks as the desktop form; after a success the form goes back to its
    defaults (city "Medellín", zip "050001", the country kept) and, when the
    page was opened with a way back, the return is scheduled. */
module NewCustomerMov {
  import opened Wrappers
  import Text
  import Http
  import NewCustomer

  type FormData = NewCustomer.FormData
  type Country = NewCustomer.Country
  type Field = NewCustomer.Field
  type Message = NewCustomer.Message
  type Payload = NewCustomer.Payload
  type RegisterJson = NewCustomer.RegisterJson

  const DefaultZip := "050001"
  const DefaultCity := "Medellín"

  /** The form as first shown. */
  const InitialForm := NewCustomer.FormData("", "", "", "", DefaultCity, DefaultZip, Some(0))

  const SellerMessage := "Error: No se encontró el ID del vendedor."
  const NetworkMessage := "Error de red."
  const FailedMessage := "Fallo en el registro"

  function RefusalText(why: NewCustomer.Refusal): string
  {
    match why
    case MissingSeller => SellerMessage
    case MissingRequired => NewCustomer.RequiredMessage
  }

  /** The banner after a reply, and whether the registration went through.
      Here the body must be readable: an unreadable one is reported like a
      network failure. A refusal shows `error` or "Fallo en el registro". */
  function Outcome(f: FormData, reply: Http.Reply<RegisterJson>): (r: (Message, bool))
    ensures r.1 <==> reply.Response? && reply.ok && reply.body.Json?
    ensures r.0.text != ""
    ensures r.0.kind == (if r.1 then NewCustomer.Success else NewCustomer.Failure)
    ensures r.1 && reply.body.value.message == "" ==> r.0.text == NewCustomer.Registered(f.name)
    ensures r.1 && reply.body.value.message != "" ==> r.0.text == reply.body.value.message
    ensures reply.Response? && !reply.ok && reply.body.Json? ==>
              r.0.text == "Error: " + Http.Or(reply.body.value.error, FailedMessage)
    ensures !(reply.Response? && reply.body.Json?) ==> r.0.text == NetworkMessage
  {
    match reply
    case Thrown(_) => (NewCustomer.Message(NetworkMessage, NewCustomer.Failure), false)
    case Response(_, _, _, Unparsable(_)) => (NewCustomer.Message(NetworkMessage, NewCustomer.Failure), false)
    case Response(ok, _, _, Json(data)) =>
      if ok then (NewCustomer.Message(Http.Or(data.message, NewCustomer.Registered(f.name)), NewCustomer.Success), true)
      else (NewCustomer.Message("Error: " + Http.Or(data.error, FailedMessage), NewCustomer.Failure), false)
  }

  /** The reset after a success: the first-shown form with the country kept. */
  function Reset(f: FormData): (r: FormData)
    ensures r.name == "" && r.email == "" && r.phone == "" && r.street == ""
    ensures r.city == DefaultCity && r.zip == DefaultZip
    ensures r.countryId == f.countryId
  {
    NewCustomer.FormData("", "", "", "", DefaultCity, DefaultZip, f.countryId)
  }

  /** After a success the form is as first shown, but for the country. */
  lemma ResetIsInitial(f: FormData)
    ensures Reset(f) == InitialForm.(countryId := f.countryId)
    ensures f.countryId == Some(0) ==> Reset(f) == InitialForm
  {
  }

  /** The mobile and desktop forms differ in what they show at first and
      after a success, and in nothing they keep. */
  lemma ResetDiffersFromDesktop(f: FormData)
    ensures Reset(f).countryId == NewCustomer.Cleared(f).countryId
    ensures Reset(f).city != NewCustomer.Cleared(f).city
    ensures InitialForm.city != NewCustomer.InitialForm.city
  {
    assert DefaultCity[0] == 'M';
    assert |DefaultCity| != |NewCustomer.InitialForm.city| || DefaultCity[6] != NewCustomer.InitialForm.city[6];
  }

  class NewCustomerMovPage {
    var formData: FormData
    var countries: seq<Country>
    var isSaving: bool
    var isLoadingCountries: bool
    var message: Message

    constructor ()
      ensures formData == InitialForm && countries == [] && !isSaving && isLoadingCountries
      ensures message == NewCustomer.NoBanner
    {
      formData := InitialForm;
      countries := [];
      isSaving := false;
      isLoadingCountries := true;
      message := NewCustomer.NoBanner;
    }

    /** `fetchCountries`, with the reply as an input. */
    method LoadCountries(reply: Http.Reply<seq<Country>>)
      modifies this
      ensures reply.Response? && reply.ok && reply.body.Json? ==>
                countries == reply.body.value && formData == NewCustomer.Preselect(old(formData), countries)
      ensures !(reply.Response? && reply.ok && reply.body.Json?) ==>
                countries == old(countries) && formData == old(formData)
      ensures !isLoadingCountries && isSaving == old(isSaving) && message == old(message)
    {
      isLoadingCountries := true;
      if reply.Response? && reply.ok && reply.body.Json? {
        countries := reply.body.value;
        formData := NewCustomer.Preselect(formData, countries);
      }
      isLoadingCountries := false;
    }

    /** `handleChange`. The country select is disabled while the countries
        load, so no country can be chosen before the list is there. */
    method HandleChange(field: Field, value: string)
      modifies this
      ensures formData == if field == NewCustomer.CountryId && old(isLoadingCountries) then old(formData)
                          else NewCustomer.Update(old(formData), field, value)
      ensures countries == old(countries) && isSaving == old(isSaving)
      ensures isLoadingCountries == old(isLoadingCountries) && message == old(message)
    {
      if !(field == NewCustomer.CountryId && isLoadingCountries) {
        formData := NewCustomer.Update(formData, field, value);
      }
    }

    /** `handleSubmit`, with the stored employee id, whether the page has a
        way back, and the reply as inputs. The save button is disabled while
        saving or loading the countries. Returns what was sent, if anything,
        and whether the return to the previous screen was scheduled. */
    method HandleSubmit(stored: Option<string>, hasBack: bool, reply: Http.Reply<RegisterJson>)
      returns (sent: Option<Payload>, backScheduled: bool)
      modifies this
      ensures old(isSaving || isLoadingCountries) ==>
                sent.None? && formData == old(formData) && message == old(message)
      ensures !old(isSaving || isLoadingCountries) && NewCustomer.Check(stored, old(formData)).Some? ==>
                sent.None? && formData == old(formData)
                && message == NewCustomer.Message(RefusalText(NewCustomer.Check(stored, old(formData)).value), NewCustomer.Failure)
      ensures sent.Some? <==> !old(isSaving || isLoadingCountries) && NewCustomer.Check(stored, old(formData)).None?
      ensures sent.Some? ==>
                sent.value == NewCustomer.Payload(old(formData), stored.value)
                && message == Outcome(old(formData), reply).0
                && formData == (if Outcome(old(formData), reply).1 then Reset(old(formData)) else old(formData))
      ensures backScheduled <==> sent.Some? && hasBack && Outcome(old(formData), reply).1
      ensures isSaving == old(isSaving) && countries == old(countries)
      ensures isLoadingCountries == old(isLoadingCountries)
    {
      backScheduled := false;
      if isSaving || isLoadingCountries {
        return None, false;
      }
      var refusal := NewCustomer.Check(stored, formData);
      if refusal.Some? {
        message := NewCustomer.Message(RefusalText(refusal.value), NewCustomer.Failure);
        return None, false;
      }
      isSaving := true;
      message := NewCustomer.NoBanner;
      sent := Some(NewCustomer.Payload(formData, stored.value));
      var outcome := Outcome(formData, reply);
      message := outcome.0;
      if outcome.1 {
        formData := Reset(formData);
        backScheduled := hasBack;
      }
      isSaving := false;
    }
  }
}
