/** The desktop customer list (`CustomersList`): the seller's clients, ten
    per page. The page number gives the request's offset and the range of
    entries shown; "previous", "next" and "refresh" move between pages. */
module CustomersList {
  import opened Wrappers
  import Http

  const Limit := 10
  const AuthError := "Error de autenticación: ID de empleado no encontrado."
  const InternalError := "Error interno al conectar con la API."

  datatype Client = Client(id: int, name: string, email: string, phone: string, city: string)

  /** The `/partners` body, read the two ways the page reads it: as the
      array of clients after a successful status, and for its `error` field
      ("" when missing) after a refused one. */
  datatype PartnersJson = PartnersJson(items: seq<Client>, error: string)

  /** The request `/partners?employee_id=…&limit=…&offset=…`. */
  datatype PartnersQuery = PartnersQuery(employeeId: string, limit: int, offset: int)

  /** `(currentPage - 1) * limit`: the entries before the page. */
  function Offset(page: int): (r: int)
    ensures page >= 1 ==> r >= 0
    ensures r % Limit == 0 && r / Limit == page - 1
  {
    (page - 1) * Limit
  }

  /** `startEntry`: the first entry's number, or 0 for an empty page. */
  function StartEntry(page: int, count: nat): int
  {
    if count > 0 then (page - 1) * Limit + 1 else 0
  }

  /** `endEntry = startEntry + clients.length - 1`. */
  function EndEntry(page: int, count: nat): int
  {
    StartEntry(page, count) + count - 1
  }

  /** The range shown is the entries after the offset, as many as were
      received; an empty page reads "0 a -1"; a full page ends where the
      next one starts. */
  lemma EntryRange(page: int, count: nat, nextCount: nat)
    ensures count > 0 ==> StartEntry(page, count) == Offset(page) + 1
    ensures count > 0 ==> EndEntry(page, count) - StartEntry(page, count) + 1 == count
    ensures count == 0 ==> StartEntry(page, count) == 0 && EndEntry(page, count) == -1
    ensures count == Limit && nextCount > 0 ==> StartEntry(page + 1, nextCount) == EndEntry(page, count) + 1
  {
  }

  /** "Anterior": `Math.max(1, page - 1)`, disabled on the first page. */
  function PreviousPage(page: int): (r: int)
    ensures r >= 1
    ensures page > 1 ==> r == page - 1
  {
    if page - 1 > 1 then page - 1 else 1
  }

  /** "Siguiente" is disabled once a page comes back short. */
  predicate NextEnabled(count: nat)
  {
    !(count < Limit)
  }

  /** " (y posiblemente más)" is shown for a full page. */
  predicate MaybeMore(count: nat)
  {
    count == Limit
  }

  /** The note about more entries appears exactly when "next" is enabled, as
      long as the server sends at most `limit` clients. */
  lemma MaybeMoreIffNext(count: nat)
    requires count <= Limit
    ensures MaybeMore(count) <==> NextEnabled(count)
  {
  }

  /** What a reply does to the list and to the error shown: a refused status
      shows the body's `error` or "Error del servidor: " with the status
      text; an unreadable body or a failed request shows the internal error;
      in every failure the list is emptied. */
  function Load(reply: Http.Reply<PartnersJson>): (r: (seq<Client>, string))
    ensures r.1 == "" <==> reply.Response? && reply.ok && reply.body.Json?
    ensures r.1 == "" ==> r.0 == reply.body.value.items
    ensures r.1 != "" ==> r.0 == []
    ensures reply.Response? && !reply.ok && reply.body.Json? && reply.body.value.error != "" ==>
              r.1 == reply.body.value.error
    ensures reply.Response? && !reply.ok && reply.body.Json? && reply.body.value.error == "" ==>
              r.1 == "Error del servidor: " + reply.statusText
    ensures reply.Thrown? || reply.body.Unparsable? ==> r.1 == InternalError
  {
    match reply
    case Thrown(_) => ([], InternalError)
    case Response(ok, _, statusText, Unparsable(_)) => ([], InternalError)
    case Response(ok, _, statusText, Json(data)) =>
      if !ok then ([], Http.Or(data.error, "Error del servidor: " + statusText))
      else (data.items, "")
  }

  class CustomersListPage {
    var clients: seq<Client>
    var isFetchingClients: bool
    var fetchError: string
    var currentPage: int

    /** The page number never drops below 1. */
    predicate Valid()
      reads this
    {
      currentPage >= 1
    }

    constructor ()
      ensures Valid()
      ensures clients == [] && isFetchingClients && fetchError == "" && currentPage == 1
    {
      clients := [];
      isFetchingClients := true;
      fetchError := "";
      currentPage := 1;
    }

    /** `fetchClients`, with the stored employee id and the reply as inputs.
        Returns the request made, if any. */
    method FetchClients(stored: Option<string>, reply: Http.Reply<PartnersJson>) returns (query: Option<PartnersQuery>)
      modifies this
      requires Valid()
      ensures Valid()
      ensures query.None? <==> !Http.Present(stored)
      ensures query.None? ==> fetchError == AuthError && clients == old(clients)
      ensures query.Some? ==> query.value == PartnersQuery(stored.value, Limit, Offset(currentPage))
                              && query.value.offset >= 0
                              && (clients, fetchError) == Load(reply)
      ensures !isFetchingClients && currentPage == old(currentPage)
    {
      isFetchingClients := true;
      fetchError := "";
      if !Http.Present(stored) {
        fetchError := AuthError;
        isFetchingClients := false;
        return None;
      }
      query := Some(PartnersQuery(stored.value, Limit, Offset(currentPage)));
      var loaded := Load(reply);
      clients := loaded.0;
      fetchError := loaded.1;
      isFetchingClients := false;
    }

    /** The refresh button, disabled while fetching: `setCurrentPage(1)`.
        The fetch effect depends on the page number, so a fetch follows only
        when the page actually changes: on page 1 the button changes nothing
        and nothing is fetched again. Returns whether a fetch follows. */
    method Refresh() returns (refetch: bool)
      modifies this
      requires Valid()
      ensures Valid()
      ensures refetch <==> !old(isFetchingClients) && old(currentPage) != 1
      ensures currentPage == if old(isFetchingClients) then old(currentPage) else 1
      ensures clients == old(clients) && fetchError == old(fetchError) && isFetchingClients == old(isFetchingClients)
    {
      refetch := !isFetchingClients && currentPage != 1;
      if !isFetchingClients {
        currentPage := 1;
      }
    }

    /** "Anterior". */
    method Previous()
      modifies this
      requires Valid()
      ensures Valid()
      ensures currentPage == PreviousPage(old(currentPage))
      ensures clients == old(clients) && fetchError == old(fetchError) && isFetchingClients == old(isFetchingClients)
    {
      currentPage := PreviousPage(currentPage);
    }

    /** "Siguiente": one page on, unless the button is disabled. */
    method Next()
      modifies this
      requires Valid()
      ensures Valid()
      ensures currentPage == if NextEnabled(|clients|) then old(currentPage) + 1 else old(currentPage)
      ensures clients == old(clients) && fetchError == old(fetchError) && isFetchingClients == old(isFetchingClients)
    {
      if NextEnabled(|clients|) {
        currentPage := currentPage + 1;
      }
    }
  }
}
