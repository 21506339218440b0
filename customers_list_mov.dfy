/** The mobile customer list (`CustomersListMov`): the same pages of ten
    clients, narrowed by a search term sent to the server. Every failure
    empties the list and shows the error's own message. */
module CustomersListMov {
  import opened Wrappers
  import Text
  import Http
  import CustomersList

  type Client = CustomersList.Client
  type PartnersJson = CustomersList.PartnersJson

  const AuthError := "Error: No se encontró el ID del vendedor."
  const LoadFailed := "Fallo al cargar clientes"

  /** The query string's parameters, in order: the employee id, the limit,
      the offset and, only for a non-empty search, the search. */
  function QueryParams(employeeId: string, page: int, search: string): (r: seq<(string, string)>)
    ensures |r| == if search == "" then 3 else 4
    ensures r[0] == ("employee_id", employeeId)
    ensures r[1].0 == "limit" && r[2].0 == "offset"
    ensures (exists i :: 0 <= i < |r| && r[i].0 == "search") <==> search != ""
    ensures search != "" ==> r[3] == ("search", search)
  {
    var fixed := [("employee_id", employeeId),
                  ("limit", Text.IntToString(CustomersList.Limit)),
                  ("offset", Text.IntToString(CustomersList.Offset(page)))];
    assert fixed[0].0[0] == 'e' && fixed[1].0[0] == 'l' && fixed[2].0[0] == 'o';
    assert forall i :: 0 <= i < |fixed| ==> fixed[i].0 != "search";
    var r := fixed + (if search != "" then [("search", search)] else []);
    assert forall i :: 0 <= i < 3 ==> r[i] == fixed[i];
    assert search != "" ==> r[3].0 == "search";
    r
  }

  /** The server reads back the limit and the offset the page meant. */
  lemma QueryNumbersRoundTrip(employeeId: string, page: int, search: string)
    ensures Text.ParseInt(QueryParams(employeeId, page, search)[1].1) == Some(CustomersList.Limit)
    ensures Text.ParseInt(QueryParams(employeeId, page, search)[2].1) == Some(CustomersList.Offset(page))
  {
    Text.ParseIntOfIntToString(CustomersList.Limit);
    Text.ParseIntOfIntToString(CustomersList.Offset(page));
  }

  /** What a reply does to the list and to the error shown: a successful
      reply replaces the list; otherwise the list is emptied and the error is
      the thrown message: the body's `error` (or the fallback) for a refused
      status, the parser's message for an unreadable body, the network
      message for a failed request. */
  function Load(reply: Http.Reply<PartnersJson>): (r: (seq<Client>, string))
    ensures reply.Response? && reply.ok && reply.body.Json? ==> r == (reply.body.value.items, "")
    ensures !(reply.Response? && reply.ok && reply.body.Json?) ==> r.0 == []
    ensures reply.Response? && !reply.ok && reply.body.Json? ==>
              r.1 == (if reply.body.value.error != "" then reply.body.value.error else LoadFailed)
    ensures reply.Thrown? ==> r.1 == reply.message
    ensures reply.Response? && reply.body.Unparsable? ==> r.1 == reply.body.parseError
  {
    match reply
    case Thrown(message) => ([], message)
    case Response(ok, _, _, Unparsable(parseError)) => ([], parseError)
    case Response(ok, _, _, Json(data)) =>
      if !ok then ([], Http.Or(data.error, LoadFailed)) else (data.items, "")
  }

  class CustomersListMovPage {
    var clients: seq<Client>
    var isFetchingClients: bool
    var fetchError: string
    var currentPage: int
    var searchTerm: string

    /** The page number never drops below 1. */
    predicate Valid()
      reads this
    {
      currentPage >= 1
    }

    /** The pagination bar is shown only once a non-empty page has loaded. */
    predicate PaginationShown()
      reads this
    {
      !isFetchingClients && |clients| > 0
    }

    constructor ()
      ensures Valid()
      ensures clients == [] && isFetchingClients && fetchError == "" && currentPage == 1 && searchTerm == ""
    {
      clients := [];
      isFetchingClients := true;
      fetchError := "";
      currentPage := 1;
      searchTerm := "";
    }

    /** `fetchClients(currentPage, searchTerm)`, with the stored employee id
        and the reply as inputs. Returns the query sent, if any. */
    method FetchClients(stored: Option<string>, reply: Http.Reply<PartnersJson>)
      returns (query: Option<seq<(string, string)>>)
      modifies this
      requires Valid()
      ensures Valid()
      ensures query.None? <==> !Http.Present(stored)
      ensures query.None? ==> fetchError == AuthError && clients == old(clients)
      ensures query.Some? ==> query.value == QueryParams(stored.value, currentPage, searchTerm)
                              && (clients, fetchError) == Load(reply)
      ensures !isFetchingClients && currentPage == old(currentPage) && searchTerm == old(searchTerm)
    {
      if !Http.Present(stored) {
        fetchError := AuthError;
        isFetchingClients := false;
        return None;
      }
      isFetchingClients := true;
      fetchError := "";
      query := Some(QueryParams(stored.value, currentPage, searchTerm));
      var loaded := Load(reply);
      clients := loaded.0;
      fetchError := loaded.1;
      isFetchingClients := false;
    }

    /** The "Refrescar" button: `fetchClients(currentPage, searchTerm)`,
        disabled while a fetch is under way (as it is before the first one
        completes). */
    method Refresh(stored: Option<string>, reply: Http.Reply<PartnersJson>)
      returns (query: Option<seq<(string, string)>>)
      modifies this
      requires Valid()
      ensures Valid()
      ensures old(isFetchingClients) ==>
                query.None? && isFetchingClients
                && clients == old(clients) && fetchError == old(fetchError)
      ensures !old(isFetchingClients) ==>
                (query.None? <==> !Http.Present(stored))
                && (query.None? ==> fetchError == AuthError && clients == old(clients))
                && (query.Some? ==> query.value == QueryParams(stored.value, currentPage, searchTerm)
                                    && (clients, fetchError) == Load(reply))
                && !isFetchingClients
      ensures currentPage == old(currentPage) && searchTerm == old(searchTerm)
    {
      if isFetchingClients {
        return None;
      }
      query := FetchClients(stored, reply);
    }

    /** Typing in the search box: the new term, back to the first page. */
    method HandleSearch(value: string)
      modifies this
      requires Valid()
      ensures Valid()
      ensures searchTerm == value && currentPage == 1
      ensures clients == old(clients) && fetchError == old(fetchError) && isFetchingClients == old(isFetchingClients)
    {
      searchTerm := value;
      currentPage := 1;
    }

    /** "Anterior": one page back; the button is absent or disabled on the
        first page. */
    method Previous()
      modifies this
      requires Valid()
      ensures Valid()
      ensures currentPage == if PaginationShown() && old(currentPage) != 1 then old(currentPage) - 1 else old(currentPage)
      ensures clients == old(clients) && fetchError == old(fetchError)
      ensures isFetchingClients == old(isFetchingClients) && searchTerm == old(searchTerm)
    {
      if PaginationShown() && currentPage != 1 {
        currentPage := currentPage - 1;
      }
    }

    /** "Siguiente": one page on; the button is absent, or disabled after a
        short page. */
    method Next()
      modifies this
      requires Valid()
      ensures Valid()
      ensures currentPage == if PaginationShown() && CustomersList.NextEnabled(|clients|) then old(currentPage) + 1 else old(currentPage)
      ensures clients == old(clients) && fetchError == old(fetchError)
      ensures isFetchingClients == old(isFetchingClients) && searchTerm == old(searchTerm)
    {
      if PaginationShown() && CustomersList.NextEnabled(|clients|) {
        currentPage := currentPage + 1;
      }
    }
  }
}
