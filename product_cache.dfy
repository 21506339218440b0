/** The module-level product catalog cache of `src/lib/productCache.ts`: the
    last list, the fetch in flight, the time of the last update and a fixed
    15-minute TTL. A call is served from the cache, joins the fetch in flight,
    or starts a fetch; when a fetch settles it either replaces the list or
    only clears the in-flight marker.

    The clock (`Date.now()`), local storage and the network are inputs. A
    fetch in flight is named by a handle: the number of fetches started
    before it. */
module ProductCache {
  import opened Wrappers
  import Text
  import Http
  import opened Catalog

  /** `15 * 60 * 1000`. */
  const TtlMs: int := 900000

  const NoEmployeeMessage: string := "ID de empleado no encontrado. Inicia sesión nuevamente."
  const InvalidReplyMessage: string := "Respuesta de productos inválida."

  /** The JSON shapes the catalog fetch tells apart: an array (of product
      records), or anything else, of which only the string fields
      `detailedError` and `message` are read ("" when missing). */
  datatype CatalogJson =
    | ProductArray(items: seq<Product>)
    | NotArray(detailedError: string, message: string)

  /** The error of a refused response: the body's `detailedError`, else its
      `message`, else "Error HTTP: <status>" (also when the body cannot be
      read or is an array). */
  function FailureMessage(status: int, body: Http.Body<CatalogJson>): (r: string)
    ensures r != ""
    ensures body.Json? && body.value.NotArray? && body.value.detailedError != "" ==> r == body.value.detailedError
    ensures body.Json? && body.value.NotArray? && body.value.detailedError == "" && body.value.message != "" ==>
              r == body.value.message
    ensures (body.Unparsable? || body.value.ProductArray?
             || (body.value.detailedError == "" && body.value.message == "")) ==>
              r == "Error HTTP: " + Text.IntToString(status)
  {
    var fallback := "Error HTTP: " + Text.IntToString(status);
    match body
    case Json(NotArray(detailed, message)) => Http.Or(detailed, Http.Or(message, fallback))
    case _ => fallback
  }

  /** `fetchProductsFromServer`. With no stored employee id nothing is
      requested; a failed response yields its `detailedError`, else its
      `message`, else "Error HTTP: <status>"; a body that is not an array is
      rejected. */
  function FetchFromServer(employeeId: Option<string>, reply: Http.Reply<CatalogJson>)
    : (r: Result<seq<Product>, string>)
    ensures !Http.Present(employeeId) ==> r == Err(NoEmployeeMessage)
    ensures r.Ok? ==> Http.Present(employeeId) && reply.Response? && reply.ok
                      && reply.body == Http.Json(ProductArray(r.value))
    ensures Http.Present(employeeId) && reply.Response? && reply.ok
              && reply.body.Json? && reply.body.value.ProductArray?
            ==> r == Ok(reply.body.value.items)
    ensures Http.Present(employeeId) && reply.Thrown? ==> r == Err(reply.message)
    ensures Http.Present(employeeId) && reply.Response? && !reply.ok ==>
              r == Err(FailureMessage(reply.status, reply.body))
    ensures Http.Present(employeeId) && reply.Response? && reply.ok && reply.body.Unparsable? ==>
              r == Err(reply.body.parseError)
    ensures Http.Present(employeeId) && reply.Response? && reply.ok
              && reply.body.Json? && reply.body.value.NotArray?
            ==> r == Err(InvalidReplyMessage)
  {
    if !Http.Present(employeeId) then Err(NoEmployeeMessage)
    else match reply
      case Thrown(m) => Err(m)
      case Response(ok, status, _, body) =>
        if !ok then Err(FailureMessage(status, body))
        else match body
          case Unparsable(e) => Err(e)
          case Json(ProductArray(items)) => Ok(items)
          case Json(NotArray(_, _)) => Err(InvalidReplyMessage)
  }

  /** The three module variables, plus the number of fetches started so far. */
  datatype CacheState = CacheState(
    list: Option<seq<Product>>,
    pending: Option<nat>,
    lastUpdated: Option<int>,
    fetches: nat)

  const Initial: CacheState := CacheState(None, None, None, 0)

  /** What `ensureProductsLoaded` hands back: the cached list at once, the
      promise of the fetch in flight, or the promise of a fetch it starts. */
  datatype CallResult = Served(list: seq<Product>) | Joined(handle: nat) | Started(handle: nat)

  /** `lastUpdated` is truthy: set, and not 0. */
  predicate Stamped(s: CacheState)
  {
    s.lastUpdated.Some? && s.lastUpdated.value != 0
  }

  /** `ensureProductsLoaded({force})` at time `now`. */
  function CallStep(s: CacheState, force: bool, now: int): (CallResult, CacheState)
  {
    if !force && s.list.Some? && Stamped(s) && now - s.lastUpdated.value < TtlMs then
      (Served(s.list.value), s)
    else if s.list.Some? && !force then
      (Served(s.list.value), s)
    else if s.pending.Some? then
      (Joined(s.pending.value), s)
    else
      (Started(s.fetches), s.(pending := Some(s.fetches), fetches := s.fetches + 1))
  }

  /** The fetch in flight settles at time `now`: its `.then` or its `.catch`. */
  function SettleStep(s: CacheState, outcome: Result<seq<Product>, string>, now: int): CacheState
  {
    match outcome
    case Ok(items) => s.(list := Some(items), lastUpdated := Some(now), pending := None)
    case Err(_) => s.(pending := None)
  }

  /** `setProductsCache(products)` at time `now`. */
  function SetStep(s: CacheState, products: seq<Product>, now: int): CacheState
  {
    s.(list := Some(products), lastUpdated := Some(now))
  }

  /** The cache's invariant: a list is held exactly when an update time is,
      and the fetch in flight, if any, is the last one started. */
  predicate Valid(s: CacheState)
  {
    (s.list.Some? <==> s.lastUpdated.Some?)
    && (s.pending.Some? ==> s.pending.value + 1 == s.fetches)
  }

  // ---------------------------------------------------------------------
  // Properties of single steps

  lemma InitialValid()
    ensures Valid(Initial)
  {
  }

  lemma CallPreservesValid(s: CacheState, force: bool, now: int)
    requires Valid(s)
    ensures Valid(CallStep(s, force, now).1)
  {
  }

  lemma SettlePreservesValid(s: CacheState, outcome: Result<seq<Product>, string>, now: int)
    requires Valid(s)
    ensures Valid(SettleStep(s, outcome, now))
  {
  }

  lemma SetPreservesValid(s: CacheState, products: seq<Product>, now: int)
    requires Valid(s)
    ensures Valid(SetStep(s, products, now))
  {
  }

  /** A fresh cache answers a non-forced call with its list and starts nothing. */
  lemma FreshHit(s: CacheState, now: int)
    requires s.list.Some? && Stamped(s) && now - s.lastUpdated.value < TtlMs
    ensures CallStep(s, false, now) == (Served(s.list.value), s)
  {
  }

  /** As written, the TTL decides nothing: once a list is held, a non-forced
      call is served from it however old it is, and changes nothing. */
  lemma StaleStillServed(s: CacheState, now: int)
    requires s.list.Some?
    ensures CallStep(s, false, now) == (Served(s.list.value), s)
  {
  }

  /** Once a list is held, only a forced call can start a fetch. */
  lemma OnlyForcedCallsFetch(s: CacheState, force: bool, now: int)
    requires s.list.Some? && CallStep(s, force, now).0.Started?
    ensures force
  {
  }

  /** While a fetch is in flight, every call not served from the cache,
      forced or not, receives that same fetch and starts no other. */
  lemma CallsJoinPending(s: CacheState, force: bool, now: int)
    requires s.pending.Some? && !CallStep(s, force, now).0.Served?
    ensures CallStep(s, force, now) == (Joined(s.pending.value), s)
  {
  }

  /** A call starts a fetch exactly when it is not served from the cache and
      none is in flight; the new fetch is then the one in flight. */
  lemma StartIff(s: CacheState, force: bool, now: int)
    ensures CallStep(s, force, now).0.Started?
            <==> (force || s.list.None?) && s.pending.None?
    ensures CallStep(s, force, now).0.Started? ==>
            CallStep(s, force, now).1.pending == Some(CallStep(s, force, now).0.handle)
  {
  }

  /** A successful fetch replaces the list wholesale and stamps it with the
      settle time; every caller holding the fetch gets that same list. */
  lemma SettleOk(s: CacheState, items: seq<Product>, now: int)
    ensures SettleStep(s, Ok(items), now).list == Some(items)
    ensures SettleStep(s, Ok(items), now).lastUpdated == Some(now)
    ensures SettleStep(s, Ok(items), now).pending.None?
    ensures CallStep(SettleStep(s, Ok(items), now), false, now) == (Served(items), SettleStep(s, Ok(items), now))
  {
  }

  /** A failed fetch leaves the list and its time alone and clears the
      in-flight marker, so the next call that is not served from the cache
      starts a new fetch. */
  lemma SettleErrAllowsRetry(s: CacheState, e: string, now: int, force: bool, later: int)
    requires Valid(s) && s.pending.Some?
    ensures SettleStep(s, Err(e), now).list == s.list
    ensures SettleStep(s, Err(e), now).lastUpdated == s.lastUpdated
    ensures (force || s.list.None?) ==>
            CallStep(SettleStep(s, Err(e), now), force, later).0 == Started(s.pending.value + 1)
  {
  }

  /** `setProductsCache` stores the list and its time without touching the
      fetch in flight. */
  lemma SetKeepsPending(s: CacheState, products: seq<Product>, now: int)
    ensures SetStep(s, products, now).pending == s.pending
    ensures SetStep(s, products, now).fetches == s.fetches
    ensures CallStep(SetStep(s, products, now), false, now).0 == Served(products)
  {
  }

  // ---------------------------------------------------------------------
  // Runs of events

  datatype Event =
    | Call(force: bool, now: int)
    | Settled(outcome: Result<seq<Product>, string>, now: int)
    | SetList(products: seq<Product>, now: int)

  /** An event that can happen in state `s`: a fetch settles only while in flight. */
  predicate Enabled(s: CacheState, e: Event)
  {
    e.Settled? ==> s.pending.Some?
  }

  function Step(s: CacheState, e: Event): CacheState
  {
    match e
    case Call(force, now) => CallStep(s, force, now).1
    case Settled(outcome, now) => SettleStep(s, outcome, now)
    case SetList(products, now) => SetStep(s, products, now)
  }

  /** The state after a run of events, or `None` if some event was not enabled. */
  function Run(s: CacheState, events: seq<Event>): Option<CacheState>
    decreases events
  {
    if events == [] then Some(s)
    else if !Enabled(s, events[0]) then None
    else Run(Step(s, events[0]), events[1..])
  }

  /** Every enabled run keeps the invariant. */
  lemma {:induction false} RunPreservesValid(s: CacheState, events: seq<Event>)
    requires Valid(s) && Run(s, events).Some?
    ensures Valid(Run(s, events).value)
    decreases events
  {
    if events != [] {
      var e := events[0];
      match e {
        case Call(force, now) => CallPreservesValid(s, force, now);
        case Settled(outcome, now) => SettlePreservesValid(s, outcome, now);
        case SetList(products, now) => SetPreservesValid(s, products, now);
      }
      RunPreservesValid(Step(s, e), events[1..]);
    }
  }

  /** Single flight: between two settlements at most one fetch is started,
      and none at all while one is already in flight. */
  lemma {:induction false} SingleFlight(s: CacheState, events: seq<Event>)
    requires Run(s, events).Some?
    requires forall i :: 0 <= i < |events| ==> !events[i].Settled?
    ensures Run(s, events).value.fetches <= s.fetches + 1
    ensures s.pending.Some? ==> Run(s, events).value.fetches == s.fetches
    ensures s.pending.Some? ==> Run(s, events).value.pending == s.pending
    ensures Run(s, events).value.fetches == s.fetches + 1 ==> Run(s, events).value.pending == Some(s.fetches)
    decreases events
  {
    if events != [] {
      var t := Step(s, events[0]);
      assert t.fetches <= s.fetches + 1;
      assert t.pending.None? ==> t.fetches == s.fetches;
      assert t.fetches == s.fetches + 1 ==> t.pending == Some(s.fetches);
      SingleFlight(t, events[1..]);
    }
  }

  /** Until a fetch succeeds or a list is set, `getProductsCache` stays null. */
  lemma {:induction false} NullUntilLoaded(s: CacheState, events: seq<Event>)
    requires s.list.None? && Run(s, events).Some?
    requires forall i :: 0 <= i < |events| ==>
               !events[i].SetList? && !(events[i].Settled? && events[i].outcome.Ok?)
    ensures Run(s, events).value.list.None?
    decreases events
  {
    if events != [] {
      NullUntilLoaded(Step(s, events[0]), events[1..]);
    }
  }

  // ---------------------------------------------------------------------
  // The module as an object

  /** The module's state, updated in place by its exported functions. */
  class Cache {
    var list: Option<seq<Product>>
    var pending: Option<nat>
    var lastUpdated: Option<int>
    var fetches: nat

    function State(): CacheState
      reads this
    {
      CacheState(list, pending, lastUpdated, fetches)
    }

    constructor ()
      ensures State() == Initial
    {
      list := None;
      pending := None;
      lastUpdated := None;
      fetches := 0;
    }

    /** `ensureProductsLoaded({force})`. */
    method Ensure(force: bool, now: int) returns (r: CallResult)
      modifies this
      ensures (r, State()) == CallStep(old(State()), force, now)
    {
      if !force && list.Some? && lastUpdated.Some? && lastUpdated.value != 0 {
        var age := now - lastUpdated.value;
        if age < TtlMs {
          return Served(list.value);
        }
      }
      if list.Some? && !force {
        return Served(list.value);
      }
      if pending.Some? {
        return Joined(pending.value);
      }
      r := Started(fetches);
      pending := Some(fetches);
      fetches := fetches + 1;
    }

    /** The fetch in flight settles: `.then` stores the list and the time,
        `.catch` only clears the marker; both clear it. */
    method Settle(outcome: Result<seq<Product>, string>, now: int)
      requires pending.Some?
      modifies this
      ensures State() == SettleStep(old(State()), outcome, now)
    {
      if outcome.Ok? {
        list := Some(outcome.value);
        lastUpdated := Some(now);
      }
      pending := None;
    }

    /** `getProductsCache`: reads the list and changes nothing. */
    function Get(): (r: Option<seq<Product>>)
      reads this
      ensures r == State().list
    {
      list
    }

    /** `prefetchProducts`: a non-forced load whose failure is swallowed. */
    method Prefetch(now: int)
      modifies this
      ensures State() == CallStep(old(State()), false, now).1
    {
      var _ := Ensure(false, now);
    }

    /** `refreshProducts`: a forced load. */
    method Refresh(now: int) returns (r: CallResult)
      modifies this
      ensures (r, State()) == CallStep(old(State()), true, now)
    {
      r := Ensure(true, now);
    }

    /** `setProductsCache(products)`. */
    method Set(products: seq<Product>, now: int)
      modifies this
      ensures State() == SetStep(old(State()), products, now)
    {
      list := Some(products);
      lastUpdated := Some(now);
    }
  }
}
