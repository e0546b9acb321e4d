/**
 * The `usePaginatedPokemon(startId, count)` hook: the list, loading flag and error
 * it exposes, the batch it fetches whenever its arguments change, and the
 * all-or-nothing way a batch's outcome is published.
 *
 * The network is not modelled: each request's outcome is an input.
 */
module PaginatedPokemon {
  import opened Wrappers
  import Decimal

  datatype AbilityRef = AbilityRef(name: string, url: string, isHidden: bool, slot: int)

  /** A record as the API returns it for one id. */
  datatype Pokemon = Pokemon(id: int, name: string, frontDefault: string, abilities: seq<AbilityRef>)

  /**
   * The outcome of `fetch(.../pokemon/<id>).then(...)` for one id:
   * a parsed record, a response whose `ok` is false, or a rejection
   * (network failure or a body that is not JSON) carrying its own message.
   */
  datatype Response = Ok(record: Pokemon) | NotOk | Rejected(message: string)

  /** The hook's dependency list `[startId, count]`. */
  datatype Request = Request(startId: int, count: int)

  const NotOkPrefix: string := "Failed to fetch Pokémon ID "

  /** `Array.from({ length: count })` makes no element for a count below one. */
  function BatchLength(count: int): (n: nat)
    ensures n >= count && (n == count || n == 0)
  {
    if count < 0 then 0 else count
  }

  /** The ids the batch requests, in request order. */
  function RequestedIds(startId: int, count: int): (ids: seq<int>)
    ensures |ids| == BatchLength(count)
    ensures forall i :: 0 <= i < |ids| ==> ids[i] == startId + i
  {
    seq(BatchLength(count), i => startId + i)
  }

  /** An id is requested exactly when it lies in `startId .. startId + count - 1`. */
  lemma RequestedIdsRange(startId: int, count: int, id: int)
    ensures id in RequestedIds(startId, count) <==> startId <= id < startId + count
  {
    var ids := RequestedIds(startId, count);
    if startId <= id < startId + count {
      assert ids[id - startId] == id;
    }
  }

  /** No id is requested twice. */
  lemma RequestedIdsDistinct(startId: int, count: int, i: int, j: int)
    requires 0 <= i < j < BatchLength(count)
    ensures RequestedIds(startId, count)[i] != RequestedIds(startId, count)[j]
  {
  }

  /** The message the batch fails with when the request for `id` ends as `r`. */
  function FailureMessage(id: int, r: Response): (message: string)
    requires !r.Ok?
    ensures r.NotOk? ==>
      |message| > |NotOkPrefix| && message[..|NotOkPrefix|] == NotOkPrefix &&
      message[|NotOkPrefix|..] == Decimal.IntToString(id)
    ensures r.Rejected? ==> message == r.message
  {
    match r
    case NotOk => NotOkPrefix + Decimal.IntToString(id)
    case Rejected(message) => message
  }

  /** A non-ok message names its id unambiguously. */
  lemma NotOkMessageNamesId(a: int, b: int)
    requires FailureMessage(a, NotOk) == FailureMessage(b, NotOk)
    ensures a == b
  {
  }

  predicate AllOk(responses: seq<Response>)
  {
    forall i :: 0 <= i < |responses| ==> responses[i].Ok?
  }

  /** What `Promise.all` resolves with when every request succeeded. */
  function Records(responses: seq<Response>): (list: seq<Pokemon>)
    requires AllOk(responses)
    ensures |list| == |responses|
    ensures forall i :: 0 <= i < |responses| ==> list[i] == responses[i].record
  {
    if responses == [] then [] else [responses[0].record] + Records(responses[1..])
  }

  /**
   * `message` is the failure of one of the failed requests of the batch that
   * started at `startId` (which one `Promise.all` reports depends on timing).
   */
  ghost predicate ReportsFailure(startId: int, responses: seq<Response>, message: string)
  {
    exists k :: 0 <= k < |responses| && !responses[k].Ok? &&
      message == FailureMessage(startId + k, responses[k])
  }

  /** The effect reruns exactly when its dependencies differ from the last render's. */
  function EffectDue(last: Option<Request>, startId: int, count: int): (due: bool)
    ensures due <==> last.None? || last.value.startId != startId || last.value.count != count
  {
    last != Some(Request(startId, count))
  }

  /** The state the hook keeps across renders. */
  class ListState {
    var pokemonList: seq<Pokemon>
    var loading: bool
    var error: Option<string>
    /** The dependencies of the last render, None before the first. */
    var deps: Option<Request>

    constructor ()
      ensures pokemonList == [] && loading && error == None && deps == None
    {
      pokemonList := [];
      loading := true;
      error := None;
      deps := None;
    }

    /** A render with these arguments; returns whether the effect (a new batch) runs. */
    method Render(startId: int, count: int) returns (runEffect: bool)
      modifies this`deps
      ensures runEffect == EffectDue(old(deps), startId, count)
      ensures deps == Some(Request(startId, count))
    {
      runEffect := deps != Some(Request(startId, count));
      deps := Some(Request(startId, count));
    }

    /** The synchronous start of `fetchBatch`: flags reset, one request per id issued. */
    method StartBatch(startId: int, count: int) returns (ids: seq<int>)
      modifies this`loading, this`error
      ensures loading && error == None
      ensures ids == RequestedIds(startId, count)
      ensures pokemonList == old(pokemonList)
    {
      loading := true;
      error := None;
      ids := RequestedIds(startId, count);
    }

    /** `Promise.all` settles: publish every record, or report one failure and keep the old list. */
    method SettleBatch(startId: int, responses: seq<Response>)
      modifies this`pokemonList, this`loading, this`error
      ensures !loading
      ensures AllOk(responses) ==> pokemonList == Records(responses) && error == old(error)
      ensures !AllOk(responses) ==>
        pokemonList == old(pokemonList) && error.Some? && ReportsFailure(startId, responses, error.value)
    {
      if forall i :: 0 <= i < |responses| ==> responses[i].Ok? {
        pokemonList := Records(responses);
      } else {
        var k :| 0 <= k < |responses| && !responses[k].Ok?;
        error := Some(FailureMessage(startId + k, responses[k]));
      }
      loading := false;
    }

    /** The whole of `fetchBatch`; `responses[i]` is the outcome of the request for `ids[i]`. */
    method FetchBatch(startId: int, count: int, responses: seq<Response>) returns (ids: seq<int>)
      requires |responses| == BatchLength(count)
      modifies this`pokemonList, this`loading, this`error
      ensures ids == RequestedIds(startId, count) && |ids| == |responses|
      ensures !loading
      ensures AllOk(responses) ==>
        error == None && |pokemonList| == |ids| &&
        forall i :: 0 <= i < |ids| ==> responses[i] == Ok(pokemonList[i])
      ensures !AllOk(responses) ==>
        pokemonList == old(pokemonList) && error.Some? && ReportsFailure(startId, responses, error.value)
    {
      ids := StartBatch(startId, count);
      SettleBatch(startId, responses);
    }
  }
}
