/** The runner form's executor and handler cascade (useExecutors). */
module Executors {
  import opened Common

  /** A handler an executor exposes (`HandlerDetail`). */
  datatype HandlerDetail = HandlerDetail(name: string, desc: string)

  /** A node an executor runs on (`NodeDetail`). */
  datatype NodeDetail = NodeDetail(id: string, address: string)

  /** A distributed executor (`Executor`); its handler list may be absent. */
  datatype Executor = Executor(name: string, desc: string, handlers: Option<seq<HandlerDetail>>, nodes: seq<NodeDetail>)

  /** `executors.find((e) => e.name === name)`. */
  function FirstExecutorNamed(executors: seq<Executor>, name: string): (r: Option<Executor>)
    ensures r.None? <==> forall k :: 0 <= k < |executors| ==> executors[k].name != name
    ensures forall k :: 0 <= k < |executors| && executors[k].name == name
                        && (forall j :: 0 <= j < k ==> executors[j].name != name)
                        ==> r == Some(executors[k])
  {
    FirstWhere(executors, (e: Executor) => e.name == name)
  }

  /**
   * `availableHandlers` for the service name the form currently selects
   * (`None` when the accessor returns undefined).
   */
  function AvailableHandlers(executors: seq<Executor>, serviceName: Option<string>): (r: seq<HandlerDetail>)
    ensures serviceName.None? || serviceName == Some("") ==> r == []
    ensures serviceName.Some? && (forall k :: 0 <= k < |executors| ==> executors[k].name != serviceName.value) ==> r == []
    ensures forall k :: serviceName.Some? && serviceName.value != "" && 0 <= k < |executors|
                        && executors[k].name == serviceName.value
                        && (forall j :: 0 <= j < k ==> executors[j].name != serviceName.value)
                        ==> r == executors[k].handlers.GetOr([])
  {
    match serviceName
    case None => []
    case Some(name) =>
      if name == "" then []
      else
        match FirstExecutorNamed(executors, name)
        case Some(e) => e.handlers.GetOr([])
        case None => []
  }

  /** One executor "svc-a" with handler "h1": selecting "svc-a" gives [h1], anything else gives []. */
  lemma SingleExecutorExample(h1: HandlerDetail, other: string)
    requires h1.name == "h1" && other != "svc-a"
    ensures var es := [Executor("svc-a", "", Some([h1]), [])];
            AvailableHandlers(es, Some("svc-a")) == [h1] && AvailableHandlers(es, Some(other)) == []
  {
  }

  /** The reactive state of one useExecutors() instance. */
  class ExecutorStore {
    var executors: seq<Executor>
    var loading: bool

    constructor ()
      ensures executors == [] && !loading
    {
      executors := [];
      loading := false;
    }

    /** `fetchExecutors`, resolved with `resp` (the body's `data`). */
    method FetchExecutors(resp: Response<Option<seq<Executor>>>)
      modifies this`executors, this`loading
      ensures executors == if resp.Ok? then resp.data.GetOr([]) else []
      ensures !loading
    {
      loading := true;
      match resp {
        case Ok(data) => executors := data.GetOr([]);
        case Failed => executors := [];
      }
      loading := false;
    }
  }
}
