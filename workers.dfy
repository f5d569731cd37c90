/** The runner form's worker list and labels (useWorkers). */
module Workers {
  import opened Common

  /** A worker node as the form shows it; its other fields are not part of this model. */
  datatype Worker = Worker(name: string, topic: string)

  const LabelSeparator: string := " -【 topic: "
  const LabelEnd: string := " 】"

  /** `getWorkerLabel`: the name, the separator, the topic and the closing bracket. */
  function WorkerLabel(w: Worker): (shown: string)
    ensures |shown| == |w.name| + |w.topic| + 13
    ensures shown[..|w.name|] == w.name
    ensures shown[|w.name|..|w.name| + 11] == LabelSeparator
    ensures shown[|shown| - 1] == '】'
    ensures shown[|shown| - 2..] == LabelEnd
  {
    w.name + LabelSeparator + w.topic + LabelEnd
  }

  /** The topic can be read back from the label once the name is known. */
  lemma LabelRecoversTopic(w: Worker)
    ensures WorkerLabel(w)[|w.name| + 11..|WorkerLabel(w)| - 2] == w.topic
  {
    var shown := WorkerLabel(w);
    assert shown == w.name + LabelSeparator + w.topic + LabelEnd;
    assert shown[|w.name| + 11..|shown| - 2] == (w.name + LabelSeparator + w.topic + LabelEnd)[|w.name| + 11..|shown| - 2];
  }

  /** Two workers with the same name get the same label exactly when their topics agree. */
  lemma LabelSeparatesTopics(a: Worker, b: Worker)
    requires a.name == b.name
    ensures WorkerLabel(a) == WorkerLabel(b) <==> a.topic == b.topic
  {
    if WorkerLabel(a) == WorkerLabel(b) {
      LabelRecoversTopic(a);
      LabelRecoversTopic(b);
    }
  }

  /** The reactive state of one useWorkers() instance. */
  class WorkerStore {
    var workers: seq<Worker>
    var loading: bool

    constructor ()
      ensures workers == [] && !loading
    {
      workers := [];
      loading := false;
    }

    /** `fetchWorkers`: one request for the first 100, resolved with `resp` (`data.workers`). */
    method FetchWorkers(resp: Response<Option<seq<Worker>>>) returns (offset: int, limit: int)
      modifies this`workers, this`loading
      ensures workers == if resp.Ok? then resp.data.GetOr([]) else []
      ensures offset == 0 && limit == 100
      ensures !loading
    {
      loading := true;
      offset, limit := 0, 100;
      match resp {
        case Ok(data) => workers := data.GetOr([]);
        case Failed => workers := [];
      }
      loading := false;
    }
  }
}
