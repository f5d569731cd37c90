/** Task history (useTaskHistory): page-window requests and their results. */
module TaskHistory {
  import opened Common

  /** A task's execution mode (`Kind` in src/api/task/types/task.ts). */
  datatype Kind = Kafka | Grpc

  /** One executed task (`task`). */
  datatype Task = Task(
    id: int,
    orderId: int,
    kind: Kind,
    codebookUid: string,
    codebookName: string,
    target: string,
    handler: string,
    status: int,
    isTiming: bool,
    scheduledTime: string,
    startTime: string,
    endTime: string,
    retryCount: int,
    code: string,
    language: string,
    args: string,
    variables: string,
    result: string,
    triggerPosition: string)

  /** A page of tasks as the backend returns it (`tasks`). */
  datatype TaskPage = TaskPage(tasks: seq<Task>, total: int)

  /** The list request (`page`): how many to skip and how many to return. */
  datatype PageReq = PageReq(offset: int, limit: int)

  /** The request fetchTasksData sends for the current pagination. */
  function PageRequest(currentPage: int, pageSize: int): (req: PageReq)
    ensures req.limit == pageSize
    ensures currentPage == 1 ==> req.offset == 0
    ensures currentPage >= 1 && pageSize >= 0 ==> req.offset >= 0
  {
    PageReq((currentPage - 1) * pageSize, pageSize)
  }

  /** The window of page p + 1 starts where the window of page p ends. */
  lemma PagesAdjacent(currentPage: int, pageSize: int)
    ensures PageRequest(currentPage + 1, pageSize).offset
            == PageRequest(currentPage, pageSize).offset + PageRequest(currentPage, pageSize).limit
  {
  }

  /** Windows of different pages do not overlap: an earlier page ends before a later one starts. */
  lemma {:induction false} PagesDisjoint(p: int, q: int, pageSize: int)
    requires 1 <= p < q && pageSize >= 0
    ensures PageRequest(p, pageSize).offset + pageSize <= PageRequest(q, pageSize).offset
    decreases q - p
  {
    PagesAdjacent(q - 1, pageSize);
    if p < q - 1 {
      PagesDisjoint(p, q - 1, pageSize);
    }
  }

  /**
   * With a positive size, every row index falls in the window of page
   * `n / pageSize + 1`, and of no other page from 1 on.
   */
  lemma {:induction false} RowOnOnePage(n: int, pageSize: int)
    requires n >= 0 && pageSize > 0
    ensures var p := n / pageSize + 1;
            PageRequest(p, pageSize).offset <= n < PageRequest(p, pageSize).offset + pageSize
    ensures forall q :: q >= 1 && PageRequest(q, pageSize).offset <= n < PageRequest(q, pageSize).offset + pageSize
                        ==> q == n / pageSize + 1
  {
    var p := n / pageSize + 1;
    assert PageRequest(p, pageSize).offset == (n / pageSize) * pageSize;
    assert n == (n / pageSize) * pageSize + n % pageSize;
    forall q | q >= 1 && PageRequest(q, pageSize).offset <= n < PageRequest(q, pageSize).offset + pageSize
      ensures q == p
    {
      if q < p {
        PagesDisjoint(q, p, pageSize);
      } else if p < q {
        PagesDisjoint(p, q, pageSize);
      }
    }
  }

  /** The reactive state of one useTaskHistory() instance. */
  class TaskHistoryState {
    var currentPage: int
    var pageSize: int
    var total: int
    var tasksData: seq<Task>
    var loading: bool
    var searchQuery: string

    /** The pagination starts where the (external) pagination composable puts it. */
    constructor (currentPage: int, pageSize: int, total: int)
      ensures this.currentPage == currentPage && this.pageSize == pageSize && this.total == total
      ensures tasksData == [] && !loading && searchQuery == ""
    {
      this.currentPage := currentPage;
      this.pageSize := pageSize;
      this.total := total;
      tasksData := [];
      loading := false;
      searchQuery := "";
    }

    /** `fetchTasksData`, resolved with `resp`; `req` is the request it sends. */
    method FetchTasksData(resp: Response<TaskPage>) returns (req: PageReq)
      modifies this`total, this`tasksData, this`loading
      ensures req == PageRequest(currentPage, pageSize)
      ensures resp.Ok? ==> total == resp.data.total && tasksData == resp.data.tasks
      ensures resp.Failed? ==> total == old(total) && tasksData == []
      ensures !loading
    {
      loading := true;
      req := PageReq((currentPage - 1) * pageSize, pageSize);
      match resp {
        case Ok(data) =>
          total := data.total;
          tasksData := data.tasks;
        case Failed =>
          tasksData := [];
      }
      loading := false;
    }

    /**
     * The watch on the current page, the page size and the search text:
     * any change refetches; the search text does not enter the request.
     */
    method OnWatchedChange(newPage: int, newSize: int, newQuery: string, resp: Response<TaskPage>)
      returns (req: PageReq)
      modifies this
      ensures currentPage == newPage && pageSize == newSize && searchQuery == newQuery
      ensures req == PageRequest(newPage, newSize)
      ensures resp.Ok? ==> total == resp.data.total && tasksData == resp.data.tasks
      ensures resp.Failed? ==> total == old(total) && tasksData == []
      ensures !loading
    {
      currentPage, pageSize, searchQuery := newPage, newSize, newQuery;
      req := FetchTasksData(resp);
    }
  }
}
