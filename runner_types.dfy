/** Runner records and requests (src/api/runner/types/runner.ts). */
module RunnerTypes {
  import opened Common

  /** The runner's execution mode (`Kind`). */
  datatype Kind = Kafka | Grpc

  /** One runner variable; its free-form `value` is kept as text here. */
  datatype Variable = Variable(key: string, value: string, secret: bool)

  /** A registered execution unit (`runner`). */
  datatype Runner = Runner(
    id: int,
    name: string,
    codebookUid: string,
    codebookName: Option<string>,
    codebookSecret: string,
    kind: Kind,
    target: string,
    handler: string,
    desc: string,
    tags: seq<string>,
    variables: seq<Variable>)

  /** The runner form (`registerOrUpdateReq`). */
  datatype RegisterOrUpdateReq = RegisterOrUpdateReq(
    id: Option<int>,
    name: string,
    codebookUid: string,
    codebookSecret: string,
    kind: Kind,
    target: string,
    handler: string,
    desc: string,
    tags: seq<string>,
    variables: Option<seq<Variable>>)

  /** A page of runners as the backend returns it; both fields may be absent. */
  datatype RunnerPage = RunnerPage(runners: Option<seq<Runner>>, total: Option<int>)

  /** `listRunnerReq`. */
  datatype ListRunnerReq = ListRunnerReq(offset: int, limit: int)

  /** `listByCodebookIdReq`. */
  datatype ListByCodebookIdReq = ListByCodebookIdReq(
    codebookUid: string,
    offset: int,
    limit: int,
    keyword: Option<string>,
    kind: Option<Kind>)
}
