/** The process-wide state of the similarity page — the submitted task and
    the retrieved centroids and profiles — and the callbacks that update and
    read it. The remote service is not modelled: what it answers is passed
    in as a parameter. */
module Page {
  import opened Wrappers
  import opened Staging
  import opened Similarity
  import Matching
  import Profile

  /** The handle of a submitted task (`task['id']`). */
  type TaskId = nat

  /** The `result` fields of one entry of a finished task's result list. */
  datatype TaskResult = TaskResult(centroids: Centroids, profiles: Profiles)

  /** What the service reports for the current task: whether it is complete,
      and its result list (`result_info['data']`). */
  datatype TaskInfo = TaskInfo(complete: bool, results: seq<TaskResult>)

  /** The text under the "Send task" button. */
  datatype SendMessage = SendBlank | TaskCreated | SomethingWentWrong

  /** The text under the "Get results" button; `MissingResult` stands for
      the failure of `result_info['data'][0]` on an empty result list. */
  datatype RetrieveMessage = RetrieveBlank | AnalysisCompleted | StillWaiting | MissingResult

  /** A list that Python treats as true: present and non-empty. */
  predicate Truthy<T>(x: Option<seq<T>>)
  {
    x.Some? && |x.value| > 0
  }

  class SimilarityPage {
    /** The staging scheme read from the common data model at start-up. */
    const scheme: Scheme
    var task: Option<TaskId>
    var centroids: Centroids
    var profiles: Profiles

    /** The state at import time: nothing submitted, nothing retrieved. */
    constructor (scheme: Scheme)
      ensures this.scheme == scheme
      ensures task == None && centroids == None && profiles == None
    {
      this.scheme := scheme;
      task := None;
      centroids := None;
      profiles := None;
    }

    /** `send_similarity_analysis_task`: on a click, record the handle the
        service gave back (`None` when it created no task). Retrieved
        results are left as they are. */
    method SendTask(nClicks: int, created: Option<TaskId>) returns (msg: SendMessage)
      modifies this`task
      ensures nClicks > 0 ==> task == created
      ensures nClicks > 0 ==> msg == (if created.Some? then TaskCreated else SomethingWentWrong)
      ensures nClicks <= 0 ==> task == old(task) && msg == SendBlank
    {
      if nClicks > 0 {
        task := created;
        if task.Some? {
          msg := TaskCreated;
        } else {
          msg := SomethingWentWrong;
        }
      } else {
        msg := SendBlank;
      }
    }

    /** `get_similarity_analysis_results`: on a click, replace `centroids`
        and `profiles` with the first result of the task, but only when the
        service reports the task complete; then report completion exactly
        when both are present and non-empty. */
    method GetResults(nClicks: int, info: TaskInfo) returns (msg: RetrieveMessage)
      requires nClicks > 0 ==> task.Some?
      modifies this`centroids, this`profiles
      ensures nClicks <= 0 ==> msg == RetrieveBlank
      ensures !(nClicks > 0 && info.complete && |info.results| > 0) ==>
                centroids == old(centroids) && profiles == old(profiles)
      ensures nClicks > 0 && info.complete && |info.results| > 0 ==>
                centroids == info.results[0].centroids && profiles == info.results[0].profiles
      ensures nClicks > 0 && info.complete && |info.results| == 0 ==> msg == MissingResult
      ensures nClicks > 0 && !(info.complete && |info.results| == 0) ==>
                msg == (if Truthy(centroids) && Truthy(profiles) then AnalysisCompleted else StillWaiting)
    {
      if nClicks <= 0 {
        return RetrieveBlank;
      }
      if info.complete {
        if |info.results| == 0 {
          return MissingResult;
        }
        centroids := info.results[0].centroids;
        profiles := info.results[0].profiles;
      }
      if Truthy(centroids) && Truthy(profiles) {
        msg := AnalysisCompleted;
      } else {
        msg := StillWaiting;
      }
    }

    /** `survival_profile` on the current state. */
    method ShowSurvivalProfile(t: Option<string>, n: Option<string>, m: Option<string>)
      returns (out: Result<View, Fault>)
      ensures out == SurvivalProfile(scheme, centroids, profiles, t, n, m)
    {
      out := SurvivalProfile(scheme, centroids, profiles, t, n, m);
    }
  }

  /** A session as the page allows it: submit, retrieve a completed task,
      then match a stage on the scheme. */
  method Session(scheme: Scheme, id: TaskId, cs: seq<seq<real>>, ps: seq<seq<real>>, t: string, n: string, m: string)
    returns (out: Result<View, Fault>)
    requires t != "" && n != "" && m != ""
    requires t in scheme.t && n in scheme.n && m in scheme.m
    requires |cs| > 0 && |ps| == |cs|
    requires forall j :: 0 <= j < |cs| ==> |cs[j]| == 3
    requires forall j :: 0 <= j < |ps| ==> |ps[j]| == Profile.AxisLength
    ensures out.Ok? && out.value.Chart?
    ensures out.value.cluster == Matching.Nearest(Query(scheme, t, n, m), cs)
  {
    var page := new SimilarityPage(scheme);
    var sent := page.SendTask(1, Some(id));
    assert sent == TaskCreated;
    var got := page.GetResults(1, TaskInfo(true, [TaskResult(Some(cs), Some(ps))]));
    assert got == AnalysisCompleted;
    out := page.ShowSurvivalProfile(Some(t), Some(n), Some(m));
    WellFormedResultsGiveChart(scheme, cs, ps, t, n, m);
  }
}
