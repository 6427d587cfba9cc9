/**
  Job-list bookkeeping for step functions (awsomeutils/step_functions.py).

  `mark_as_failed` and `mark_as_processed` take the head off the caller's `jobs` list in place and
  append it to the caller's `failed_jobs` or `processed_jobs` list (a new list when that key is
  absent), then return the keyword mapping with that key set. The lists are objects shared with the
  caller, so they are `JobList` objects here; the keyword mapping itself is a fresh dictionary in
  each call, so it is a map value.
*/
module StepFunctions {
  import opened Wrappers

  /** A job record, such as `{'job_#': 1}`; the bookkeeping never looks inside it. */
  type Job = map<string, int>

  /** A Python list of jobs, updated in place by `pop(0)` and `append`. */
  class JobList {
    var items: seq<Job>

    constructor(items: seq<Job>)
      ensures this.items == items
    {
      this.items := items;
    }

    /** `list.pop(0)` */
    method PopFront() returns (head: Job)
      requires |items| > 0
      modifies this
      ensures [head] + items == old(items)
    {
      head := items[0];
      items := items[1..];
    }

    /** `list.append(job)` */
    method Append(job: Job)
      modifies this
      ensures items == old(items) + [job]
    {
      items := items + [job];
    }
  }

  /** A keyword argument's value: a list, or any other value (such as the string 'foo'). */
  datatype Arg = ListArg(list: JobList) | OtherArg(text: string)

  type Kwargs = map<string, Arg>

  datatype ArgError = ValidationError  // the argument check raised ValueError

  /** The list under `key`, as a set of at most one object (for frames). */
  function ListAt(kwargs: Kwargs, key: string): set<JobList> {
    if key in kwargs && kwargs[key].ListArg? then {kwargs[key].list} else {}
  }

  /**
    The argument schema of both operations: `jobs` is required and is a list with at least one
    job; `failed_jobs` and `processed_jobs`, when given, are lists. Other keys are allowed.
  */
  predicate ValidArgs(kwargs: Kwargs)
    reads ListAt(kwargs, "jobs")
  {
    && "jobs" in kwargs && kwargs["jobs"].ListArg? && |kwargs["jobs"].list.items| >= 1
    && ("failed_jobs" in kwargs ==> kwargs["failed_jobs"].ListArg?)
    && ("processed_jobs" in kwargs ==> kwargs["processed_jobs"].ListArg?)
  }

  /** `target.append(jobs.pop(0))` on two distinct lists: the new `jobs` and the new `target`. */
  function Transfer(jobs: seq<Job>, target: seq<Job>): (r: (seq<Job>, seq<Job>))
    requires |jobs| > 0
    ensures |r.1| == |target| + 1 && r.1[..|target|] == target
    ensures [r.1[|r.1| - 1]] + r.0 == jobs
  {
    (jobs[1..], target + [jobs[0]])
  }

  /** `jobs.append(jobs.pop(0))`, when `target` is the `jobs` list itself: the head moves to the end. */
  function Rotated(jobs: seq<Job>): (r: seq<Job>)
    requires |jobs| > 0
    ensures |r| == |jobs| && r[|r| - 1] == jobs[0] && r[..|r| - 1] == jobs[1..]
  {
    jobs[1..] + [jobs[0]]
  }

  /** No job is lost or duplicated by a transfer: the two lists hold the same jobs together. */
  lemma {:induction false} TransferKeepsJobs(jobs: seq<Job>, target: seq<Job>)
    requires |jobs| > 0
    ensures multiset(Transfer(jobs, target).0) + multiset(Transfer(jobs, target).1) == multiset(jobs) + multiset(target)
  {
    assert jobs == [jobs[0]] + jobs[1..];
  }

  /** Rotating the list keeps its jobs. */
  lemma {:induction false} RotatedKeepsJobs(jobs: seq<Job>)
    requires |jobs| > 0
    ensures multiset(Rotated(jobs)) == multiset(jobs)
  {
    assert jobs == [jobs[0]] + jobs[1..];
  }

  /**
    Moves the head of `jobs` to the end of the list under `target`, creating that list when the key
    is absent, and returns the mapping with `target` set to it. Arguments that fail the schema are
    a validation error and change nothing.
  */
  method MoveHead(kwargs: Kwargs, target: string) returns (r: Result<Kwargs, ArgError>)
    requires target == "failed_jobs" || target == "processed_jobs"
    modifies ListAt(kwargs, "jobs"), ListAt(kwargs, target)
    ensures !old(ValidArgs(kwargs)) ==> r == Failure(ValidationError)
    ensures !old(ValidArgs(kwargs)) ==> unchanged(ListAt(kwargs, "jobs"), ListAt(kwargs, target))
    ensures old(ValidArgs(kwargs)) ==> r.Success? && r.value.Keys == kwargs.Keys + {target}
    ensures old(ValidArgs(kwargs)) ==> forall key :: key in kwargs && key != target ==> r.value[key] == kwargs[key]
    ensures old(ValidArgs(kwargs)) && target in kwargs ==> r == Success(kwargs)
    ensures old(ValidArgs(kwargs)) ==>
              var jobs := kwargs["jobs"].list;
              && r.value[target].ListArg?
              && (target !in kwargs ==>
                    fresh(r.value[target].list) && (jobs.items, r.value[target].list.items) == Transfer(old(jobs.items), []))
              && (target in kwargs && r.value[target].list != jobs ==>
                    (jobs.items, r.value[target].list.items) == Transfer(old(jobs.items), old(r.value[target].list.items)))
              && (target in kwargs && r.value[target].list == jobs ==> jobs.items == Rotated(old(jobs.items)))
  {
    if !ValidArgs(kwargs) {
      return Failure(ValidationError);
    }
    var jobs := kwargs["jobs"].list;
    var targetList: JobList;
    if target in kwargs {
      targetList := kwargs[target].list;
    } else {
      targetList := new JobList([]);
    }
    var head := jobs.PopFront();
    targetList.Append(head);
    r := Success(kwargs[target := ListArg(targetList)]);
    if target in kwargs {
      assert kwargs[target := ListArg(targetList)] == kwargs;
    }
  }

  /**
    `mark_as_failed`: the head of `jobs` moves to the end of `failed_jobs` (a new list when absent);
    `processed_jobs` and every other key are untouched; invalid arguments are a validation error.
  */
  method MarkAsFailed(kwargs: Kwargs) returns (r: Result<Kwargs, ArgError>)
    modifies ListAt(kwargs, "jobs"), ListAt(kwargs, "failed_jobs")
    ensures !old(ValidArgs(kwargs)) ==> r == Failure(ValidationError)
    ensures !old(ValidArgs(kwargs)) ==> unchanged(ListAt(kwargs, "jobs"), ListAt(kwargs, "failed_jobs"))
    ensures old(ValidArgs(kwargs)) ==> r.Success? && r.value.Keys == kwargs.Keys + {"failed_jobs"}
    ensures old(ValidArgs(kwargs)) ==> forall key :: key in kwargs && key != "failed_jobs" ==> r.value[key] == kwargs[key]
    ensures old(ValidArgs(kwargs)) && "failed_jobs" in kwargs ==> r == Success(kwargs)
    ensures old(ValidArgs(kwargs)) ==>
              var jobs := kwargs["jobs"].list;
              && r.value["failed_jobs"].ListArg?
              && ("failed_jobs" !in kwargs ==>
                    fresh(r.value["failed_jobs"].list) && (jobs.items, r.value["failed_jobs"].list.items) == Transfer(old(jobs.items), []))
              && ("failed_jobs" in kwargs && r.value["failed_jobs"].list != jobs ==>
                    (jobs.items, r.value["failed_jobs"].list.items)
                      == Transfer(old(jobs.items), old(r.value["failed_jobs"].list.items)))
              && ("failed_jobs" in kwargs && r.value["failed_jobs"].list == jobs ==> jobs.items == Rotated(old(jobs.items)))
  {
    r := MoveHead(kwargs, "failed_jobs");
  }

  /**
    `mark_as_processed`: the head of `jobs` moves to the end of `processed_jobs` (a new list when
    absent); `failed_jobs` and every other key are untouched; invalid arguments are a validation error.
  */
  method MarkAsProcessed(kwargs: Kwargs) returns (r: Result<Kwargs, ArgError>)
    modifies ListAt(kwargs, "jobs"), ListAt(kwargs, "processed_jobs")
    ensures !old(ValidArgs(kwargs)) ==> r == Failure(ValidationError)
    ensures !old(ValidArgs(kwargs)) ==> unchanged(ListAt(kwargs, "jobs"), ListAt(kwargs, "processed_jobs"))
    ensures old(ValidArgs(kwargs)) ==> r.Success? && r.value.Keys == kwargs.Keys + {"processed_jobs"}
    ensures old(ValidArgs(kwargs)) ==> forall key :: key in kwargs && key != "processed_jobs" ==> r.value[key] == kwargs[key]
    ensures old(ValidArgs(kwargs)) && "processed_jobs" in kwargs ==> r == Success(kwargs)
    ensures old(ValidArgs(kwargs)) ==>
              var jobs := kwargs["jobs"].list;
              && r.value["processed_jobs"].ListArg?
              && ("processed_jobs" !in kwargs ==>
                    fresh(r.value["processed_jobs"].list) && (jobs.items, r.value["processed_jobs"].list.items) == Transfer(old(jobs.items), []))
              && ("processed_jobs" in kwargs && r.value["processed_jobs"].list != jobs ==>
                    (jobs.items, r.value["processed_jobs"].list.items)
                      == Transfer(old(jobs.items), old(r.value["processed_jobs"].list.items)))
              && ("processed_jobs" in kwargs && r.value["processed_jobs"].list == jobs ==> jobs.items == Rotated(old(jobs.items)))
  {
    r := MoveHead(kwargs, "processed_jobs");
  }

  /**
    Calls without `jobs`, with `jobs='foo'`, or with an empty `jobs` list are rejected; with
    `jobs=[{'job_#': 1}, {'job_#': 2}, {'job_#': 3}]` alone, `failed_jobs` ends with the first job
    and `jobs` keeps the other two.
  */
  method MarkAsFailedScenario() returns (noArgs: Result<Kwargs, ArgError>, fooJobs: Result<Kwargs, ArgError>,
                                         emptyJobs: Result<Kwargs, ArgError>, moved: Result<Kwargs, ArgError>)
    ensures noArgs == fooJobs == emptyJobs == Failure(ValidationError)
    ensures moved.Success? && "failed_jobs" in moved.value && moved.value["failed_jobs"].ListArg?
    ensures moved.value["failed_jobs"].list.items == [map["job_#" := 1]]
    ensures "jobs" in moved.value && moved.value["jobs"].ListArg?
    ensures moved.value["jobs"].list.items == [map["job_#" := 2], map["job_#" := 3]]
  {
    noArgs := MarkAsFailed(map[]);
    fooJobs := MarkAsFailed(map["jobs" := OtherArg("foo")]);
    var empty := new JobList([]);
    var failed := new JobList([]);
    var processed := new JobList([]);
    emptyJobs := MarkAsFailed(map["jobs" := ListArg(empty), "failed_jobs" := ListArg(failed),
                                  "processed_jobs" := ListArg(processed)]);
    var jobs := new JobList([map["job_#" := 1], map["job_#" := 2], map["job_#" := 3]]);
    moved := MarkAsFailed(map["jobs" := ListArg(jobs)]);
  }

  /** The same calls to `mark_as_processed`: the first job ends `processed_jobs`, two jobs remain. */
  method MarkAsProcessedScenario() returns (noArgs: Result<Kwargs, ArgError>, fooJobs: Result<Kwargs, ArgError>,
                                            emptyJobs: Result<Kwargs, ArgError>, moved: Result<Kwargs, ArgError>)
    ensures noArgs == fooJobs == emptyJobs == Failure(ValidationError)
    ensures moved.Success? && "processed_jobs" in moved.value && moved.value["processed_jobs"].ListArg?
    ensures moved.value["processed_jobs"].list.items == [map["job_#" := 1]]
    ensures "jobs" in moved.value && moved.value["jobs"].ListArg?
    ensures moved.value["jobs"].list.items == [map["job_#" := 2], map["job_#" := 3]]
  {
    noArgs := MarkAsProcessed(map[]);
    fooJobs := MarkAsProcessed(map["jobs" := OtherArg("foo")]);
    var empty := new JobList([]);
    var failed := new JobList([]);
    var processed := new JobList([]);
    emptyJobs := MarkAsProcessed(map["jobs" := ListArg(empty), "failed_jobs" := ListArg(failed),
                                     "processed_jobs" := ListArg(processed)]);
    var jobs := new JobList([map["job_#" := 1], map["job_#" := 2], map["job_#" := 3]]);
    moved := MarkAsProcessed(map["jobs" := ListArg(jobs)]);
  }
}
