/**
 A session's concurrent jobs (internal/httpapi/quota.go:150-174): an acquire adds its
 job to the session's set, counts the set and, over the limit, takes the job out
 again. Each of the three is a call to the store of its own, and any number of
 acquires and releases interleave. A job's id is minted for its one acquire.
 */
module JobQuota {
  import opened Wrappers

  datatype JobId = JobId(text: string)

  /** Failed: the count could not be read, and the acquire gave up with its job still in the set. */
  datatype Phase = Added | Over | Admitted | Refused | Failed | Released

  datatype State = State(held: set<JobId>, jobs: map<JobId, Phase>)

  const START := State({}, map[])

  datatype Event = Add(job: JobId) | Count(job: JobId, answered: bool) | Remove(job: JobId) | Release(job: JobId)

  predicate At(s: State, job: JobId, phase: Phase) {
    job in s.jobs && s.jobs[job] == phase
  }

  function Step(s: State, limit: int, e: Event): State {
    match e
    case Add(job) =>
      if job in s.jobs then s
      else State(s.held + {job}, s.jobs[job := if limit <= 0 then Admitted else Added])
    case Count(job, answered) =>
      if !At(s, job, Added) then s
      else s.(jobs := s.jobs[job := if !answered then Failed else if |s.held| > limit then Over else Admitted])
    case Remove(job) =>
      if !At(s, job, Over) then s else State(s.held - {job}, s.jobs[job := Refused])
    case Release(job) =>
      if !At(s, job, Admitted) then s else State(s.held - {job}, s.jobs[job := Released])
  }

  datatype Run = Run(limit: int, events: seq<Event>) {
    function At(k: nat): State
      requires k <= |events|
    {
      if k == 0 then START else Step(At(k - 1), limit, events[k - 1])
    }
  }

  function Running(s: State): set<JobId> {
    set job | job in s.jobs && s.jobs[job] == Admitted
  }

  predicate Holding(phase: Phase) {
    phase == Added || phase == Over || phase == Admitted || phase == Failed
  }

  predicate Inv(s: State, limit: int) {
    && s.held == (set job | job in s.jobs && Holding(s.jobs[job]))
    && (limit > 0 ==> |Running(s)| <= limit)
  }

  lemma CountKeeps(s: State, limit: int, job: JobId, answered: bool)
    requires Inv(s, limit)
    ensures Inv(Step(s, limit, Count(job, answered)), limit)
  {
    var t := Step(s, limit, Count(job, answered));
    if At(t, job, Admitted) && t != s {
      SubsetSize(Running(t), s.held);
    } else {
      SubsetSize(Running(t), Running(s));
    }
  }

  lemma InvStep(s: State, limit: int, e: Event)
    requires Inv(s, limit)
    ensures Inv(Step(s, limit, e), limit)
  {
    var t := Step(s, limit, e);
    if e.Count? {
      CountKeeps(s, limit, e.job, e.answered);
    } else if limit > 0 {
      SubsetSize(Running(t), Running(s));
    }
  }

  lemma {:induction false} InvAlways(run: Run, k: nat)
    requires k <= |run.events|
    ensures Inv(run.At(k), run.limit)
  {
    if k > 0 {
      InvAlways(run, k - 1);
      InvStep(run.At(k - 1), run.limit, run.events[k - 1]);
    }
  }

  /** However acquires and releases interleave, no more jobs run than the limit allows. */
  lemma NeverOverTheLimit(run: Run, k: nat)
    requires k <= |run.events| && run.limit > 0
    ensures |Running(run.At(k))| <= run.limit
  {
    InvAlways(run, k);
  }

  /** With no acquire half way, and none given up, the set is exactly the jobs running: nothing leaks. */
  lemma SetIsWhatRuns(run: Run, k: nat)
    requires k <= |run.events|
    requires forall job | job in run.At(k).jobs :: run.At(k).jobs[job] in {Admitted, Refused, Released}
    ensures run.At(k).held == Running(run.At(k))
  {
    InvAlways(run, k);
  }

  /** So an acquire by itself is refused exactly when the limit is already running. */
  lemma AloneRefusedWhenFull(run: Run, k: nat, job: JobId)
    requires k <= |run.events| && run.limit > 0 && job !in run.At(k).jobs
    requires forall other | other in run.At(k).jobs :: run.At(k).jobs[other] in {Admitted, Refused, Released}
    ensures var s := run.At(k);
            var done := Step(Step(Step(s, run.limit, Add(job)), run.limit, Count(job, true)), run.limit, Remove(job));
            && (At(done, job, Admitted) <==> |Running(s)| < run.limit)
            && (At(done, job, Refused) <==> |Running(s)| == run.limit)
            && (At(done, job, Refused) ==> done.held == s.held)
  {
    SetIsWhatRuns(run, k);
    NeverOverTheLimit(run, k);
    InvAlways(run, k);
    var s := run.At(k);
    assert job !in s.held;
    assert |s.held + {job}| == |s.held| + 1;
  }

  /** Two at once can both be refused the last place: the set counts whoever is still asking. */
  lemma BothCanBeRefused(a: JobId, b: JobId)
    requires a != b
    ensures var run := Run(1, [Add(a), Add(b), Count(a, true), Count(b, true)]);
            At(run.At(4), a, Over) && At(run.At(4), b, Over)
  {
    var run := Run(1, [Add(a), Add(b), Count(a, true), Count(b, true)]);
    assert run.At(1).held == {a};
    assert run.At(2).held == {a, b} && |{a, b}| == 2;
    assert run.At(3).held == {a, b};
  }

  /** A job that ends gives its place up: whoever asks next by itself is admitted. */
  lemma ReleaseFreesAPlace(run: Run, k: nat, job: JobId, next: JobId)
    requires k <= |run.events| && run.limit > 0 && At(run.At(k), job, Admitted) && next !in run.At(k).jobs
    requires forall other | other in run.At(k).jobs :: run.At(k).jobs[other] in {Admitted, Refused, Released}
    ensures var s := run.At(k);
            var freed := Step(s, run.limit, Release(job));
            var done := Step(Step(freed, run.limit, Add(next)), run.limit, Count(next, true));
            && freed.held == s.held - {job} && Running(freed) == Running(s) - {job} && At(freed, job, Released)
            && At(done, next, Admitted)
  {
    SetIsWhatRuns(run, k);
    NeverOverTheLimit(run, k);
    InvAlways(run, k);
    var s := run.At(k);
    assert job in s.held && next !in s.held;
    assert |s.held - {job}| == |s.held| - 1;
    assert |(s.held - {job}) + {next}| == |s.held|;
  }

  /** No limit, no refusal. */
  lemma UnlimitedAdmitsAll(s: State, limit: int, job: JobId)
    requires limit <= 0 && job !in s.jobs
    ensures At(Step(s, limit, Add(job)), job, Admitted)
  {
  }
}
