/**
 What a remote remux does get done (internal/worker/remux.go:384-444, 594-651, 677-727):
 an uncovered position gets its run, a lost run its restart, a failed room is one whose
 restarts are used up. RemuxRuns says what never goes wrong; this, what goes through.
 */
module RemuxProgress {
  import opened Wrappers
  import opened RoomStore
  import opened RemuxRuns

  // ------------------------------------------------------------------------ reports

  predicate Heard(s: State, e: Event) {
    e.Report? && s.op == Free && s.record.Some? && s.record.value.run == e.run
  }

  /** A report gives the claim back only when the run failed with both restarts used. */
  lemma FailsOnlyWhenUsedUp(run: Run, k: nat)
    requires k < |run.events| && run.events[k].Report? && run.At(k).claimed && !run.At(k + 1).claimed
    ensures var s, e := run.At(k), run.events[k];
            Heard(s, e) && e.state == Failed && s.record.value.restarts == 2
  {
    Always(run, k);
    GivesBackWhenUsedUp(run.At(k), run.events[k]);
  }

  lemma GivesBackWhenUsedUp(s: State, e: Event)
    requires Shape(s) && e.Report? && s.claimed && !Step(s, e).claimed
    ensures Heard(s, e) && e.state == Failed && s.record.value.restarts == 2
  {
  }

  /**
   A report on the current run sets its state and length, whatever else it does. A
   failure with restarts left adds a retry that carries the run; one with none left
   gives the claim back.
   */
  lemma ReportedExactly(s: State, e: Event)
    requires Heard(s, e) && e.kept
    ensures var t := Step(s, e);
            var heard := s.record.value.(state := e.state, producedMs := e.producedMs);
            && t.record == Some(heard) && t.op == Free
            && t.retries == s.retries + (if e.state == Failed && s.record.value.restarts < 2 then multiset{heard}
                                         else multiset{})
            && t.claimed == (s.claimed && !(e.state == Failed && s.record.value.restarts >= 2 && e.released))
  {
  }

  // ---------------------------------------------------------------- retries are kept

  /** A run reported as failed with restarts left. */
  predicate LosesARun(s: State, e: Event) {
    Heard(s, e) && e.state == Failed && s.record.value.restarts < 2
  }

  function LostRun(s: State, e: Event): Record
    requires LosesARun(s, e)
  {
    s.record.value.(state := Failed, producedMs := e.producedMs)
  }

  lemma ActsKeepRetries(s: State, e: Event)
    requires Acts(e)
    ensures Step(s, e).retries == s.retries
  {
    if e.Dispatch? && s.op.Acting? && s.op.phase == Saved {
      DispatchKeepsRetries(s, e.ok, e.started, e.released, e.kept);
    }
  }

  lemma DispatchKeepsRetries(s: State, ok: bool, started: bool, released: bool, kept: bool)
    requires s.op.Acting?
    ensures Dispatched(s, ok, started, released, kept).retries == s.retries
  {
  }

  lemma OthersKeepRetries(s: State, e: Event)
    requires OfOthers(e) || e.Start? || e.Follow? || e.Cancel?
    ensures Step(s, e).retries == s.retries
  {
  }

  lemma ReportKeepsRetries(s: State, e: Event)
    requires e.Report? || e.Retry?
    ensures e.Report? ==> s.retries <= Step(s, e).retries
    ensures e.Retry? ==> s.retries - multiset{e.lost} <= Step(s, e).retries
  {
  }

  predicate TakesTurn(e: Event, lost: Record) {
    e.Retry? && e.lost == lost
  }

  lemma RetryStays(s: State, e: Event, lost: Record)
    requires lost in s.retries && !TakesTurn(e, lost)
    ensures lost in Step(s, e).retries
  {
    if Acts(e) {
      ActsKeepRetries(s, e);
    } else if e.Report? || e.Retry? {
      ReportKeepsRetries(s, e);
    } else {
      OthersKeepRetries(s, e);
    }
  }

  predicate Pending(run: Run, k: nat, lost: Record)
    requires k <= |run.events|
  {
    lost in run.At(k).retries
  }

  lemma PendsNext(run: Run, k: nat, next: nat, lost: Record)
    requires next == k + 1 <= |run.events| && Pending(run, k, lost) && !TakesTurn(run.events[k], lost)
    ensures Pending(run, next, lost)
  {
    RetryStays(run.At(k), run.events[k], lost);
  }

  predicate PendingAt(run: Run, lost: Record, k: nat) {
    k <= |run.events| && Pending(run, k, lost)
  }

  lemma PendsEach(run: Run, i: nat, k: nat, lost: Record, n: nat)
    requires k <= |run.events| && NoTurn(run, i, k, lost) && i <= n < k && PendingAt(run, lost, n)
    ensures PendingAt(run, lost, n + 1)
  {
    PendsNext(run, n, n + 1, lost);
  }

  lemma {:induction false} PendsFrom(run: Run, i: nat, k: nat, lost: Record)
    requires i <= k <= |run.events| && PendingAt(run, lost, i) && NoTurn(run, i, k, lost)
    ensures PendingAt(run, lost, k)
    decreases k - i
  {
    if i < k {
      PendsEach(run, i, k, lost, i);
      PendsFrom(run, i + 1, k, lost);
    }
  }

  predicate LostAt(run: Run, j: nat, lost: Record)
    requires j < |run.events|
  {
    LosesARun(run.At(j), run.events[j]) && lost == LostRun(run.At(j), run.events[j])
  }

  lemma LossIsRetried(s: State, e: Event)
    requires LosesARun(s, e)
    ensures LostRun(s, e) in Step(s, e).retries
  {
  }

  lemma LossPends(run: Run, j: nat, next: nat, lost: Record)
    requires next == j + 1 <= |run.events| && LostAt(run, j, lost)
    ensures Pending(run, next, lost)
  {
    LossIsRetried(run.At(j), run.events[j]);
  }

  predicate NoTurn(run: Run, i: nat, k: nat, lost: Record)
    requires k <= |run.events|
  {
    forall n | i <= n < k :: !TakesTurn(run.events[n], lost)
  }

  /** After a failure is reported on a run with restarts left, its retry is pending until it gets its turn. */
  lemma RetryPends(run: Run, j: nat, next: nat, k: nat, lost: Record)
    requires next == j + 1 <= k <= |run.events| && LostAt(run, j, lost) && NoTurn(run, next, k, lost)
    ensures Pending(run, k, lost)
  {
    assert PendingAt(run, lost, next) by {
      LossPends(run, j, next, lost);
    }
    assert PendingAt(run, lost, k) by {
      PendsFrom(run, next, k, lost);
    }
  }

  // ------------------------------------------------------------------ what a run begins

  /**
   With the lock free and the run still the room's, a retry begins a new run of the same
   production with one restart more: after what its region shows, in a region above
   every listed one, or in its own region from its own start when that shows nothing.
   */
  lemma RetryBegins(s: State, lost: Record, top: nat)
    requires s.op == Free && lost in s.retries && s.record.Some? && s.record.value.run == lost.run
    requires IsHighest(s.regions, lost.region, top)
    ensures var op := Step(s, Retry(lost, top)).op;
            && op.Acting? && op.kind == Restarting && op.before == lost && op.phase == ReadRoom
            && op.next.run == |s.ids| && op.next.production == lost.production
            && op.next.restarts == lost.restarts + 1 && op.next.producedMs == 0 && op.next.state == Starting
            && (if lost.region in s.regions && s.regions[lost.region].producedMs > 0 then
                  && op.next.startMs == s.regions[lost.region].startMs + s.regions[lost.region].producedMs
                  && Above(s.regions, op.next.region)
                else op.next.startMs == lost.startMs && op.next.region == lost.region)
  {
  }

  /** The region is still being made, by its own word or by the run's. */
  predicate StillMade(n: nat, region: Region, run: Record) {
    region.growing || (n == run.region && run.state !in {Completed, Cancelled, Failed})
  }

  /** The position is in a listed region, or no further than 45 seconds past what is being made. */
  predicate SoonThere(regions: map<nat, Region>, run: Record, positionMs: int) {
    || (exists n | n in regions :: SoonIn(n, regions[n], run, positionMs))
    || ((regions == map[] || run.state == Starting || run.state == Accepted)
        && run.startMs <= positionMs + 1_000 && positionMs <= run.startMs + run.producedMs + 45_000)
  }

  predicate SoonIn(n: nat, region: Region, run: Record, positionMs: int) {
    && region.startMs <= positionMs + 1_000
    && if StillMade(n, region, run)
       then positionMs <= region.startMs + region.producedMs + 45_000
            || positionMs <= run.startMs + run.producedMs + 45_000
       else positionMs <= region.startMs + region.producedMs
  }

  lemma SoonThereIsCovered(regions: map<nat, Region>, run: Record, positionMs: int)
    ensures SoonThere(regions, run, positionMs) <==> Covered(regions, run, positionMs)
  {
    forall n | n in regions
      ensures SoonIn(n, regions[n], run, positionMs) <==> CoveredBy(n, regions[n], run, positionMs)
    {
    }
  }

  /**
   A follow of a room with a run that did not fail begins a new run if and only if the
   position is not there soon: at that position, above every listed region.
   */
  lemma FollowsExactly(s: State, positionMs: nat, top: nat)
    requires s.op == Free && s.record.Some? && IsHighest(s.regions, s.record.value.region, top)
    ensures var t, run := Step(s, Follow(positionMs, top)), s.record.value;
            if run.state in {Cancelled, Failed} || SoonThere(s.regions, run, positionMs) then t == s
            else
              && t.op.Acting? && t.op.kind == Following && t.op.before == run && t.op.phase == ReadRoom
              && t.op.next.run == |s.ids| && t.op.next.production == run.production
              && t.op.next.restarts == run.restarts && t.op.next.state == Starting
              && t.op.next.startMs == positionMs && Above(s.regions, t.op.next.region)
              && t.op.next.region > run.region
  {
    SoonThereIsCovered(s.regions, s.record.value, positionMs);
  }

  // ------------------------------------------------------------------- carried through

  /** The fence moved, the record saved and the worker willing. */
  function Through(s: State, kept: bool): State {
    Step(Step(Step(s, MoveFence(true, true, kept)), SaveRun(true, true, kept)), Dispatch(true, true, true, kept))
  }

  lemma ThroughIs(s: State, kept: bool)
    requires s.op.Acting? && s.op.phase == ReadRoom
    ensures var next := s.op.next;
            Through(s, kept) == s.(
              fence := Some(next.run), record := Some(if kept then next.(state := Accepted) else next),
              dispatched := s.dispatched + {next.run}, restarted := Logged(s, s.op), op := Free)
  {
    var next := s.op.next;
    var fenced := Step(s, MoveFence(true, true, kept));
    assert fenced == s.(fence := Some(next.run), op := s.op.(phase := Fenced));
    var saved := Step(fenced, SaveRun(true, true, kept));
    assert saved == fenced.(record := Some(next), op := s.op.(phase := Saved));
  }

  /**
   Carried through, the run is the room's: its worker has it, the fence is on it, its
   publishes are accepted while the room keeps its claim and no other's are, and a
   restart counts as one.
   */
  lemma CarriedThrough(s: State, kept: bool)
    requires s.op.Acting? && s.op.phase == ReadRoom
    ensures var t, next := Through(s, kept), s.op.next;
            && t.op == Free && t.record.Some? && t.record.value.run == next.run
            && t.record.value.region == next.region && t.record.value.startMs == next.startMs
            && next.run in t.dispatched && (Accepts(t, next.run) <==> s.claimed)
            && (forall other | Accepts(t, other) :: other == next.run)
            && t.restarted == (if s.op.kind == Restarting
                               then s.restarted + [Restart(s.op.before.run, s.op.before.production)] else s.restarted)
  {
    ThroughIs(s, kept);
  }

  /** A room with no claim and no run going is given its first: region 0, from where it was asked for. */
  lemma StartsAFirstRun(s: State, startMs: nat)
    requires s.op == Free && !s.claimed && (s.record.None? || s.record.value.state in {Completed, Cancelled, Failed})
    ensures var t := Step(s, Start(startMs, true, true, true, true, true, true));
            && t.claimed && t.fence == Some(|s.ids|) && t.record.Some? && Accepts(t, |s.ids|)
            && t.record.value.run == |s.ids| && t.record.value.region == 0 && t.record.value.startMs == startMs
            && t.record.value.restarts == 0 && t.record.value.state == Accepted
            && t.record.value.production == s.productions
  {
  }

  // --------------------------------------------------------------- what a run publishes

  /**
   An accepted publish of a run lists its own region as sent and every other it read, no
   longer growing; one that changes nothing it read leaves the room's as they are.
   */
  lemma PublishListsItsRegion(s: State, id: nat, region: Region)
    requires id in s.loads && Accepts(s, s.loads[id].run) && s.loads[id].run < |s.ids|
    ensures var load, t := s.loads[id], Step(s, CommitRegions(id, Some(region)));
            var own := s.ids[load.run].region;
            && t.fence == Some(load.run)
            && if SaysNothingNew(load.known, own, region) then t.regions == s.regions
               else && t.regions.Keys == load.known.Keys + {own} && t.regions[own] == region
                    && forall n | n in load.known && n != own :: t.regions[n] == load.known[n].(growing := false)
  {
    var load := s.loads[id];
    var own := s.ids[load.run].region;
    var regions := WithOwn(load.known, own, Some(region));
    assert regions.Keys == load.known.Keys + {own} && regions[own] == region;
    if SaysNothingNew(load.known, own, region) {
      assert regions == load.known;
    }
  }

  /** Its own region is known just so, and no other is thought to grow. */
  predicate SaysNothingNew(known: map<nat, Region>, own: nat, region: Region) {
    own in known && known[own] == region && forall n | n in known && n != own :: !known[n].growing
  }

  lemma CancelEnds(s: State)
    requires s.op == Free && s.record.Some?
    ensures var t := Step(s, Cancel(true, true));
            t.record.None? && !t.claimed && t.fence.None? && forall other :: !Accepts(t, other)
  {
  }
}
