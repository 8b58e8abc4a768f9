/**
 The sliding-window limiter of internal/httpapi/join.go.  It forgets: each call
 filters its key's hits in place, and a sweep drops keys that went quiet.  A call
 reads the clock before it takes the lock, so calls are served in whatever order they
 get it.  The theorems say exactly when forgetting shows in an answer, and that it
 never does while calls are served in the order of their stamps.
 */
module WindowLimiter {
  import opened Wrappers

  datatype Key = Key(text: string)

  /** The hits later than `cutoff`, in order. */
  function Later(times: seq<int>, cutoff: int): seq<int> {
    if times == [] then []
    else
      var rest := Later(times[..|times| - 1], cutoff);
      var at := times[|times| - 1];
      if at > cutoff then rest + [at] else rest
  }

  datatype Limiter = Limiter(hits: map<Key, seq<int>>, swept: Option<int>)

  const NEW := Limiter(map[], None)

  function HitsOf(hits: map<Key, seq<int>>, key: Key): seq<int> {
    if key in hits then hits[key] else []
  }

  /** A key whose newest hit is before the cutoff, or that has none. */
  predicate Quiet(times: seq<int>, cutoff: int) {
    times == [] || times[|times| - 1] < cutoff
  }

  function Sweep(hits: map<Key, seq<int>>, cutoff: int): map<Key, seq<int>> {
    map k | k in hits && !Quiet(hits[k], cutoff) :: hits[k]
  }

  predicate SweepDue(l: Limiter, window: int, now: int) {
    l.swept.None? || now - l.swept.value > window
  }

  function Swept(l: Limiter, window: int, now: int): Limiter {
    if SweepDue(l, window, now) then Limiter(Sweep(l.hits, now - window), Some(now)) else l
  }

  /** One call, as the source makes it. */
  function Answer(l: Limiter, limit: int, window: int, key: Key, now: int): (Limiter, bool) {
    var s := Swept(l, window, now);
    var recent := Later(HitsOf(s.hits, key), now - window);
    if |recent| >= limit then (s.(hits := s.hits[key := recent]), false)
    else (s.(hits := s.hits[key := recent + [now]]), true)
  }

  /** A sweep is due and takes the key: its last hit is before the window. */
  predicate SweepsKey(l: Limiter, window: int, now: int, key: Key) {
    SweepDue(l, window, now) && Quiet(HitsOf(l.hits, key), now - window)
  }

  // ------------------------------------------------------- stamped, then served

  datatype Call = Call(key: Key, now: int)

  /** Reading the clock and the locked section are two steps of a call; others fall between. */
  datatype Door = Door(now: int, waiting: map<nat, Call>, served: seq<Call>)

  datatype Event = Tick(ms: nat) | Stamp(id: nat, key: Key) | Serve(id: nat)

  function Step(d: Door, e: Event): Door {
    match e
    case Tick(ms) => d.(now := d.now + ms)
    case Stamp(id, key) => if id in d.waiting then d else d.(waiting := d.waiting[id := Call(key, d.now)])
    case Serve(id) =>
      if id !in d.waiting then d else Door(d.now, d.waiting - {id}, d.served + [d.waiting[id]])
  }

  function After(events: seq<Event>, k: nat): Door
    requires k <= |events|
  {
    if k == 0 then Door(0, map[], []) else Step(After(events, k - 1), events[k - 1])
  }

  // ------------------------------------------------------------- the full history

  /** Calls, in the order they were served. */
  datatype Run = Run(limit: int, window: int, calls: seq<Call>) {
    predicate InOrder() {
      forall j, k | 0 <= j < k < |calls| :: calls[j].now <= calls[k].now
    }

    /** The limiter once the first `k` calls were served, and its answer to the next. */
    function LimiterAt(k: nat): Limiter
      requires k <= |calls|
    {
      if k == 0 then NEW else Answer(LimiterAt(k - 1), limit, window, calls[k - 1].key, calls[k - 1].now).0
    }

    function AnswerAt(k: nat): bool
      requires k < |calls|
    {
      Answer(LimiterAt(k), limit, window, calls[k].key, calls[k].now).1
    }

    /** The accepted hits of a key among the first `n` calls, stamped after `cutoff`. */
    function Hits(n: nat, key: Key, cutoff: int): set<nat>
      requires n <= |calls|
    {
      set j | 0 <= j < n && calls[j].key == key && calls[j].now > cutoff && AnswerAt(j)
    }

    /** Those of its key that lie within the window of the k-th call. */
    function InWindow(k: nat): set<nat>
      requires k < |calls|
    {
      Hits(k, calls[k].key, calls[k].now - window)
    }

    /** The rule: allow if and only if fewer than `limit` accepted hits of the key lie within the window. */
    predicate FullAnswer(k: nat)
      requires k < |calls|
    {
      |InWindow(k)| < limit
    }

    predicate SweepsAway(i: nat, key: Key)
      requires i < |calls|
    {
      SweepsKey(LimiterAt(i), window, calls[i].now, key)
    }

    /** The i-th call makes the limiter forget the j-th: filtered out, or swept with its key. */
    predicate Drops(i: nat, j: nat)
      requires j < i < |calls|
    {
      || (calls[i].key == calls[j].key && calls[j].now <= calls[i].now - window)
      || SweepsAway(i, calls[j].key)
    }

    /** The j-th hit was accepted, and none of the calls before the k-th dropped it. */
    predicate Held(k: nat, j: nat)
      requires j < k <= |calls|
    {
      if k == j + 1 then AnswerAt(j) else Held(k - 1, j) && !Drops(k - 1, j)
    }

    /** The hits of a key among the first `n` calls that are held when the k-th is served. */
    function HeldOf(k: nat, n: nat, key: Key): set<nat>
      requires n <= k <= |calls|
    {
      set j | 0 <= j < n && calls[j].key == key && Held(k, j)
    }

    /** What of its window the k-th call can still see. */
    function Seen(k: nat): set<nat>
      requires k < |calls|
    {
      HeldOf(k + 1, k, calls[k].key)
    }

    /** How many of the first `k` calls hit `key` after `cutoff` and were let in by a limiter that never forgets. */
    function PlainHits(k: nat, key: Key, cutoff: int): nat
      requires k <= |calls|
    {
      if k == 0 then 0
      else PlainHits(k - 1, key, cutoff) +
           if calls[k - 1].key == key && calls[k - 1].now > cutoff && PlainAnswer(k - 1) then 1 else 0
    }

    predicate PlainAnswer(k: nat)
      requires k < |calls|
    {
      PlainHits(k, calls[k].key, calls[k].now - window) < limit
    }
  }

  // -------------------------------------------------- what the limiter remembers

  /** The stamps of the first `n` hits of a key that are held when the k-th call is served. */
  function HeldStamps(run: Run, k: nat, n: nat, key: Key): seq<int>
    requires n <= k <= |run.calls|
  {
    if n == 0 then []
    else if run.calls[n - 1].key == key && run.Held(k, n - 1) then
      HeldStamps(run, k, n - 1, key) + [run.calls[n - 1].now]
    else HeldStamps(run, k, n - 1, key)
  }

  lemma LaterSnoc(times: seq<int>, at: int, cutoff: int)
    ensures Later(times + [at], cutoff) == if at > cutoff then Later(times, cutoff) + [at] else Later(times, cutoff)
  {
    assert (times + [at])[..|times|] == times;
  }

  /** What a call leaves of a list of hits of a key, its own or not, before it adds itself. */
  function Kept(l: Limiter, window: int, call: Call, key: Key, times: seq<int>): seq<int> {
    if SweepsKey(l, window, call.now, key) then []
    else if call.key == key then Later(times, call.now - window) else times
  }

  function LeftTimes(l: Limiter, window: int, call: Call, key: Key): seq<int> {
    Kept(l, window, call, key, HitsOf(l.hits, key))
  }

  function NextTimes(l: Limiter, limit: int, window: int, call: Call, key: Key): seq<int> {
    LeftTimes(l, window, call, key)
    + if call.key == key && Answer(l, limit, window, call.key, call.now).1 then [call.now] else []
  }

  lemma KeptSnoc(run: Run, k: nat, l: Limiter, n: nat, times: seq<int>)
    requires n < k < |run.calls| && l == run.LimiterAt(k)
    ensures var key, at := run.calls[n].key, run.calls[n].now;
            Kept(l, run.window, run.calls[k], key, times + [at]) ==
            Kept(l, run.window, run.calls[k], key, times) + if run.Drops(k, n) then [] else [at]
  {
    LaterSnoc(times, run.calls[n].now, run.calls[k].now - run.window);
  }

  /** Serving one more call takes out of what is held what it drops. */
  lemma {:induction false} HeldAfterOne(run: Run, k: nat, l: Limiter, n: nat, key: Key)
    requires n <= k < |run.calls| && l == run.LimiterAt(k)
    ensures HeldStamps(run, k + 1, n, key) == Kept(l, run.window, run.calls[k], key, HeldStamps(run, k, n, key))
  {
    if n > 0 {
      HeldAfterOne(run, k, l, n - 1, key);
      if run.calls[n - 1].key == key {
        KeptSnoc(run, k, l, n - 1, HeldStamps(run, k, n - 1, key));
      }
    }
  }

  lemma AnswerTimes(l: Limiter, limit: int, window: int, call: Call, key: Key)
    ensures HitsOf(Answer(l, limit, window, call.key, call.now).0.hits, key) == NextTimes(l, limit, window, call, key)
  {
  }

  lemma AnswerByTimes(l: Limiter, limit: int, window: int, call: Call)
    ensures Answer(l, limit, window, call.key, call.now).1 == (|LeftTimes(l, window, call, call.key)| < limit)
  {
  }

  lemma OneMore(run: Run, k: nat)
    requires k < |run.calls|
    ensures var (next, ok) := Answer(run.LimiterAt(k), run.limit, run.window, run.calls[k].key, run.calls[k].now);
            run.LimiterAt(k + 1) == next && run.AnswerAt(k) == ok
  {
  }

  lemma HeldThroughOne(run: Run, k: nat, key: Key)
    requires k < |run.calls| && HitsOf(run.LimiterAt(k).hits, key) == HeldStamps(run, k, k, key)
    ensures HeldStamps(run, k + 1, k, key) == LeftTimes(run.LimiterAt(k), run.window, run.calls[k], key)
  {
    HeldAfterOne(run, k, run.LimiterAt(k), k, key);
  }

  lemma HeldAndItself(run: Run, k: nat, key: Key)
    requires k < |run.calls| && HitsOf(run.LimiterAt(k).hits, key) == HeldStamps(run, k, k, key)
    ensures HeldStamps(run, k + 1, k + 1, key) == NextTimes(run.LimiterAt(k), run.limit, run.window, run.calls[k], key)
  {
    HeldThroughOne(run, k, key);
    assert run.Held(k + 1, k) == run.AnswerAt(k);
    OneMore(run, k);
  }

  /** The limiter's list of a key is exactly the hits no call served since has dropped, in the order served. */
  lemma {:induction false} RemembersTheHeld(run: Run, k: nat, key: Key)
    requires k <= |run.calls|
    ensures HitsOf(run.LimiterAt(k).hits, key) == HeldStamps(run, k, k, key)
  {
    if k > 0 {
      RemembersTheHeld(run, k - 1, key);
      RemembersOneMore(run, k - 1, key);
    }
  }

  lemma RemembersOneMore(run: Run, k: nat, key: Key)
    requires k < |run.calls| && HitsOf(run.LimiterAt(k).hits, key) == HeldStamps(run, k, k, key)
    ensures HitsOf(run.LimiterAt(k + 1).hits, key) == HeldStamps(run, k + 1, k + 1, key)
  {
    HeldAndItself(run, k, key);
    OneMore(run, k);
    AnswerTimes(run.LimiterAt(k), run.limit, run.window, run.calls[k], key);
  }

  lemma HeldOneFurther(run: Run, k: nat, n: nat, key: Key)
    requires n < k <= |run.calls|
    ensures run.HeldOf(k, n + 1, key) ==
            run.HeldOf(k, n, key) + if run.calls[n].key == key && run.Held(k, n) then {n} else {}
    ensures n !in run.HeldOf(k, n, key)
  {
  }

  lemma CountOneFurther(run: Run, k: nat, n: nat, key: Key)
    requires n < k <= |run.calls| && |HeldStamps(run, k, n, key)| == |run.HeldOf(k, n, key)|
    ensures |HeldStamps(run, k, n + 1, key)| == |run.HeldOf(k, n + 1, key)|
  {
    HeldOneFurther(run, k, n, key);
  }

  lemma {:induction false} CountHeld(run: Run, k: nat, n: nat, key: Key)
    requires n <= k <= |run.calls|
    ensures |HeldStamps(run, k, n, key)| == |run.HeldOf(k, n, key)|
  {
    if n > 0 {
      CountHeld(run, k, n - 1, key);
      CountOneFurther(run, k, n - 1, key);
    } else {
      assert run.HeldOf(k, 0, key) == {};
    }
  }

  /** A call is answered by how many hits it can see. */
  lemma AnswersWhatItSees(run: Run, k: nat)
    requires k < |run.calls|
    ensures run.AnswerAt(k) <==> |run.Seen(k)| < run.limit
  {
    var call, l := run.calls[k], run.LimiterAt(k);
    RemembersTheHeld(run, k, call.key);
    HeldThroughOne(run, k, call.key);
    CountHeld(run, k + 1, k, call.key);
    AnswerByTimes(l, run.limit, run.window, call);
    assert run.AnswerAt(k) == Answer(l, run.limit, run.window, call.key, call.now).1;
  }

  // ------------------------------------------------------- exactly when it shows

  lemma {:induction false} HeldUnlessDropped(run: Run, k: nat, j: nat)
    requires j < k <= |run.calls|
    ensures run.Held(k, j) <==> run.AnswerAt(j) && forall i | j < i < k :: !run.Drops(i, j)
  {
    if k > j + 1 {
      HeldUnlessDropped(run, k - 1, j);
    }
  }

  /** An accepted hit of its window escapes a call exactly when some call served since, or its own sweep, dropped it. */
  lemma OverlooksTheDropped(run: Run, k: nat, j: nat)
    requires k < |run.calls|
    ensures j in run.InWindow(k) - run.Seen(k) <==>
            j in run.InWindow(k) && exists i :: j < i <= k && run.Drops(i, j)
    ensures run.Seen(k) <= run.InWindow(k)
  {
    if j in run.InWindow(k) {
      HeldUnlessDropped(run, k + 1, j);
    }
    forall n | n in run.Seen(k)
      ensures n in run.InWindow(k)
    {
      HeldUnlessDropped(run, k + 1, n);
      assert !run.Drops(k, n);
    }
  }

  /**
   An answer differs from the rule's exactly when the hits a call can see are too few
   for the limit and those dropped from its window make up for it; and then only by
   letting the call through.
   */
  lemma ForgettingShowsExactly(run: Run, k: nat)
    requires k < |run.calls|
    ensures run.AnswerAt(k) != run.FullAnswer(k) <==>
            |run.Seen(k)| < run.limit <= |run.Seen(k)| + |run.InWindow(k) - run.Seen(k)|
    ensures run.FullAnswer(k) ==> run.AnswerAt(k)
  {
    AnswersWhatItSees(run, k);
    OverlooksTheDropped(run, k, 0);
    assert run.InWindow(k) == run.Seen(k) + (run.InWindow(k) - run.Seen(k));
  }

  /** Of a key served in order, the last hit held is no older than any held. */
  lemma {:induction false} LastIsNewest(run: Run, k: nat, n: nat, j: nat)
    requires j < n <= k <= |run.calls| && run.Held(k, j)
    requires forall i | j < i < n && run.calls[i].key == run.calls[j].key :: run.calls[j].now <= run.calls[i].now
    ensures var held := HeldStamps(run, k, n, run.calls[j].key);
            held != [] && held[|held| - 1] >= run.calls[j].now
  {
    if j < n - 1 {
      LastIsNewest(run, k, n - 1, j);
    }
  }

  predicate Newest(run: Run, k: nat)
    requires k < |run.calls|
  {
    forall m | 0 <= m < k :: run.calls[m].now <= run.calls[k].now
  }

  /** A hit held, no newer than the rest of its key, keeps a sweep off its key for as long as it is in the window. */
  lemma NotSwept(run: Run, j: nat, i: nat)
    requires j < i < |run.calls| && run.Held(i, j) && run.calls[j].now > run.calls[i].now - run.window
    requires forall m | j < m < i && run.calls[m].key == run.calls[j].key :: run.calls[j].now <= run.calls[m].now
    ensures !run.SweepsAway(i, run.calls[j].key)
  {
    LastIsNewest(run, i, i, j);
    RemembersTheHeld(run, i, run.calls[j].key);
  }

  /** No call older than it drops a hit from the window of the k-th, while the hits of its key came in order. */
  lemma {:induction false} NothingDropped(run: Run, k: nat, j: nat, i: nat)
    requires j < i <= k < |run.calls| && j in run.InWindow(k) && Newest(run, k)
    requires forall m | j < m < k && run.calls[m].key == run.calls[k].key :: run.calls[j].now <= run.calls[m].now
    ensures run.Held(i, j) && !run.Drops(i, j)
  {
    if i > j + 1 {
      NothingDropped(run, k, j, i - 1);
    }
    assert run.Held(i, j);
    assert run.calls[i].now <= run.calls[k].now;
    NotSwept(run, j, i);
  }

  /** A call no older than those served before it, whose key was served in order, is answered by the rule. */
  lemma ForgettingNeverShows(run: Run, k: nat)
    requires k < |run.calls| && Newest(run, k)
    requires forall j, m | 0 <= j < m < k && run.calls[j].key == run.calls[k].key == run.calls[m].key ::
               run.calls[j].now <= run.calls[m].now
    ensures run.AnswerAt(k) == run.FullAnswer(k)
  {
    forall j | j in run.InWindow(k)
      ensures j in run.Seen(k)
    {
      NothingDropped(run, k, j, k);
      assert run.Held(k + 1, j);
    }
    ForgettingShowsExactly(run, k);
    assert run.InWindow(k) - run.Seen(k) == {};
  }

  lemma HitsOneFurther(run: Run, n: nat, key: Key, cutoff: int)
    requires n < |run.calls|
    ensures run.Hits(n + 1, key, cutoff) == run.Hits(n, key, cutoff)
            + if run.calls[n].key == key && run.calls[n].now > cutoff && run.AnswerAt(n) then {n} else {}
    ensures n !in run.Hits(n, key, cutoff)
  {
  }

  predicate FollowsTheRule(run: Run, k: nat)
    requires k < |run.calls|
  {
    run.AnswerAt(k) == run.FullAnswer(k)
  }

  predicate FollowsThePlain(run: Run, k: nat)
    requires k < |run.calls|
  {
    run.AnswerAt(k) == run.PlainAnswer(k)
  }

  lemma PlainOneFurther(run: Run, n: nat, key: Key, cutoff: int)
    requires n < |run.calls| && FollowsThePlain(run, n)
    requires run.PlainHits(n, key, cutoff) == |run.Hits(n, key, cutoff)|
    ensures run.PlainHits(n + 1, key, cutoff) == |run.Hits(n + 1, key, cutoff)|
  {
    HitsOneFurther(run, n, key, cutoff);
  }

  lemma {:induction false} PlainHitsAreHits(run: Run, n: nat, key: Key, cutoff: int)
    requires n <= |run.calls| && forall k | 0 <= k < n :: FollowsThePlain(run, k)
    ensures run.PlainHits(n, key, cutoff) == |run.Hits(n, key, cutoff)|
  {
    if n > 0 {
      PlainHitsAreHits(run, n - 1, key, cutoff);
      PlainOneFurther(run, n - 1, key, cutoff);
    } else {
      assert run.Hits(0, key, cutoff) == {};
    }
  }

  lemma BothOrNeither(run: Run, n: nat)
    requires n < |run.calls| && forall k | 0 <= k < n :: FollowsThePlain(run, k)
    ensures FollowsTheRule(run, n) == FollowsThePlain(run, n)
  {
    PlainHitsAreHits(run, n, run.calls[n].key, run.calls[n].now - run.window);
  }

  lemma {:induction false} RuleMakesPlain(run: Run, n: nat)
    requires n <= |run.calls| && forall k | 0 <= k < n :: FollowsTheRule(run, k)
    ensures forall k | 0 <= k < n :: FollowsThePlain(run, k)
  {
    if n > 0 {
      RuleMakesPlain(run, n - 1);
      BothOrNeither(run, n - 1);
    }
  }

  /** A limiter follows the rule throughout exactly when it answers throughout as one that never forgets. */
  lemma FollowsTheRuleThroughout(run: Run, n: nat)
    requires n <= |run.calls|
    ensures (forall k | 0 <= k < n :: FollowsTheRule(run, k)) <==>
            (forall k | 0 <= k < n :: FollowsThePlain(run, k))
  {
    if forall k | 0 <= k < n :: FollowsTheRule(run, k) {
      RuleMakesPlain(run, n);
    }
    if forall k | 0 <= k < n :: FollowsThePlain(run, k) {
      forall k | 0 <= k < n {
        BothOrNeither(run, k);
      }
    }
  }

  lemma InOrderFollowsTheRule(run: Run, k: nat)
    requires run.InOrder() && k < |run.calls|
    ensures FollowsTheRule(run, k)
  {
    ForgettingNeverShows(run, k);
  }

  /** Served in the order of their stamps, whatever their keys, calls are answered as if nothing were ever forgotten. */
  lemma InOrderAnswersPlainly(run: Run, k: nat)
    requires run.InOrder() && k < |run.calls|
    ensures run.AnswerAt(k) == run.PlainAnswer(k)
  {
    forall j | 0 <= j <= k {
      InOrderFollowsTheRule(run, j);
    }
    FollowsTheRuleThroughout(run, k + 1);
    assert FollowsThePlain(run, k);
  }

  // --------------------------------------------- who gets the lock in what order

  predicate OneWaits(d: Door) {
    forall a, b | a in d.waiting && b in d.waiting :: a == b
  }

  predicate ServedInOrder(d: Door) {
    && (forall j, k | 0 <= j < k < |d.served| :: d.served[j].now <= d.served[k].now)
    && (forall j | 0 <= j < |d.served| :: d.served[j].now <= d.now)
    && (forall id, j | id in d.waiting && 0 <= j < |d.served| :: d.served[j].now <= d.waiting[id].now)
    && (forall id | id in d.waiting :: d.waiting[id].now <= d.now)
  }

  lemma OneByOneStep(d: Door, e: Event)
    requires ServedInOrder(d) && OneWaits(d) && OneWaits(Step(d, e))
    ensures ServedInOrder(Step(d, e))
  {
  }

  /** Calls that do not overlap are served in the order of their stamps. */
  lemma {:induction false} OneByOneIsInOrder(events: seq<Event>, k: nat)
    requires k <= |events| && forall j | 0 <= j <= k :: OneWaits(After(events, j))
    ensures ServedInOrder(After(events, k))
  {
    if k > 0 {
      OneByOneIsInOrder(events, k - 1);
      assert OneWaits(After(events, k - 1)) && OneWaits(After(events, k));
      OneByOneStep(After(events, k - 1), events[k - 1]);
    }
  }

  /** So while no two calls overlap, every answer is that of a limiter that never forgets. */
  lemma OneByOneAnswersPlainly(limit: int, window: int, events: seq<Event>, k: nat, n: nat)
    requires k <= |events| && forall j | 0 <= j <= k :: OneWaits(After(events, j))
    requires n < |After(events, k).served|
    ensures var run := Run(limit, window, After(events, k).served); run.AnswerAt(n) == run.PlainAnswer(n)
  {
    OneByOneIsInOrder(events, k);
    InOrderAnswersPlainly(Run(limit, window, After(events, k).served), n);
  }

  /** Three calls of one key: the second to be stamped gets the lock last. */
  lemma OvertakingIsServed(key: Key)
    ensures var events := [Tick(1), Stamp(0, key), Serve(0), Tick(9), Stamp(1, key), Tick(1), Stamp(2, key),
                           Serve(2), Serve(1)];
            After(events, 9).served == [Call(key, 1), Call(key, 11), Call(key, 10)]
  {
    var events := [Tick(1), Stamp(0, key), Serve(0), Tick(9), Stamp(1, key), Tick(1), Stamp(2, key),
                   Serve(2), Serve(1)];
    assert After(events, 1) == Door(1, map[], []);
    assert After(events, 3) == Door(1, map[], [Call(key, 1)]) by {
      assert After(events, 2) == Door(1, map[0 := Call(key, 1)], []);
    }
    assert After(events, 5) == Door(10, map[1 := Call(key, 10)], [Call(key, 1)]) by {
      assert After(events, 4) == Door(10, map[], [Call(key, 1)]);
    }
    assert After(events, 7) == Door(11, map[1 := Call(key, 10), 2 := Call(key, 11)], [Call(key, 1)]) by {
      assert After(events, 6) == Door(11, map[1 := Call(key, 10)], [Call(key, 1)]);
    }
    assert After(events, 8) == Door(11, map[1 := Call(key, 10)], [Call(key, 1), Call(key, 11)]);
  }

  predicate SlipsThrough(run: Run, k: nat)
    requires k < |run.calls|
  {
    run.AnswerAt(k) && !run.FullAnswer(k)
  }

  /** The last of them is let through against the rule: the one that overtook it filtered out a hit of its window. */
  lemma OvertakenCallSlipsThrough(key: Key)
    ensures var run := Run(2, 10, [Call(key, 1), Call(key, 11), Call(key, 10)]);
            SlipsThrough(run, 2)
  {
    var run := Run(2, 10, [Call(key, 1), Call(key, 11), Call(key, 10)]);
    LaterSnoc([], 1, 1);
    LaterSnoc([], 11, 0);
    assert [] + [1] == [1] && [] + [11] == [11];
    OneMore(run, 0);
    assert run.LimiterAt(1) == Limiter(map[key := [1]], Some(1));
    OneMore(run, 1);
    assert run.LimiterAt(2) == Limiter(map[key := [11]], Some(1));
    OneMore(run, 2);
    assert run.InWindow(2) == {0, 1};
  }

  lemma FirstOfAKey(l: Limiter, window: int, call: Call)
    requires call.key !in l.hits && l.swept.Some? && call.now - l.swept.value <= window
    ensures Answer(l, 2, window, call.key, call.now) == (Limiter(l.hits[call.key := [call.now]], l.swept), true)
  {
    assert [] + [call.now] == [call.now];
  }

  lemma SecondOfAKey(l: Limiter, window: int, call: Call, first: int)
    requires call.key in l.hits && l.hits[call.key] == [first] && first > call.now - window
    requires l.swept.Some? && call.now - l.swept.value <= window
    ensures Answer(l, 2, window, call.key, call.now) == (Limiter(l.hits[call.key := [first, call.now]], l.swept), true)
  {
    LaterSnoc([], first, call.now - window);
    assert [] + [first] == [first] && [first] + [call.now] == [first, call.now];
  }

  lemma SweptWithTheKey(a: Key, b: Key)
    requires a != b
    ensures Answer(Limiter(map[b := [10], a := [20, 15]], Some(10)), 2, 10, b, 28) ==
            (Limiter(map[b := [28]], Some(28)), true)
  {
    assert [] + [28] == [28];
  }

  /** A key stamped out of order, just before a sweep. */
  function Reordered(a: Key, b: Key): Run {
    Run(2, 10, [Call(b, 10), Call(a, 20), Call(a, 15), Call(b, 28), Call(a, 28), Call(a, 28)])
  }

  lemma BeforeTheSweep(run: Run, n: nat, a: Key, b: Key)
    requires a != b && run == Reordered(a, b) && n == 3
    ensures run.LimiterAt(n) == Limiter(map[b := [10], a := [20, 15]], Some(10)) && run.AnswerAt(n - 2)
  {
    FirstSweeps(b, 10);
    OneMore(run, n - 3);
    FirstOfAKey(run.LimiterAt(n - 2), 10, Call(a, 20));
    OneMore(run, n - 2);
    SecondOfAKey(run.LimiterAt(n - 1), 10, Call(a, 15), 20);
    OneMore(run, n - 1);
  }

  lemma AfterTheSweep(run: Run, n: nat, a: Key, b: Key)
    requires a != b && run == Reordered(a, b) && n == 3
    requires run.LimiterAt(n) == Limiter(map[b := [10], a := [20, 15]], Some(10))
    ensures run.AnswerAt(n + 1) && run.AnswerAt(n + 2)
  {
    SweptWithTheKey(a, b);
    OneMore(run, n);
    FirstOfAKey(run.LimiterAt(n + 1), 10, Call(a, 28));
    OneMore(run, n + 1);
    SecondOfAKey(run.LimiterAt(n + 2), 10, Call(a, 28), 28);
    OneMore(run, n + 2);
  }

  /**
   Not even the newest call is safe: a sweep judges a key by its last hit, which need
   not be its newest, and takes one still in the window with it.
   */
  lemma NewestCallSlipsThrough(run: Run, k: nat, a: Key, b: Key)
    requires a != b && run == Reordered(a, b) && k == |run.calls| - 1
    ensures Newest(run, k) && SlipsThrough(run, k)
  {
    LastIsNewestOf(run, k, a, b);
    BeforeTheSweep(run, k - 2, a, b);
    AfterTheSweep(run, k - 2, a, b);
    TwoInWindow(run, k - 4, k, a);
  }

  lemma LastIsNewestOf(run: Run, k: nat, a: Key, b: Key)
    requires run.calls == Reordered(a, b).calls && k == |run.calls| - 1
    ensures Newest(run, k)
  {
  }

  lemma FirstSweeps(b: Key, now: int)
    ensures Answer(NEW, 2, 10, b, now) == (Limiter(map[b := [now]], Some(now)), true)
  {
    assert [] + [now] == [now];
  }

  lemma TwoInWindow(run: Run, j: nat, k: nat, a: Key)
    requires j + 1 < k < |run.calls| && run.limit == 2 && run.window == 10
    requires run.AnswerAt(j) && run.AnswerAt(k - 1) && run.AnswerAt(k)
    requires run.calls[j] == Call(a, 20) && run.calls[k - 1] == run.calls[k] == Call(a, 28)
    ensures SlipsThrough(run, k)
  {
    assert {j, k - 1} <= run.InWindow(k);
    SubsetSize({j, k - 1}, run.InWindow(k));
  }

  // ---------------------------------------------------------- what is kept, and how long

  /** The sweep is later than a window after the last one, and takes the keys not hit within a window of it. */
  lemma SweepsExactly(l: Limiter, limit: int, window: int, key: Key, now: int, other: Key)
    requires other != key
    ensures var after := Answer(l, limit, window, key, now).0;
            var due := l.swept == None || l.swept.value + window < now;
            && after.swept == (if due then Some(now) else l.swept)
            && (other in after.hits <==>
                  && other in l.hits
                  && (due ==> l.hits[other] != [] && now - window <= l.hits[other][|l.hits[other]| - 1]))
            && (other in after.hits ==> after.hits[other] == l.hits[other])
  {
  }

  /** Every key remembered was hit within a window of the last sweep, which is within a window of now. */
  predicate Recent(l: Limiter, window: int, now: int) {
    && l.swept.Some? && l.swept.value <= now <= l.swept.value + window
    && forall key | key in l.hits :: l.hits[key] != [] && LastHit(l.hits[key]) >= l.swept.value - window
  }

  function LastHit(times: seq<int>): int
    requires times != []
  {
    times[|times| - 1]
  }

  lemma {:induction false} LaterAreLater(times: seq<int>, cutoff: int)
    ensures forall at | at in Later(times, cutoff) :: at > cutoff
  {
    if times != [] {
      LaterAreLater(times[..|times| - 1], cutoff);
    }
  }

  lemma RecentStep(l: Limiter, limit: int, window: int, call: Call, before: int)
    requires limit > 0 && window >= 0 && before <= call.now && (l == NEW || Recent(l, window, before))
    ensures Recent(Answer(l, limit, window, call.key, call.now).0, window, call.now)
  {
    var after := Answer(l, limit, window, call.key, call.now).0;
    var recent := Later(HitsOf(Swept(l, window, call.now).hits, call.key), call.now - window);
    LaterAreLater(HitsOf(Swept(l, window, call.now).hits, call.key), call.now - window);
    assert recent != [] ==> LastHit(recent) in recent;
    forall other | other in after.hits
      ensures after.hits[other] != [] && LastHit(after.hits[other]) >= after.swept.value - window
    {
      if other != call.key {
        SweepsExactly(l, limit, window, call.key, call.now, other);
      }
    }
  }

  lemma {:induction false} RecentAlways(run: Run, k: nat)
    requires run.InOrder() && run.limit > 0 && run.window >= 0 && 0 < k <= |run.calls|
    ensures Recent(run.LimiterAt(k), run.window, run.calls[k - 1].now)
  {
    var j := k - 1;
    OneMore(run, j);
    if j > 0 {
      RecentAlways(run, j);
      RecentStep(run.LimiterAt(j), run.limit, run.window, run.calls[j], run.calls[j - 1].now);
    } else {
      RecentStep(NEW, run.limit, run.window, run.calls[j], run.calls[j].now);
    }
  }

  /** Served in order, a key not hit for two windows is forgotten: what is remembered does not pile up. */
  lemma QuietKeysAreForgotten(run: Run, k: nat, key: Key)
    requires run.InOrder() && run.limit > 0 && run.window >= 0 && k < |run.calls|
    requires key in run.LimiterAt(k + 1).hits
    ensures var times := run.LimiterAt(k + 1).hits[key];
            times != [] && times[|times| - 1] >= run.calls[k].now - 2 * run.window
  {
    RecentAlways(run, k + 1);
  }

  // ------------------------------------------------------------ the code itself

  /**
   Keeps the later of the first `len` hits at the front of their own array, writing
   over cells already read, and answers how many there are.
   */
  method FilterInPlace(times: array<int>, cutoff: int) returns (kept: nat)
    modifies times
    ensures kept <= times.Length
    ensures times[..kept] == Later(old(times[..]), cutoff)
  {
    kept := 0;
    ghost var was := times[..];
    for k := 0 to times.Length
      invariant kept <= k
      invariant times[k..] == was[k..]
      invariant times[..kept] == Later(was[..k], cutoff)
    {
      assert was[..k + 1][..k] == was[..k];
      var at := times[k];
      assert at == times[k..][0] == was[k];
      ghost var before, rest := times[..kept], times[k + 1..];
      assert rest == times[k..][1..] == was[k + 1..];
      if at > cutoff {
        times[kept] := at;
        assert times[..kept + 1] == before + [at] && times[k + 1..] == rest;
        kept := kept + 1;
      }
    }
    assert was[..times.Length] == was;
  }

  class KeyedLimiter {
    const limit: int
    const window: int
    var hits: map<Key, seq<int>>
    var swept: Option<int>

    ghost function View(): Limiter
      reads this
    {
      Limiter(hits, swept)
    }

    constructor (limit: int, window: int)
      ensures View() == NEW && this.limit == limit && this.window == window
    {
      this.limit, this.window, hits, swept := limit, window, map[], None;
    }

    method SweepHits(now: int)
      modifies this
      ensures View() == Limiter(Sweep(old(hits), now - window), Some(now))
    {
      var cutoff := now - window;
      var todo := hits.Keys;
      while todo != {}
        invariant todo <= hits.Keys
        invariant Sweep(hits, cutoff) == Sweep(old(hits), cutoff)
        invariant forall k | k in hits && k !in todo :: !Quiet(hits[k], cutoff)
        decreases |todo|
      {
        var k :| k in todo;
        var times := hits[k];
        if |times| == 0 || times[|times| - 1] < cutoff {
          hits := hits - {k};
        }
        todo := todo - {k};
      }
      assert hits == Sweep(hits, cutoff);
      swept := Some(now);
    }

    method Allow(key: Key, now: int) returns (ok: bool)
      modifies this
      ensures (View(), ok) == Answer(old(View()), limit, window, key, now)
    {
      if swept.None? || now - swept.value > window {
        SweepHits(now);
      }
      var held := if key in hits then hits[key] else [];
      var times := new int[|held|](k requires 0 <= k < |held| => held[k]);
      assert times[..] == held;
      var kept := FilterInPlace(times, now - window);
      ok := kept < limit;
      hits := hits[key := if ok then times[..kept] + [now] else times[..kept]];
    }
  }
}
