/**
 The per-type token bucket of internal/sync/ratelimit.go.  Times are integer
 nanoseconds and tokens are reals: rounding is not the point.
 */
module TokenBucket {
  import opened Wrappers

  datatype Rule_ = Rule(burst: nat, every: int)
  type Rule = r: Rule_ | r.every > 0 witness Rule(0, 1)

  datatype Kind = Kind(name: string)
  datatype Rules = Rules(named: map<Kind, Rule>, fallback: Rule)

  const MAX_BUCKETS := 32

  datatype Level = Level(tokens: real, last: int, refused: bool)
  datatype Decision = Decision(ok: bool, first: bool)

  type Levels = map<Kind, Level>

  function RuleFor(rules: Rules, kind: Kind): Rule {
    if kind in rules.named then rules.named[kind] else rules.fallback
  }

  /** The tokens that `elapsed` earns. */
  function Earned(elapsed: int, every: int): real
    requires every > 0
  {
    elapsed as real / every as real
  }

  function Refilled(level: Level, rule: Rule, now: int): Level {
    if now > level.last then
      var full := level.tokens + Earned(now - level.last, rule.every);
      level.(tokens := if full < rule.burst as real then full else rule.burst as real, last := now)
    else level
  }

  function Spent(level: Level): (Level, Decision) {
    if level.tokens >= 1.0 then (level.(tokens := level.tokens - 1.0, refused := false), Decision(true, false))
    else (level.(refused := true), Decision(false, !level.refused))
  }

  /** One message, as the source judges it. */
  function Judge(rules: Rules, levels: Levels, kind: Kind, now: int): (Levels, Decision) {
    var rule := RuleFor(rules, kind);
    if kind !in levels && |levels| >= MAX_BUCKETS then (levels, Decision(false, false))
    else
      var level := if kind in levels then levels[kind] else Level(rule.burst as real, now, false);
      var (next, decision) := Spent(Refilled(level, rule, now));
      (levels[kind := next], decision)
  }

  // ---------------------------------------------------------------- whole runs

  datatype Message = Message(kind: Kind, now: int)

  /** A client's messages, and the rules they are held to. */
  datatype Run = Run(rules: Rules, messages: seq<Message>) {
    /** The buckets once the first `k` messages were judged. */
    function LevelsAt(k: nat): Levels
      requires k <= |messages|
    {
      if k == 0 then map[] else Judge(rules, LevelsAt(k - 1), messages[k - 1].kind, messages[k - 1].now).0
    }

    function DecisionAt(k: nat): Decision
      requires k < |messages|
    {
      Judge(rules, LevelsAt(k), messages[k].kind, messages[k].now).1
    }

    /** How many of the messages `i` to `j` are of `kind` and were let through. */
    function Allowed(i: nat, j: nat, kind: Kind): nat
      requires i <= j <= |messages|
    {
      if i == j then 0
      else Allowed(i, j - 1, kind) + if messages[j - 1].kind == kind && DecisionAt(j - 1).ok then 1 else 0
    }

    /** Every kind with a message let through. */
    function Served(): set<Kind> {
      set k | 0 <= k < |messages| && DecisionAt(k).ok :: messages[k].kind
    }

    predicate InOrder() {
      forall j, k | 0 <= j < k < |messages| :: messages[j].now <= messages[k].now
    }
  }

  /** Every level is within its rule, never overdrawn and never ahead of the clock. */
  predicate Sound(rules: Rules, levels: Levels, now: int) {
    && |levels| <= MAX_BUCKETS
    && forall kind | kind in levels ::
         0.0 <= levels[kind].tokens <= RuleFor(rules, kind).burst as real && levels[kind].last <= now
  }

  lemma EarnedAdds(a: int, b: int, every: int)
    requires every > 0
    ensures Earned(a + b, every) == Earned(a, every) + Earned(b, every)
    ensures a >= 0 ==> Earned(a, every) >= 0.0
    ensures Earned(0, every) == 0.0
  {
    var e := every as real;
    assert (a as real + b as real) / e == a as real / e + b as real / e;
  }

  lemma JudgeSound(rules: Rules, levels: Levels, last: int, message: Message)
    requires Sound(rules, levels, last) && last <= message.now
    ensures Sound(rules, Judge(rules, levels, message.kind, message.now).0, message.now)
  {
    var kind, rule := message.kind, RuleFor(rules, message.kind);
    if kind in levels {
      EarnedAdds(message.now - levels[kind].last, 0, rule.every);
      assert levels[kind := levels[kind]].Keys == levels.Keys;
      var next := Judge(rules, levels, kind, message.now).0;
      assert next.Keys == levels.Keys;
      SameSize(next, levels);
    }
  }

  /**
   From a start at `from`, what was allowed and what is left never exceed a full
   bucket and what the time since has earned.
   */
  ghost predicate Paid(rules: Rules, levels: Levels, from: int, allowed: nat, kind: Kind) {
    var rule := RuleFor(rules, kind);
    if kind !in levels || levels[kind].last < from then allowed == 0
    else allowed as real + levels[kind].tokens <= rule.burst as real + Earned(levels[kind].last - from, rule.every)
  }

  lemma JudgePaid(rules: Rules, levels: Levels, from: int, last: int, allowed: nat, kind: Kind, message: Message)
    requires Sound(rules, levels, last) && from <= last <= message.now
    requires Paid(rules, levels, from, allowed, kind)
    ensures var (next, decision) := Judge(rules, levels, message.kind, message.now);
            Paid(rules, next, from, allowed + (if decision.ok && message.kind == kind then 1 else 0), kind)
  {
    if message.kind == kind {
      var rule := RuleFor(rules, kind);
      if kind in levels {
        EarnedAdds(levels[kind].last - from, message.now - levels[kind].last, rule.every);
      }
      EarnedAdds(message.now - from, 0, rule.every);
    }
  }

  lemma {:induction false} SoundAt(run: Run, k: nat)
    requires run.InOrder() && k < |run.messages|
    ensures Sound(run.rules, run.LevelsAt(k), run.messages[k].now)
    ensures Sound(run.rules, run.LevelsAt(k + 1), run.messages[k].now)
  {
    if k > 0 {
      SoundAt(run, k - 1);
      SoundLater(run.rules, run.LevelsAt(k), run.messages[k - 1].now, run.messages[k].now);
    }
    JudgeSound(run.rules, run.LevelsAt(k), run.messages[k].now, run.messages[k]);
  }

  lemma SoundLater(rules: Rules, levels: Levels, early: int, late: int)
    requires early <= late && Sound(rules, levels, early)
    ensures Sound(rules, levels, late)
  {
  }

  lemma {:induction false} PaidAt(run: Run, i: nat, j: nat, kind: Kind)
    requires run.InOrder() && i < |run.messages| && i <= j <= |run.messages|
    ensures Paid(run.rules, run.LevelsAt(j), run.messages[i].now, run.Allowed(i, j, kind), kind)
  {
    var from := run.messages[i].now;
    if i == j {
      SoundAt(run, i);
      EarnedAdds(0, 0, RuleFor(run.rules, kind).every);
    } else {
      PaidAt(run, i, j - 1, kind);
      SoundAt(run, j - 1);
      JudgePaid(run.rules, run.LevelsAt(j - 1), from, run.messages[j - 1].now,
                run.Allowed(i, j - 1, kind), kind, run.messages[j - 1]);
    }
  }

  lemma PaidBounds(rules: Rules, levels: Levels, from: int, now: int, allowed: nat, kind: Kind)
    requires from <= now && Sound(rules, levels, now) && Paid(rules, levels, from, allowed, kind)
    ensures allowed as real <= RuleFor(rules, kind).burst as real + Earned(now - from, RuleFor(rules, kind).every)
  {
    var every := RuleFor(rules, kind).every;
    EarnedAdds(now - from, 0, every);
    if kind in levels && levels[kind].last >= from {
      EarnedAdds(levels[kind].last - from, now - levels[kind].last, every);
      EarnedAdds(now - levels[kind].last, 0, every);
    }
  }

  /**
   In any stretch of a run, the messages of one kind let through are at most a full
   burst and one more for each refill interval the stretch lasts.
   */
  lemma BoundedInAnyInterval(run: Run, i: nat, j: nat, kind: Kind)
    requires run.InOrder() && i < j <= |run.messages|
    ensures var rule := RuleFor(run.rules, kind);
            run.Allowed(i, j, kind) as real
            <= rule.burst as real + Earned(run.messages[j - 1].now - run.messages[i].now, rule.every)
  {
    PaidAt(run, i, j, kind);
    SoundAt(run, j - 1);
    PaidBounds(run.rules, run.LevelsAt(j), run.messages[i].now, run.messages[j - 1].now,
               run.Allowed(i, j, kind), kind);
  }

  /** Counted from here on, what was let through and what is left are all a full bucket and the time since make. */
  predicate FullAt(run: Run, i: nat, j: nat, kind: Kind, level: Level)
    requires i <= j <= |run.messages| && i < |run.messages|
  {
    var rule := RuleFor(run.rules, kind);
    && run.messages[i].now <= level.last
    && level.tokens + run.Allowed(i, j, kind) as real
       == rule.burst as real + Earned(level.last - run.messages[i].now, rule.every)
  }

  lemma JudgedLevel(rules: Rules, levels: Levels, kind: Kind, now: int)
    requires kind in levels || |levels| < MAX_BUCKETS
    ensures var rule := RuleFor(rules, kind);
            var level := if kind in levels then levels[kind] else Level(rule.burst as real, now, false);
            var (next, decision) := Judge(rules, levels, kind, now);
            && kind in next
            && decision.ok == (Refilled(level, rule, now).tokens >= 1.0)
            && next[kind].tokens == Refilled(level, rule, now).tokens - (if decision.ok then 1.0 else 0.0)
            && next[kind].last == Refilled(level, rule, now).last
  {
  }

  /** A refill takes the level on from where it was full, or fills it anew. */
  lemma RefilledFrom(run: Run, i: nat, j: nat, kind: Kind, level: Level) returns (n: nat)
    requires i <= j < |run.messages| && FullAt(run, i, j, kind, level) && level.last <= run.messages[j].now
    ensures n <= j && (n == i || n == j)
    ensures FullAt(run, n, j, kind, Refilled(level, RuleFor(run.rules, kind), run.messages[j].now))
    ensures Refilled(level, RuleFor(run.rules, kind), run.messages[j].now).last == run.messages[j].now
  {
    var rule, now := RuleFor(run.rules, kind), run.messages[j].now;
    EarnedAdds(level.last - run.messages[i].now, now - level.last, rule.every);
    EarnedAdds(0, 0, rule.every);
    n := if level.tokens + Earned(now - level.last, rule.every) < rule.burst as real || now <= level.last then i else j;
  }

  lemma AllowedOneMore(run: Run, i: nat, j: nat, kind: Kind)
    requires i <= j < |run.messages|
    ensures run.Allowed(i, j + 1, kind) ==
            run.Allowed(i, j, kind) + if run.messages[j].kind == kind && run.DecisionAt(j).ok then 1 else 0
  {
  }

  lemma OtherLevel(rules: Rules, levels: Levels, kind: Kind, now: int, other: Kind)
    requires other != kind
    ensures var next := Judge(rules, levels, kind, now).0;
            (other in next <==> other in levels) && (other in levels ==> next[other] == levels[other])
  {
  }

  /** A bucket was last full at some message of its kind, and has earned and spent by the rule since. */
  lemma {:induction false} LastFull(run: Run, j: nat, kind: Kind) returns (i: nat)
    requires run.InOrder() && j <= |run.messages| && kind in run.LevelsAt(j)
    ensures i < j && run.messages[i].kind == kind && FullAt(run, i, j, kind, run.LevelsAt(j)[kind])
    decreases j, 0
  {
    var m := run.messages[j - 1];
    if m.kind != kind {
      OtherLevel(run.rules, run.LevelsAt(j - 1), m.kind, m.now, kind);
      i := LastFull(run, j - 1, kind);
      AllowedOneMore(run, i, j - 1, kind);
    } else {
      i := FullBefore(run, j - 1);
      JudgedLevel(run.rules, run.LevelsAt(j - 1), kind, m.now);
      AllowedOneMore(run, i, j - 1, kind);
    }
  }

  /** The level a message finds, refilled; a kind's first message finds it full. */
  function LevelFor(run: Run, k: nat): Level
    requires k < |run.messages|
  {
    var kind, now := run.messages[k].kind, run.messages[k].now;
    var rule := RuleFor(run.rules, kind);
    var found := if kind in run.LevelsAt(k) then run.LevelsAt(k)[kind] else Level(rule.burst as real, now, false);
    Refilled(found, rule, now)
  }

  lemma {:induction false} FullBefore(run: Run, k: nat) returns (i: nat)
    requires run.InOrder() && k < |run.messages|
    requires run.messages[k].kind in run.LevelsAt(k) || |run.LevelsAt(k)| < MAX_BUCKETS
    ensures i <= k && run.messages[i].kind == run.messages[k].kind
    ensures FullAt(run, i, k, run.messages[k].kind, LevelFor(run, k)) && LevelFor(run, k).last == run.messages[k].now
    decreases k, 1
  {
    var kind := run.messages[k].kind;
    if kind in run.LevelsAt(k) {
      i := LastFull(run, k, kind);
      SoundAt(run, k);
      i := RefilledFrom(run, i, k, kind, run.LevelsAt(k)[kind]);
    } else {
      i := k;
      EarnedAdds(0, 0, RuleFor(run.rules, kind).every);
    }
  }

  /** With message `k`, what was let through since `i` stays within a full burst and what the time earned. */
  predicate Fits(run: Run, i: nat, k: nat)
    requires i <= k < |run.messages|
  {
    var kind, named := run.messages[k].kind, run.rules.named;
    var rule := if kind in named then named[kind] else run.rules.fallback;
    run.Allowed(i, k, kind) as real + 1.0
    <= rule.burst as real + (run.messages[k].now - run.messages[i].now) as real / rule.every as real
  }

  /** The kinds of the first `k` messages. */
  function Sent(run: Run, k: nat): set<Kind>
    requires k <= |run.messages|
  {
    if k == 0 then {} else Sent(run, k - 1) + {run.messages[k - 1].kind}
  }

  /** The first thirty-two of them. */
  function FirstKinds(run: Run, k: nat): set<Kind>
    requires k <= |run.messages|
  {
    if k == 0 then {} else
    if |Sent(run, k - 1)| < MAX_BUCKETS then FirstKinds(run, k - 1) + {run.messages[k - 1].kind}
    else FirstKinds(run, k - 1)
  }

  ghost predicate FirstOf(first: set<Kind>, sent: set<Kind>) {
    first <= sent && if |sent| <= MAX_BUCKETS then first == sent else |first| == MAX_BUCKETS
  }

  lemma FirstOfMore(first: set<Kind>, sent: set<Kind>, kind: Kind)
    requires FirstOf(first, sent)
    ensures FirstOf(if |sent| < MAX_BUCKETS then first + {kind} else first, sent + {kind})
    ensures |first| < MAX_BUCKETS <==> |sent| < MAX_BUCKETS
  {
    if kind in sent {
      assert sent + {kind} == sent;
    } else {
      assert |sent + {kind}| == |sent| + 1;
    }
  }

  lemma JudgeKeys(rules: Rules, levels: Levels, kind: Kind, now: int)
    ensures var next := Judge(rules, levels, kind, now).0;
            next.Keys == if |levels.Keys| < MAX_BUCKETS then levels.Keys + {kind} else levels.Keys
  {
    assert |levels| == |levels.Keys|;
  }

  lemma {:induction false} FirstKindsHaveBuckets(run: Run, k: nat)
    requires k <= |run.messages|
    ensures run.LevelsAt(k).Keys == FirstKinds(run, k) && FirstOf(FirstKinds(run, k), Sent(run, k))
  {
    if k > 0 {
      var m, was := run.messages[k - 1], run.LevelsAt(k - 1);
      FirstKindsHaveBuckets(run, k - 1);
      FirstOfMore(was.Keys, Sent(run, k - 1), m.kind);
      JudgeKeys(run.rules, was, m.kind, m.now);
    }
  }

  /** So a message finds a bucket, or room for one, exactly when its kind is among them. */
  lemma BucketExactly(run: Run, k: nat)
    requires k < |run.messages|
    ensures run.messages[k].kind in FirstKinds(run, k + 1)
            <==> run.messages[k].kind in run.LevelsAt(k) || |run.LevelsAt(k)| < MAX_BUCKETS
  {
    FirstKindsHaveBuckets(run, k);
    FirstOfMore(FirstKinds(run, k), Sent(run, k), run.messages[k].kind);
    assert |run.LevelsAt(k)| == |run.LevelsAt(k).Keys|;
  }

  lemma AllowedFits(run: Run, i: nat, k: nat)
    requires run.InOrder() && i <= k < |run.messages| && run.DecisionAt(k).ok
    ensures Fits(run, i, k)
  {
    AllowedOneMore(run, i, k, run.messages[k].kind);
    BoundedInAnyInterval(run, i, k + 1, run.messages[k].kind);
  }

  /** A refusal has a stretch to show for it: since the bucket was last full, all it earned was spent. */
  lemma RefusedDoesNotFit(run: Run, k: nat) returns (i: nat)
    requires run.InOrder() && k < |run.messages| && !run.DecisionAt(k).ok
    requires run.messages[k].kind in run.LevelsAt(k) || |run.LevelsAt(k)| < MAX_BUCKETS
    ensures i <= k && !Fits(run, i, k)
  {
    JudgedLevel(run.rules, run.LevelsAt(k), run.messages[k].kind, run.messages[k].now);
    i := FullBefore(run, k);
  }

  /**
   A message is let through if and only if its kind is among the first thirty-two the
   client sent and with it no stretch up to now exceeds a full burst and what it earns.
   */
  lemma AllowedExactly(run: Run, k: nat)
    requires run.InOrder() && k < |run.messages|
    ensures run.DecisionAt(k).ok <==>
            run.messages[k].kind in FirstKinds(run, k + 1) && forall i | 0 <= i <= k :: Fits(run, i, k)
  {
    BucketExactly(run, k);
    if run.DecisionAt(k).ok {
      forall i | 0 <= i <= k
        ensures Fits(run, i, k)
      {
        AllowedFits(run, i, k);
      }
    } else if run.messages[k].kind in FirstKinds(run, k + 1) {
      var i := RefusedDoesNotFit(run, k);
    }
  }

  lemma {:induction false} FewBuckets(run: Run, k: nat)
    requires k <= |run.messages|
    ensures |run.LevelsAt(k)| <= MAX_BUCKETS
  {
    if k > 0 {
      FewBuckets(run, k - 1);
      JudgeBuckets(run.rules, run.LevelsAt(k - 1), run.messages[k - 1].kind, run.messages[k - 1].now);
    }
  }

  /** A message adds at most its own bucket, while there is room, and must have one to be let through. */
  lemma JudgeBuckets(rules: Rules, levels: Levels, kind: Kind, now: int)
    requires |levels| <= MAX_BUCKETS
    ensures var (after, decision) := Judge(rules, levels, kind, now);
            |after| <= MAX_BUCKETS && levels.Keys <= after.Keys && (decision.ok ==> kind in after)
  {
    if kind in levels {
      assert Judge(rules, levels, kind, now).0.Keys == levels.Keys;
      SameSize(Judge(rules, levels, kind, now).0, levels);
    }
  }

  lemma {:induction false} ServedKeepsItsBucket(run: Run, m: nat, k: nat)
    requires m < k <= |run.messages| && run.DecisionAt(m).ok
    ensures run.messages[m].kind in run.LevelsAt(k)
  {
    FewBuckets(run, k - 1);
    JudgeBuckets(run.rules, run.LevelsAt(k - 1), run.messages[k - 1].kind, run.messages[k - 1].now);
    if m < k - 1 {
      ServedKeepsItsBucket(run, m, k - 1);
    }
  }

  /** However many kinds a client makes up, at most 32 are ever served. */
  lemma FewKindsServed(run: Run)
    ensures |run.Served()| <= MAX_BUCKETS
  {
    var n := |run.messages|;
    var levels := run.LevelsAt(n);
    FewBuckets(run, n);
    forall m: nat | m < n && run.DecisionAt(m).ok
      ensures run.messages[m].kind in levels
    {
      ServedKeepsItsBucket(run, m, n);
    }
    SubsetSize(run.Served(), levels.Keys);
    assert |levels.Keys| == |levels|;
  }

  /** Message `j` announced a refusal of `kind`, and nothing of it was let through before `k`. */
  ghost predicate AnnouncedAt(run: Run, kind: Kind, j: nat, k: nat)
    requires k <= |run.messages|
  {
    && j < k && run.messages[j].kind == kind && run.DecisionAt(j).first
    && forall m | j < m < k && run.messages[m].kind == kind :: !run.DecisionAt(m).ok
  }

  lemma RefusalKept(rules: Rules, levels: Levels, kind: Kind, m: Message)
    requires kind in levels && levels[kind].refused
    requires m.kind == kind ==> !Judge(rules, levels, m.kind, m.now).1.ok
    ensures var next := Judge(rules, levels, m.kind, m.now).0; kind in next && next[kind].refused
  {
  }

  /** After an announced refusal, until something is let through, the bucket knows it has refused. */
  lemma {:induction false} StaysRefused(run: Run, kind: Kind, j: nat, k: nat)
    requires k <= |run.messages| && AnnouncedAt(run, kind, j, k)
    ensures kind in run.LevelsAt(k) && run.LevelsAt(k)[kind].refused
  {
    if k > j + 1 {
      StaysRefused(run, kind, j, k - 1);
      RefusalKept(run.rules, run.LevelsAt(k - 1), kind, run.messages[k - 1]);
    }
  }

  /** A client is told of a flood once: between two first refusals something got through. */
  lemma FirstRefusalsAreApart(run: Run, j: nat, k: nat)
    requires j < k < |run.messages| && run.messages[j].kind == run.messages[k].kind
    requires run.DecisionAt(j).first && run.DecisionAt(k).first
    ensures exists m :: j < m < k && run.messages[m].kind == run.messages[j].kind && run.DecisionAt(m).ok
  {
    if AnnouncedAt(run, run.messages[j].kind, j, k) {
      StaysRefused(run, run.messages[j].kind, j, k);
    }
  }

  /** And a bucket that knows it has refused has said so since it last let something through. */
  lemma {:induction false} RefusalsWereAnnounced(run: Run, k: nat, kind: Kind) returns (j: nat)
    requires k <= |run.messages| && kind in run.LevelsAt(k) && run.LevelsAt(k)[kind].refused
    ensures AnnouncedAt(run, kind, j, k)
  {
    if kind == run.messages[k - 1].kind && run.DecisionAt(k - 1).first {
      j := k - 1;
    } else {
      j := RefusalsWereAnnounced(run, k - 1, kind);
    }
  }

  /** A refusal is announced if and only if its kind has a bucket and no announcement of it still stands. */
  lemma AnnouncedExactly(run: Run, k: nat)
    requires k < |run.messages|
    ensures run.DecisionAt(k).first <==>
            && run.messages[k].kind in FirstKinds(run, k + 1) && !run.DecisionAt(k).ok
            && !exists j: nat :: AnnouncedAt(run, run.messages[k].kind, j, k)
  {
    var kind := run.messages[k].kind;
    BucketExactly(run, k);
    if j: nat :| AnnouncedAt(run, kind, j, k) {
      StaysRefused(run, kind, j, k);
    }
    if kind in run.LevelsAt(k) && run.LevelsAt(k)[kind].refused {
      var j := RefusalsWereAnnounced(run, k, kind);
    }
  }

  // ------------------------------------------------------------ the code itself

  class Bucket {
    ghost const kind: Kind
    var tokens: real
    var last: int
    var refused: bool

    function Value(): Level
      reads this
    {
      Level(tokens, last, refused)
    }

    constructor (ghost kind: Kind, tokens: real, last: int)
      ensures Value() == Level(tokens, last, false) && this.kind == kind
    {
      this.kind := kind;
      this.tokens, this.last, this.refused := tokens, last, false;
    }

    method Spend(rule: Rule, now: int) returns (decision: Decision)
      modifies this
      ensures (Value(), decision) == Spent(Refilled(old(Value()), rule, now))
    {
      var elapsed := now - last;
      if elapsed > 0 {
        var full := tokens + elapsed as real / rule.every as real;
        tokens := if full < rule.burst as real then full else rule.burst as real;
        last := now;
      }
      if tokens >= 1.0 {
        tokens := tokens - 1.0;
        refused := false;
        return Decision(true, false);
      }
      var first := !refused;
      refused := true;
      return Decision(false, first);
    }
  }

  class RateLimiter {
    const rules: Rules
    var buckets: map<Kind, Bucket>
    ghost var levels: Levels
    ghost var repr: set<Bucket>

    /** One bucket object a kind, at the level the specification says. */
    ghost predicate Valid()
      reads this, repr
    {
      && levels.Keys == buckets.Keys
      && forall kind | kind in buckets ::
           buckets[kind] in repr && buckets[kind].kind == kind && buckets[kind].Value() == levels[kind]
    }

    constructor (rules: Rules)
      ensures Valid() && levels == map[] && repr == {} && this.rules == rules
    {
      this.rules, buckets, levels, repr := rules, map[], map[], {};
    }

    method Add(kind: Kind, rule: Rule, now: int)
      requires Valid() && kind !in buckets
      modifies this
      ensures Valid() && buckets.Keys == old(buckets.Keys) + {kind}
      ensures fresh(buckets[kind]) && repr == old(repr) + {buckets[kind]}
      ensures levels == old(levels)[kind := Level(rule.burst as real, now, false)]
    {
      var bucket := new Bucket(kind, rule.burst as real, now);
      buckets, levels, repr := buckets[kind := bucket], levels[kind := bucket.Value()], repr + {bucket};
    }

    method Draw(kind: Kind, rule: Rule, now: int) returns (decision: Decision)
      requires Valid() && kind in buckets
      modifies this`levels, buckets[kind]
      ensures Valid()
      ensures decision == Spent(Refilled(old(levels)[kind], rule, now)).1
      ensures levels == old(levels)[kind := Spent(Refilled(old(levels)[kind], rule, now)).0]
    {
      var bucket := buckets[kind];
      decision := bucket.Spend(rule, now);
      levels := levels[kind := bucket.Value()];
    }

    method Allow(kind: Kind, now: int) returns (decision: Decision)
      requires Valid()
      modifies this, repr
      ensures Valid() && fresh(repr - old(repr))
      ensures (levels, decision) == Judge(rules, old(levels), kind, now)
    {
      var rule := if kind in rules.named then rules.named[kind] else rules.fallback;
      SameSize(levels, buckets);
      if kind !in buckets {
        if |buckets| >= MAX_BUCKETS {
          return Decision(false, false);
        }
        Add(kind, rule, now);
        Overwritten(old(levels), kind, levels[kind], Spent(Refilled(levels[kind], rule, now)).0);
      }
      decision := Draw(kind, rule, now);
    }
  }

  lemma Overwritten<K, V>(m: map<K, V>, k: K, v: V, w: V)
    ensures m[k := v][k := w] == m[k := w]
  {
  }

  lemma SameSize<K, A, B>(a: map<K, A>, b: map<K, B>)
    requires a.Keys == b.Keys
    ensures |a| == |b|
  {
    assert |a| == |a.Keys| && |b| == |b.Keys|;
  }
}
