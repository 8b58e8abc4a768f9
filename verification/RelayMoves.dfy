/**
 What a move gets done (internal/moqrelay/moqrelay.go:84-125, 156-214): a rotation of a
 room that has a relay leaves it, a request comes back with one, and a sweep deletes
 what was left behind; each unless a call to the store or the relay service failed.
 */
module RelayMoves {
  import opened Wrappers
  import opened RelayRotation

  /** The call's own steps from here to its end, none of its calls failing and nothing else happening. */
  function Finished(s: State, id: nat): State {
    Step(Step(Step(Step(Step(s, Create(id, true)), SwapStep(id, true)), DropMade(id, true)), Reread(id, true)),
         DropLeft(id, true))
  }

  lemma AskStarts(s: State, id: nat, goal: Goal)
    requires id !in s.calls
    ensures var t := Step(s, Ask(id, goal));
            && t.stored == s.stored && t.created == s.created && t.deleted == s.deleted && id in t.calls
            && match (goal, s.stored.uid)
               case (ForRoom, Some(uid)) => t.calls[id] == Answered(uid, s.stored.epoch)
               case (ForRoom, None) => t.calls[id] == Making(ForRoom, None, s.stored.epoch)
               case (Rotate, Some(uid)) => t.calls[id] == Making(Rotate, Some(uid), s.stored.epoch)
               case (Rotate, None) => t.calls[id] == Refused
  {
  }

  lemma MakingFinishes(s: State, id: nat)
    requires id in s.calls && s.calls[id].Making? && s.calls[id].from == s.stored.uid
    requires s.calls[id].from.Some? <==> s.calls[id].goal == Rotate
    ensures var c, t, made := s.calls[id], Finished(s, id), |s.created|;
            && t.stored.uid == Some(made) && id in t.calls
            && (c.from == None ==>
                  t.calls[id] == Answered(made, s.stored.epoch) && t.stored.epoch == s.stored.epoch
                  && t.deleted == s.deleted)
            && (c.from.Some? ==>
                  t.calls[id] == Moved(c.from.value, c.epoch) && t.stored.epoch == s.stored.epoch + 1
                  && t.deleted == s.deleted + {c.from.value})
  {
    var made := Step(s, Create(id, true));
    assert made.calls[id] == Swapping(s.calls[id].goal, s.calls[id].from, s.calls[id].epoch, |s.created|);
    var swapped := Step(made, SwapStep(id, true));
    assert Step(Step(swapped, DropMade(id, true)), Reread(id, true)) == swapped;
  }

  /** A rotation by itself moves the room to a new relay, one epoch on, and deletes the one it left. */
  lemma RotationMoves(s: State, id: nat)
    requires id !in s.calls && s.stored.uid.Some? && s.stored.uid.value != |s.created|
    ensures var t := Finished(Step(s, Ask(id, Rotate)), id); var left := s.stored.uid.value;
            && t.stored == Stored(Some(|s.created|), s.stored.epoch + 1)
            && id in t.calls && t.calls[id] == Moved(left, s.stored.epoch)
            && t.deleted == s.deleted + {left} && |s.created| != left
  {
    AskStarts(s, id, Rotate);
    MakingFinishes(Step(s, Ask(id, Rotate)), id);
  }

  /** A request is answered with the room's relay, made for it if there was none. */
  lemma RequestIsAnswered(s: State, id: nat)
    requires id !in s.calls
    ensures var t := Finished(Step(s, Ask(id, ForRoom)), id);
            && t.stored == Stored(Some(if s.stored.uid.Some? then s.stored.uid.value else |s.created|), s.stored.epoch)
            && id in t.calls && t.calls[id] == Answered(t.stored.uid.value, t.stored.epoch)
            && t.deleted == s.deleted
  {
    var t := Step(s, Ask(id, ForRoom));
    AskStarts(s, id, ForRoom);
    if s.stored.uid.Some? {
      assert Finished(t, id) == t;
    } else {
      MakingFinishes(t, id);
    }
  }

  // ------------------------------------------------------- among others, at any point

  /** The call has read the relay it leaves, or that there is none, and is not yet answered. */
  predicate UnderWay(c: Call) {
    c.Making? || c.Swapping? || c.Losing? || c.Rereading? || c.Leaving?
  }

  /** The relay a call under way is to get the room off. */
  function LeavingFrom(c: Call): Option<nat>
    requires UnderWay(c)
  {
    if c.Leaving? then Some(c.left) else c.from
  }

  /** The call is done and has what it is for: the room off its old relay, or a relay to answer with. */
  predicate HasSucceeded(s: State, id: nat, from: Option<nat>) {
    && id in s.calls
    && if from.Some? then s.calls[id].Moved? && s.calls[id].left == from.value && s.stored.uid != from
       else s.calls[id].Answered? && s.stored.uid == Some(s.calls[id].uid)
  }

  predicate WillSucceed(s: State, id: nat) {
    && id in s.calls && UnderWay(s.calls[id]) && CallOk(s, s.calls[id]) && InstalledOk(s)
    && (s.calls[id].Losing? ==> s.calls[id].moved)
  }

  lemma SwapSettles(s: State, id: nat)
    requires WillSucceed(s, id) && s.calls[id].Swapping?
    ensures var t := Finished(s, id); HasSucceeded(t, id, LeavingFrom(s.calls[id]))
  {
    var c := s.calls[id];
    assert Step(s, Create(id, true)) == s;
    if s.stored.uid == c.from {
      var t := Step(s, SwapStep(id, true));
      assert c.from.Some? ==> c.from.value in s.installed;
      assert Step(Step(t, DropMade(id, true)), Reread(id, true)) == t;
    } else {
      var t := Step(s, SwapStep(id, true));
      assert t.calls[id] == Losing(c.goal, c.from, c.epoch, c.made, true) && t.stored == s.stored;
      LosingSettles(t, id);
      LateSteps(t, id);
    }
  }

  lemma LateSteps(s: State, id: nat)
    requires id in s.calls && !s.calls[id].Making? && !s.calls[id].Swapping?
    ensures Step(Step(s, Create(id, true)), SwapStep(id, true)) == s
  {
  }

  lemma LosingSettles(s: State, id: nat)
    requires id in s.calls && s.calls[id].Losing? && s.calls[id].moved && s.stored.uid.Some?
    requires s.stored.uid != s.calls[id].from && (s.calls[id].from.Some? <==> s.calls[id].goal == Rotate)
    ensures HasSucceeded(Finished(s, id), id, s.calls[id].from)
  {
    LateSteps(s, id);
    var dropped := Step(s, DropMade(id, true));
    assert dropped.calls[id] == Rereading(s.calls[id].goal, s.calls[id].from, s.calls[id].epoch);
  }

  lemma LateSettles(s: State, id: nat)
    requires WillSucceed(s, id) && !s.calls[id].Making? && !s.calls[id].Swapping?
    ensures HasSucceeded(Finished(s, id), id, LeavingFrom(s.calls[id]))
  {
    LateSteps(s, id);
    if s.calls[id].Losing? {
      LosingSettles(s, id);
    }
  }

  lemma CreatedSettles(s: State, id: nat)
    requires WillSucceed(s, id) && s.calls[id].Making? && |s.created| !in s.installed && |s.created| !in s.deleted
    ensures HasSucceeded(Finished(s, id), id, LeavingFrom(s.calls[id]))
  {
    var t := Step(s, Create(id, true));
    assert WillSucceed(t, id);
    SwapSettles(t, id);
    assert Step(t, Create(id, true)) == t;
  }

  /**
   Wherever a call is among the others, its own next steps end it with what it is for,
   if none of its calls fails from there on; a swap whose answer was lost has failed.
   */
  lemma EndsWell(events: seq<Event>, k: nat, id: nat)
    requires k <= |events| && forall j | 0 <= j < k :: Prompt(After(events, j))
    requires var s := After(events, k);
             id in s.calls && UnderWay(s.calls[id]) && (s.calls[id].Losing? ==> s.calls[id].moved)
    ensures var s := After(events, k); HasSucceeded(Finished(s, id), id, LeavingFrom(s.calls[id]))
  {
    var s := After(events, k);
    InvAlways(events, k);
    assert CallOk(s, s.calls[id]);
    if s.calls[id].Making? {
      CreatedIsNew(s);
      CreatedSettles(s, id);
    } else if s.calls[id].Swapping? {
      SwapSettles(s, id);
    } else {
      LateSettles(s, id);
    }
  }

  // -------------------------------------------------------------- and what fails

  /** Something this call asked for failed, or a rotation found no relay to leave. */
  predicate Fails(s: State, e: Event, id: nat) {
    || e == Create(id, false) || e == SwapStep(id, false) || e == Reread(id, false)
    || (e == Ask(id, Rotate) && s.stored.uid.None?)
  }

  predicate GivenUp(c: Call) {
    c.Refused? || (c.Losing? && !c.moved)
  }

  lemma GivesUpOnlySo(s: State, e: Event, id: nat)
    requires Inv(s) && id in Step(s, e).calls && GivenUp(Step(s, e).calls[id])
    ensures (id in s.calls && GivenUp(s.calls[id])) || Fails(s, e, id)
  {
    if id in s.calls {
      assert CallOk(s, s.calls[id]);
    }
  }

  /** No call comes back without its relay or its move unless something it asked for failed. */
  lemma {:induction false} RefusedOnlyOnAFailure(events: seq<Event>, k: nat, id: nat) returns (j: nat)
    requires k <= |events| && forall i | 0 <= i < k :: Prompt(After(events, i))
    requires id in After(events, k).calls && GivenUp(After(events, k).calls[id])
    ensures j < k && Fails(After(events, j), events[j], id)
  {
    j := k - 1;
    InvAlways(events, j);
    GivesUpOnlySo(After(events, j), events[j], id);
    if !Fails(After(events, j), events[j], id) {
      j := RefusedOnlyOnAFailure(events, j, id);
    }
  }

  // ------------------------------------------------------------------ the sweep

  /** A sweep by itself deletes a relay if and only if it is past the grace and not the room's. */
  lemma SweptExactly(s: State, id: nat, uid: nat)
    requires id !in s.sweeps && uid < |s.created| && uid !in s.deleted
    ensures var t := Step(Step(Step(s, List(id)), Judge(id, uid)), Delete(id, uid, true));
            && t.stored == s.stored && t.calls == s.calls
            && (uid in t.deleted <==> s.now - s.created[uid] >= 300_000 && s.stored.uid != Some(uid))
            && t.deleted - {uid} == s.deleted
  {
    var listed := Step(s, List(id));
    assert uid in listed.sweeps[id].listed && listed.sweeps[id].condemned == {};
  }
}
