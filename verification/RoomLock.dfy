/**
 The remux orchestrator's lock per room (internal/worker/remux.go:92-127): a mutex
 found or made under the orchestrator's own lock, counted, and dropped from the map
 by the last caller out. Finding it, locking it, unlocking it and dropping it are
 separate steps, and callers of every room interleave.
 */
module RoomLock {
  import opened Wrappers

  datatype RoomId = RoomId(text: string)

  // -------------------------------------------------------------- the code itself

  class RoomMutex {
    var refs: nat
    constructor ()
      ensures refs == 0
    {
      refs := 0;
    }
  }

  class RoomLocks {
    var byRoom: map<RoomId, RoomMutex>

    ghost predicate Valid()
      reads this, byRoom.Values
    {
      && (forall room | room in byRoom :: byRoom[room].refs > 0)
      && (forall a, b | a in byRoom && b in byRoom && a != b :: byRoom[a] != byRoom[b])
    }

    constructor ()
      ensures Valid() && byRoom == map[]
    {
      byRoom := map[];
    }

    /** The counted half of lockRoom; the mutex itself is locked after it. */
    method Enter(room: RoomId) returns (lock: RoomMutex)
      requires Valid()
      modifies this`byRoom, if room in byRoom then {byRoom[room]} else {}
      ensures Valid() && byRoom == old(byRoom)[room := lock]
      ensures if room in old(byRoom) then lock == old(byRoom)[room] && lock.refs == old(lock.refs) + 1
              else fresh(lock) && lock.refs == 1
    {
      if room in byRoom {
        lock := byRoom[room];
      } else {
        lock := new RoomMutex();
        byRoom := byRoom[room := lock];
      }
      lock.refs := lock.refs + 1;
    }

    /** The counted half of what lockRoom returns, run once the mutex is unlocked. */
    method Leave(room: RoomId, lock: RoomMutex)
      requires Valid() && room in byRoom && byRoom[room] == lock
      modifies this`byRoom, lock
      ensures Valid() && lock.refs == old(lock.refs) - 1
      ensures byRoom == if lock.refs == 0 then old(byRoom) - {room} else old(byRoom)
    {
      lock.refs := lock.refs - 1;
      if lock.refs == 0 {
        byRoom := byRoom - {room};
      }
    }
  }

  // ----------------------------------------------------------------- the machine

  datatype Pc = Waiting | Holding | Unlocked

  /** Someone inside lockRoom, or not yet done with what it returned. */
  datatype Caller = Caller(room: RoomId, lock: nat, pc: Pc)

  datatype Mutex = Mutex(room: RoomId, refs: int, holder: Option<nat>)

  /** Mutexes are numbered as they are made, and outlive their entry in the map. */
  datatype State = State(byRoom: map<RoomId, nat>, locks: seq<Mutex>, callers: map<nat, Caller>)

  const START := State(map[], [], map[])

  datatype Event = Enter(id: nat, room: RoomId) | Lock(id: nat) | Unlock(id: nat) | Leave(id: nat)

  predicate At(s: State, id: nat, pc: Pc) {
    id in s.callers && s.callers[id].pc == pc && s.callers[id].lock < |s.locks|
  }

  function Counted(locks: seq<Mutex>, lock: nat, change: int): seq<Mutex>
    requires lock < |locks|
  {
    locks[lock := locks[lock].(refs := locks[lock].refs + change)]
  }

  function Entered(s: State, id: nat, room: RoomId): State {
    if room in s.byRoom && s.byRoom[room] < |s.locks| then
      s.(locks := Counted(s.locks, s.byRoom[room], 1),
         callers := s.callers[id := Caller(room, s.byRoom[room], Waiting)])
    else
      State(s.byRoom[room := |s.locks|], s.locks + [Mutex(room, 1, None)],
            s.callers[id := Caller(room, |s.locks|, Waiting)])
  }

  function Left(s: State, id: nat): State
    requires At(s, id, Unlocked)
  {
    var c := s.callers[id];
    var locks := Counted(s.locks, c.lock, -1);
    State(if locks[c.lock].refs == 0 then s.byRoom - {c.room} else s.byRoom, locks, s.callers - {id})
  }

  function Step(s: State, e: Event): State {
    match e
    case Enter(id, room) => if id in s.callers then s else Entered(s, id, room)
    case Lock(id) =>
      if !At(s, id, Waiting) || s.locks[s.callers[id].lock].holder.Some? then s
      else
        var lock := s.callers[id].lock;
        s.(locks := s.locks[lock := s.locks[lock].(holder := Some(id))],
           callers := s.callers[id := s.callers[id].(pc := Holding)])
    case Unlock(id) =>
      if !At(s, id, Holding) then s
      else
        var lock := s.callers[id].lock;
        s.(locks := s.locks[lock := s.locks[lock].(holder := None)],
           callers := s.callers[id := s.callers[id].(pc := Unlocked)])
    case Leave(id) => if !At(s, id, Unlocked) then s else Left(s, id)
  }

  function After(events: seq<Event>, k: nat): State
    requires k <= |events|
  {
    if k == 0 then START else Step(After(events, k - 1), events[k - 1])
  }

  // ---------------------------------------------------------------- what always holds

  function Users(callers: map<nat, Caller>, lock: nat): set<nat> {
    set id | id in callers && callers[id].lock == lock
  }

  /** The mutex a caller uses is the one in the map for its room; it is locked by those who hold it. */
  predicate CallerOk(s: State, id: nat)
    requires id in s.callers
  {
    var c := s.callers[id];
    && c.room in s.byRoom && s.byRoom[c.room] == c.lock && c.lock < |s.locks|
    && (c.pc == Holding <==> s.locks[c.lock].holder == Some(id))
  }

  predicate EntryOk(s: State, room: RoomId)
    requires room in s.byRoom
  {
    var lock := s.byRoom[room];
    && lock < |s.locks| && s.locks[lock].room == room
    && s.locks[lock].refs == |Users(s.callers, lock)| && s.locks[lock].refs > 0
    && (s.locks[lock].holder.Some? ==> s.locks[lock].holder.value in Users(s.callers, lock))
  }

  predicate Inv(s: State) {
    && (forall id | id in s.callers :: CallerOk(s, id))
    && (forall room | room in s.byRoom :: EntryOk(s, room))
  }

  lemma UsersOfOneMore(callers: map<nat, Caller>, id: nat, c: Caller, lock: nat)
    requires id !in callers
    ensures |Users(callers[id := c], lock)| == |Users(callers, lock)| + (if c.lock == lock then 1 else 0)
  {
    assert Users(callers[id := c], lock) == Users(callers, lock) + if c.lock == lock then {id} else {};
  }

  lemma UsersOfOneLess(callers: map<nat, Caller>, id: nat, lock: nat)
    requires id in callers
    ensures |Users(callers, lock)| == |Users(callers - {id}, lock)| + (if callers[id].lock == lock then 1 else 0)
  {
    assert Users(callers, lock) == Users(callers - {id}, lock) + if callers[id].lock == lock then {id} else {};
  }

  lemma UsersAtAnyPc(callers: map<nat, Caller>, id: nat, pc: Pc, lock: nat)
    requires id in callers
    ensures Users(callers[id := callers[id].(pc := pc)], lock) == Users(callers, lock)
  {
  }

  lemma EnterCallers(s: State, id: nat, room: RoomId, other: nat)
    requires Inv(s) && id !in s.callers && other in Entered(s, id, room).callers
    ensures CallerOk(Entered(s, id, room), other)
  {
    if other != id {
      assert CallerOk(s, other);
    }
    if room in s.byRoom {
      assert EntryOk(s, room);
    }
  }

  lemma EnterEntries(s: State, id: nat, room: RoomId, r: RoomId)
    requires Inv(s) && id !in s.callers && r in Entered(s, id, room).byRoom
    ensures EntryOk(Entered(s, id, room), r)
  {
    var t := Entered(s, id, room);
    UsersOfOneMore(s.callers, id, t.callers[id], t.byRoom[r]);
    if r in s.byRoom {
      assert EntryOk(s, r);
      if room in s.byRoom {
        assert EntryOk(s, room);
      }
    } else {
      NobodyUsesTheNext(s);
    }
  }

  lemma NobodyUsesTheNext(s: State)
    requires Inv(s)
    ensures Users(s.callers, |s.locks|) == {}
  {
    forall id | id in s.callers
      ensures s.callers[id].lock != |s.locks|
    {
      assert CallerOk(s, id);
    }
  }

  lemma LockKeeps(s: State, id: nat)
    requires Inv(s)
    ensures Inv(Step(s, Lock(id)))
  {
    var t := Step(s, Lock(id));
    if t != s {
      forall other | other in t.callers
        ensures CallerOk(t, other)
      {
        assert CallerOk(s, other);
      }
      forall r | r in t.byRoom
        ensures EntryOk(t, r)
      {
        UsersAtAnyPc(s.callers, id, Holding, t.byRoom[r]);
        assert EntryOk(s, r);
      }
    }
  }

  lemma UnlockKeeps(s: State, id: nat)
    requires Inv(s)
    ensures Inv(Step(s, Unlock(id)))
  {
    var t := Step(s, Unlock(id));
    if t != s {
      forall other | other in t.callers
        ensures CallerOk(t, other)
      {
        assert CallerOk(s, other) && CallerOk(s, id);
      }
      forall r | r in t.byRoom
        ensures EntryOk(t, r)
      {
        UsersAtAnyPc(s.callers, id, Unlocked, t.byRoom[r]);
        assert EntryOk(s, r);
      }
    }
  }

  lemma LeaveCallers(s: State, id: nat, other: nat)
    requires Inv(s) && At(s, id, Unlocked) && other in Left(s, id).callers
    ensures CallerOk(Left(s, id), other)
  {
    var t, c := Left(s, id), s.callers[id];
    assert CallerOk(s, id) && EntryOk(s, c.room) && CallerOk(s, other);
    UsersOfOneLess(s.callers, id, c.lock);
    if t.callers[other].lock == c.lock {
      assert other in Users(t.callers, c.lock);
    }
  }

  lemma LeaveEntries(s: State, id: nat, r: RoomId)
    requires Inv(s) && At(s, id, Unlocked) && r in Left(s, id).byRoom
    ensures EntryOk(Left(s, id), r)
  {
    var lock := s.byRoom[r];
    assert CallerOk(s, id) && EntryOk(s, s.callers[id].room) && EntryOk(s, r);
    UsersOfOneLess(s.callers, id, lock);
    UsersAfter(s.callers, id, lock);
  }

  lemma UsersAfter(callers: map<nat, Caller>, id: nat, lock: nat)
    ensures Users(callers - {id}, lock) == Users(callers, lock) - {id}
  {
  }

  lemma InvStep(s: State, e: Event)
    requires Inv(s)
    ensures Inv(Step(s, e))
  {
    match e
    case Enter(id, room) =>
      if id !in s.callers {
        forall other | other in Entered(s, id, room).callers { EnterCallers(s, id, room, other); }
        forall r | r in Entered(s, id, room).byRoom { EnterEntries(s, id, room, r); }
      }
    case Lock(id) => LockKeeps(s, id);
    case Unlock(id) => UnlockKeeps(s, id);
    case Leave(id) =>
      if At(s, id, Unlocked) {
        forall other | other in Left(s, id).callers { LeaveCallers(s, id, other); }
        forall r | r in Left(s, id).byRoom { LeaveEntries(s, id, r); }
      }
  }

  lemma {:induction false} InvAlways(events: seq<Event>, k: nat)
    requires k <= |events|
    ensures Inv(After(events, k))
  {
    if k > 0 {
      InvAlways(events, k - 1);
      InvStep(After(events, k - 1), events[k - 1]);
    }
  }

  /** Everyone inside a room's lock, in any phase, has the one mutex the map gives out for it. */
  lemma OneMutexPerRoom(events: seq<Event>, k: nat, a: nat, b: nat)
    requires k <= |events|
    requires var s := After(events, k); a in s.callers && b in s.callers
    ensures var s := After(events, k);
            s.callers[a].room == s.callers[b].room <==> s.callers[a].lock == s.callers[b].lock
  {
    InvAlways(events, k);
    var s := After(events, k);
    assert CallerOk(s, a) && CallerOk(s, b) && EntryOk(s, s.callers[a].room) && EntryOk(s, s.callers[b].room);
  }

  lemma MutualExclusion(events: seq<Event>, k: nat, a: nat, b: nat)
    requires k <= |events|
    requires var s := After(events, k); At(s, a, Holding) && At(s, b, Holding) && s.callers[a].room == s.callers[b].room
    ensures a == b
  {
    InvAlways(events, k);
    var s := After(events, k);
    assert CallerOk(s, a) && CallerOk(s, b);
  }

  /** A room has an entry exactly while someone is inside, and its count is how many are. */
  lemma EntryWhileUsed(events: seq<Event>, k: nat, room: RoomId)
    requires k <= |events|
    ensures var s := After(events, k);
            && (room in s.byRoom <==> exists id :: id in s.callers && s.callers[id].room == room)
            && (room in s.byRoom ==>
                  s.byRoom[room] < |s.locks|
                  && s.locks[s.byRoom[room]].refs == |set id | id in s.callers && s.callers[id].room == room|)
  {
    InvAlways(events, k);
    var s := After(events, k);
    forall id | id in s.callers
      ensures s.callers[id].room in s.byRoom
    {
      assert CallerOk(s, id);
    }
    if room in s.byRoom {
      UsersAreInside(s, room);
      SomebodyInside(s, room);
    }
  }

  lemma UsersAreInside(s: State, room: RoomId)
    requires Inv(s) && room in s.byRoom
    ensures Users(s.callers, s.byRoom[room]) == set id | id in s.callers && s.callers[id].room == room
  {
    forall id | id in s.callers
      ensures s.callers[id].lock == s.byRoom[room] <==> s.callers[id].room == room
    {
      assert CallerOk(s, id) && EntryOk(s, room) && EntryOk(s, s.callers[id].room);
    }
  }

  /** A waiting caller either can lock now or waits for one that holds the same room. */
  lemma WaitsOnlyForAHolder(events: seq<Event>, k: nat, id: nat)
    requires k <= |events| && At(After(events, k), id, Waiting)
    ensures var s := After(events, k);
            || At(Step(s, Lock(id)), id, Holding)
            || exists other :: At(s, other, Holding) && s.callers[other].room == s.callers[id].room
  {
    InvAlways(events, k);
    var s := After(events, k);
    var lock := s.callers[id].lock;
    assert CallerOk(s, id) && EntryOk(s, s.callers[id].room);
    if s.locks[lock].holder.Some? {
      var other := s.locks[lock].holder.value;
      assert CallerOk(s, other) && EntryOk(s, s.callers[other].room);
      assert At(s, other, Holding);
    }
  }

  /** A waiting caller is kept out while the lock is held, and can have it as soon as that is unlocked. */
  lemma UnlockingPassesItOn(events: seq<Event>, k: nat, a: nat, b: nat)
    requires k <= |events|
    requires var s := After(events, k);
             At(s, a, Holding) && At(s, b, Waiting) && s.callers[a].room == s.callers[b].room
    ensures var s := After(events, k);
            var t := Step(Step(s, Unlock(a)), Lock(b));
            && Step(s, Lock(b)) == s
            && At(t, a, Unlocked) && At(t, b, Holding)
  {
    InvAlways(events, k);
    var s := After(events, k);
    assert CallerOk(s, a) && CallerOk(s, b);
  }

  /** A caller by itself gets in, holds its room's lock and gets out again; nobody else notices. */
  lemma InAndOut(events: seq<Event>, k: nat, id: nat, room: RoomId)
    requires k <= |events|
    requires var s := After(events, k);
             id !in s.callers && forall other | other in s.callers :: s.callers[other].room != room
    ensures var s := After(events, k);
            var entered := Step(s, Enter(id, room));
            var locked := Step(entered, Lock(id));
            var left := Step(Step(locked, Unlock(id)), Leave(id));
            && At(locked, id, Holding) && locked.callers[id].room == room && room in locked.byRoom
            && left.callers == s.callers && left.byRoom == s.byRoom
  {
    InvAlways(events, k);
    var s := After(events, k);
    if room in s.byRoom {
      SomebodyInside(s, room);
    }
    FirstIn(s, id, room);
    LastOut(s, id, room, |s.locks|, s.locks + [Mutex(room, 1, Some(id))]);
  }

  lemma FirstIn(s: State, id: nat, room: RoomId)
    requires room !in s.byRoom && id !in s.callers
    ensures Step(Step(s, Enter(id, room)), Lock(id)) ==
            State(s.byRoom[room := |s.locks|], s.locks + [Mutex(room, 1, Some(id))],
                  s.callers[id := Caller(room, |s.locks|, Holding)])
  {
    var entered := Step(s, Enter(id, room));
    assert entered.locks[|s.locks|] == Mutex(room, 1, None);
  }

  lemma LastOut(s: State, id: nat, room: RoomId, lock: nat, locks: seq<Mutex>)
    requires room !in s.byRoom && id !in s.callers && lock < |locks| && locks[lock] == Mutex(room, 1, Some(id))
    ensures var locked := State(s.byRoom[room := lock], locks, s.callers[id := Caller(room, lock, Holding)]);
            var left := Step(Step(locked, Unlock(id)), Leave(id));
            left.callers == s.callers && left.byRoom == s.byRoom
  {
    var locked := State(s.byRoom[room := lock], locks, s.callers[id := Caller(room, lock, Holding)]);
    var unlocked := Step(locked, Unlock(id));
    assert unlocked.locks[lock] == Mutex(room, 1, None);
    assert unlocked.callers == s.callers[id := Caller(room, lock, Unlocked)];
  }

  lemma SomebodyInside(s: State, room: RoomId)
    requires Inv(s) && room in s.byRoom
    ensures exists id :: id in s.callers && s.callers[id].room == room
  {
    UsersAreInside(s, room);
    assert EntryOk(s, room);
    assert Users(s.callers, s.byRoom[room]) != {};
    var id :| id in Users(s.callers, s.byRoom[room]);
    assert id in s.callers && s.callers[id].room == room;
  }
}
