/**
 Who gets a seat, keeps it and loses it (internal/sync/hub.go:627-698, 814-879): said of
 a room's seats before and after one event, by what the request showed and not by how
 the join went about it.
 */
module HubJoins {
  import opened Wrappers
  import opened HubSeats

  predicate ShowsCapability(seats: Seats, req: Request, id: Id) {
    req.member == Some(id) && id in seats && seats[id].client.capability == req.capability
  }

  predicate FromItsBrowser(seats: Seats, req: Request, id: Id) {
    id in seats && req.device.Some? && seats[id].client.device == req.device
  }

  /** Signed in as the seat's account; a TV's seat is nobody's. */
  predicate AsItsAccount(seats: Seats, req: Request, id: Id) {
    id in seats && req.signedIn == if id.tv then 0 else seats[id].client.signedIn
  }

  predicate Claims(seats: Seats, req: Request, id: Id) {
    ShowsCapability(seats, req, id) || (FromItsBrowser(seats, req, id) && AsItsAccount(seats, req, id))
  }

  predicate Numbered(r: Room) {
    forall id | id in r.seats :: id.n < r.next
  }

  // ------------------------------------------------------- who may take a seat over

  lemma NumberedStep(s: State, e: Event, room: RoomId)
    requires room in s.rooms ==> Numbered(s.rooms[room])
    ensures room in Step(s, e).rooms ==> Numbered(Step(s, e).rooms[room])
  {
  }

  lemma {:induction false} NumberedAlways(run: Run, k: nat, room: RoomId)
    requires k <= |run.events| && room in run.At(k).rooms
    ensures Numbered(run.At(k).rooms[room])
  {
    if k > 0 && room in run.At(k - 1).rooms {
      NumberedAlways(run, k - 1, room);
    }
    if k > 0 {
      NumberedStep(run.At(k - 1), run.events[k - 1], room);
    }
  }

  /** A join takes over at most a seat it claims; no other seat that stays is touched. */
  lemma JoinTakesOnlyItsOwn(r: Room, t: Tables, room: RoomId, req: Request, secret: Secret, max: nat, ok: bool, id: Id)
    requires Numbered(r) && Joined(r, t, room, req, secret, max, ok).Some?
    requires var after := Joined(r, t, room, req, secret, max, ok).value.0.seats;
             id in r.seats && id in after && after[id] != r.seats[id]
    ensures Claims(r.seats, req, id)
  {
    if req.device.Some? {
      OnDeviceFinds(r.seats, req.device.value, 0, r.next);
    }
  }

  /**
   A seat that is there before and after an event has another socket only if the event
   was a join that showed the seat's capability, or came from its own browser signed in
   as its account.
   */
  lemma NobodyElseTakesASeat(run: Run, k: nat, room: RoomId, id: Id)
    requires k < |run.events| && room in run.At(k).rooms && room in run.At(k + 1).rooms
    requires var before, after := run.At(k).rooms[room].seats, run.At(k + 1).rooms[room].seats;
             id in before && id in after && after[id].client.socket != before[id].client.socket
    ensures var e := run.events[k];
            e.Join? && e.room == room && Claims(run.At(k).rooms[room].seats, e.req, id)
  {
    NumberedAlways(run, k, room);
    var s, e := run.At(k), run.events[k];
    if e.Join? && e.room == room {
      JoinTakesOnlyItsOwn(s.rooms[room], s.tables, room, e.req, e.secret, e.max, e.ok, id);
    } else {
      SocketStays(s, e, room, id);
    }
  }

  lemma SocketStays(s: State, e: Event, room: RoomId, id: Id)
    requires room in s.rooms && room in Step(s, e).rooms && !(e.Join? && e.room == room)
    requires id in s.rooms[room].seats && id in Step(s, e).rooms[room].seats
    ensures Step(s, e).rooms[room].seats[id].client == s.rooms[room].seats[id].client
  {
  }

  // ---------------------------------------------------------- exactly what a join does

  /** The seat with the new socket in it, all else of it as it was; or nobody's, when the store did not answer. */
  function TakenOver(seats: Seats, id: Id, socket: nat, ok: bool): Seats
    requires id in seats
  {
    var was := seats[id].client;
    if ok then seats[id := Seat(Client(socket, was.capability, was.device, was.signedIn), Live)] else seats - {id}
  }

  /** Without the seat of the request's browser. */
  function Elsewhere(seats: Seats, req: Request): Seats {
    map id | id in seats && !FromItsBrowser(seats, req, id) :: seats[id]
  }

  lemma CapabilityTakesTheSeat(r: Room, t: Tables, room: RoomId, req: Request, secret: Secret, max: nat, ok: bool,
                               id: Id)
    requires ShowsCapability(r.seats, req, id)
    ensures var after := Joined(r, t, room, req, secret, max, ok);
            after.Some? && after.value.0.seats == TakenOver(r.seats, id, req.socket, ok)
  {
  }

  lemma TheOneOnIt(r: Room, t: Tables, room: RoomId, req: Request, id: Id)
    requires Agrees(r, t, room) && FromItsBrowser(r.seats, req, id)
    ensures OnDevice(r.seats, req.device.value, 0, r.next) == Some(id)
    ensures Elsewhere(r.seats, req) == r.seats - {id}
  {
    OnDeviceFinds(r.seats, req.device.value, 0, r.next);
  }

  lemma NoneOnIt(r: Room, req: Request)
    requires Numbered(r) && forall id :: !FromItsBrowser(r.seats, req, id)
    ensures Elsewhere(r.seats, req) == r.seats
    ensures req.device.Some? ==> OnDevice(r.seats, req.device.value, 0, r.next) == None
  {
    if req.device.Some? {
      OnDeviceFinds(r.seats, req.device.value, 0, r.next);
      var found := OnDevice(r.seats, req.device.value, 0, r.next);
      assert found.Some? ==> FromItsBrowser(r.seats, req, found.value);
    }
  }

  lemma BrowserTakesItsSeat(r: Room, t: Tables, room: RoomId, req: Request, secret: Secret, max: nat, ok: bool, id: Id)
    requires Agrees(r, t, room) && forall other :: !ShowsCapability(r.seats, req, other)
    requires FromItsBrowser(r.seats, req, id) && AsItsAccount(r.seats, req, id)
    ensures var after := Joined(r, t, room, req, secret, max, ok);
            after.Some? && after.value.0.seats == TakenOver(r.seats, id, req.socket, ok)
  {
    TheOneOnIt(r, t, room, req, id);
    if req.member.Some? {
      assert !ShowsCapability(r.seats, req, req.member.value);
    }
  }

  /** What a fresh member gets: a seat of their own, if the store answered and there is room for a person. */
  function Seated(r: Room, seats: Seats, req: Request, secret: Secret, max: nat, ok: bool): Seats {
    if ok && (req.tv || |People(seats)| < max)
    then seats[Id(r.next, req.tv) := Seat(Client(req.socket, secret, req.device, req.signedIn), Live)] else seats
  }

  lemma ClaimsNothing(r: Room, req: Request)
    requires forall id :: !Claims(r.seats, req, id)
    ensures !Resumes(r, req)
  {
    if req.member.Some? {
      assert !Claims(r.seats, req, req.member.value);
    }
  }

  lemma EnteredSeats(r: Room, t: Tables, room: RoomId, req: Request, secret: Secret, max: nat, ok: bool)
    ensures Entered(r, t, room, req, secret, max, ok).0.seats == Seated(r, r.seats, req, secret, max, ok)
  {
  }

  lemma OverAnothersSeat(r: Room, t: Tables, room: RoomId, req: Request, secret: Secret, max: nat, ok: bool, id: Id)
    requires Good(r, t, room) && !Resumes(r, req)
    requires FromItsBrowser(r.seats, req, id) && !AsItsAccount(r.seats, req, id)
    ensures var after := Joined(r, t, room, req, secret, max, ok);
            after.Some? && after.value.0.seats == Seated(r, Elsewhere(r.seats, req), req, secret, max, ok)
  {
    TheOneOnIt(r, t, room, req, id);
    LeftIsGood(r, t, room, id);
    var gone := Left(r, t, room, id).value;
    EnteredSeats(gone.0, gone.1, room, req, secret, max, ok);
  }

  lemma IntoAFreshSeat(r: Room, t: Tables, room: RoomId, req: Request, secret: Secret, max: nat, ok: bool)
    requires Numbered(r) && !Resumes(r, req) && forall id :: !FromItsBrowser(r.seats, req, id)
    ensures var after := Joined(r, t, room, req, secret, max, ok);
            after.Some? && after.value.0.seats == Seated(r, Elsewhere(r.seats, req), req, secret, max, ok)
  {
    NoneOnIt(r, req);
    EnteredSeats(r, t, room, req, secret, max, ok);
  }

  /**
   A join that claims no seat leaves every seat as it was, but for the one another
   account has from the same browser, and takes a new one only below the limit.
   */
  lemma StrangersJoinFresh(r: Room, t: Tables, room: RoomId, req: Request, secret: Secret, max: nat, ok: bool)
    requires Good(r, t, room) && forall id :: !Claims(r.seats, req, id)
    ensures var after := Joined(r, t, room, req, secret, max, ok);
            after.Some? && after.value.0.seats == Seated(r, Elsewhere(r.seats, req), req, secret, max, ok)
  {
    ClaimsNothing(r, req);
    if id :| FromItsBrowser(r.seats, req, id) {
      assert !Claims(r.seats, req, id);
      OverAnothersSeat(r, t, room, req, secret, max, ok, id);
    } else {
      IntoAFreshSeat(r, t, room, req, secret, max, ok);
    }
  }

  // ------------------------------------------------------------------ how seats end

  /**
   A seat is gone after an event in exactly these ways: its hold ran out, it was
   dismissed, the store failed whoever took it over, or another account joined from
   its browser.
   */
  lemma SeatsEndOnlySo(s: State, e: Event, room: RoomId, id: Id)
    requires room in s.rooms && room in Step(s, e).rooms && Numbered(s.rooms[room])
    requires id in s.rooms[room].seats && id !in Step(s, e).rooms[room].seats
    ensures var seats := s.rooms[room].seats;
            e.room == room
            && match e
               case Expire(_, gone, now) => gone == id && seats[id].place.Held? && seats[id].place.until <= now
               case Dismiss(_, gone) => gone == id
               case Join(_, req, _, _, ok) =>
                 if Claims(seats, req, id) then !ok else FromItsBrowser(seats, req, id)
               case _ => false
  {
    if e.Join? && e.req.device.Some? {
      OnDeviceFinds(s.rooms[room].seats, e.req.device.value, 0, s.rooms[room].next);
    }
  }

  /** A socket that drops leaves its own seat held; a hold that ran out or a dismissal ends the seat. */
  lemma DropsAndEnds(s: State, room: RoomId, id: Id, socket: nat, until: int, now: int)
    requires Inv(s) && room in s.rooms && id in s.rooms[room].seats
    ensures var seats, seat := s.rooms[room].seats, s.rooms[room].seats[id];
            && Step(s, Disconnect(room, id, socket, until)).rooms[room].seats ==
               (if seat.place.Live? && seat.client.socket == socket then seats[id := Seat(seat.client, Held(until))]
                else seats)
            && Step(s, Expire(room, id, now)).rooms[room].seats ==
               (if seat.place.Held? && seat.place.until <= now then seats - {id} else seats)
            && Step(s, Dismiss(room, id)).rooms[room].seats == seats - {id}
  {
    assert Agrees(RoomIn(s, room), s.tables, room);
    LeftIsGood(s.rooms[room], s.tables, room, id);
  }

  // ------------------------------------------------------------------ the controls

  /**
   The controls pass on only by a transfer, when their holder's seat goes, or to a
   person who joins with the owner's token or finds nobody in control.
   */
  lemma ControlsPassOnlySo(s: State, e: Event, room: RoomId)
    requires room in s.rooms && room in Step(s, e).rooms && Numbered(s.rooms[room])
    requires Step(s, e).rooms[room].controller != s.rooms[room].controller
    ensures var r, after := s.rooms[room], Step(s, e).rooms[room];
            && e.room == room
            && (|| (e.Transfer? && after.controller == Some(e.to) && e.to in r.seats && r.seats[e.to].place == Live)
                || (r.controller.Some? && r.controller.value in r.seats && r.controller.value !in after.seats)
                || (e.Join? && after.controller == Some(Id(r.next, false)) && Id(r.next, false) in after.seats
                    && (e.req.owns || r.controller.None? || r.controller.value !in r.seats)))
  {
    if e.Join? && e.room == room && e.req.device.Some? {
      OnDeviceFinds(s.rooms[room].seats, e.req.device.value, 0, s.rooms[room].next);
    }
  }

  /** Nobody is in control: no one holds the controls, or whoever did has no seat. */
  predicate Uncontrolled(r: Room) {
    r.controller.None? || r.controller.value !in r.seats
  }

  lemma EnteredControls(r: Room, t: Tables, room: RoomId, req: Request, secret: Secret, max: nat, ok: bool)
    requires Numbered(r)
    ensures var after := Entered(r, t, room, req, secret, max, ok).0;
            Id(r.next, false) in after.seats ==>
              (after.controller == Some(Id(r.next, false)) <==> req.owns || Uncontrolled(r))
  {
  }

  /** A dismissal leaves the room without anyone in control only if it had nobody there, or leaves no person in it. */
  lemma LeftControls(r: Room, t: Tables, room: RoomId, id: Id)
    requires Numbered(r) && id in r.seats && Left(r, t, room, id).Some?
    ensures var gone := Left(r, t, room, id).value.0;
            && gone.seats == r.seats - {id} && gone.next == r.next && Numbered(gone)
            && (Uncontrolled(gone) <==> Uncontrolled(r) || (r.controller == Some(id) && People(gone.seats) == {}))
  {
    HeirIsLongestSeated(r.seats - {id}, 0, r.next);
  }

  /**
   Who takes a new seat has the controls if and only if it brings the owner's token or
   finds nobody in control, as it also does when it takes the place of another account
   on its browser that was in control of nobody else.
   */
  lemma NewcomersTakeTheControls(s: State, e: Event, room: RoomId)
    requires room in s.rooms && room in Step(s, e).rooms && Numbered(s.rooms[room])
    requires e.Join? && e.room == room && Id(s.rooms[room].next, false) in Step(s, e).rooms[room].seats
    ensures var r, after := s.rooms[room], Step(s, e).rooms[room];
            after.controller == Some(Id(r.next, false)) <==>
            || e.req.owns || Uncontrolled(r)
            || (r.controller.value !in after.seats && People(after.seats) == {Id(r.next, false)})
  {
    var r, req := s.rooms[room], e.req;
    var previous := SeatOnDevice(r, req);
    if req.device.Some? {
      OnDeviceFinds(r.seats, req.device.value, 0, r.next);
    }
    if previous.Some? {
      var gone := Left(r, s.tables, room, previous.value).value;
      LeftControls(r, s.tables, room, previous.value);
      EnteredControls(gone.0, gone.1, room, req, e.secret, e.max, e.ok);
      assert People(Step(s, e).rooms[room].seats) == People(gone.0.seats) + {Id(r.next, false)};
    } else {
      EnteredControls(r, s.tables, room, req, e.secret, e.max, e.ok);
    }
  }

  /** When their holder goes they pass to whoever joined first of the people left, and to nobody only if none is. */
  lemma ControlsPassToTheFirst(s: State, room: RoomId, id: Id)
    requires Inv(s) && room in s.rooms && id in s.rooms[room].seats && s.rooms[room].controller == Some(id)
    ensures var after := Step(s, Dismiss(room, id)).rooms[room];
            && (after.controller.None? <==> People(after.seats) == {})
            && (after.controller.Some? ==>
                  && after.controller.value in People(after.seats)
                  && forall other | other in People(after.seats) :: after.controller.value.n <= other.n)
  {
    var r := s.rooms[room];
    assert Agrees(RoomIn(s, room), s.tables, room);
    LeftIsGood(r, s.tables, room, id);
    HeirIsLongestSeated(r.seats - {id}, 0, r.next);
  }
}
