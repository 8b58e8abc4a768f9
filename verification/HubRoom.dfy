/**
 The hub and a room of it as the code keeps them, field by field
 (internal/sync/hub.go:511-525, 627-731, 814-1045; hub_account.go:86-119): the room's
 loop runs these methods one at a time. What they leave behind is said by HubSeats.
 */
module HubRoom {
  import opened Wrappers
  import opened HubSeats

  class Hub {
    var capabilities: map<RoomId, map<Id, Secret>>
    var devices: map<RoomId, map<Device, Id>>
    var presence: map<Account, map<RoomId, nat>>

    function View(): Tables
      reads this
    {
      Tables(capabilities, devices, presence)
    }

    constructor ()
      ensures View() == EMPTY
    {
      capabilities, devices, presence := map[], map[], map[];
    }

    method MarkPresent(account: Account, room: RoomId)
      modifies this`presence
      ensures presence == Arrived(old(presence), account, room)
    {
      if account == 0 {
        return;
      }
      var rooms := if account in presence then presence[account] else map[];
      var n := if room in rooms then rooms[room] else 0;
      presence := presence[account := rooms[room := n + 1]];
    }

    /** The entry it takes one from must be there: HubSeats shows it always is. */
    method MarkGone(account: Account, room: RoomId)
      requires Departed(presence, account, room).Some?
      modifies this`presence
      ensures Departed(old(presence), account, room) == Some(presence)
    {
      if account == 0 {
        return;
      }
      var rooms := presence[account];
      var n := if room in rooms then rooms[room] else 0;
      rooms := if n <= 1 then rooms - {room} else rooms[room := n - 1];
      presence := if |rooms| == 0 then presence - {account} else presence[account := rooms];
    }

    method Remember(room: RoomId, id: Id, secret: Secret)
      modifies this`capabilities
      ensures capabilities == Remembered(old(capabilities), room, id, secret)
    {
      var held := if room in capabilities then capabilities[room] else map[];
      capabilities := capabilities[room := held[id := secret]];
    }

    method MarkDevice(room: RoomId, device: Option<Device>, id: Id)
      modifies this`devices
      ensures devices == Marked(old(devices), room, device, id)
    {
      if device.Some? {
        var held := if room in devices then devices[room] else map[];
        devices := devices[room := held[device.value := id]];
      }
    }

    method Forget(room: RoomId, id: Id, device: Option<Device>)
      modifies this`capabilities, this`devices
      ensures capabilities == Forgotten(old(capabilities), room, id)
      ensures devices == Unmarked(old(devices), room, device, id)
    {
      if room in capabilities {
        capabilities := capabilities[room := capabilities[room] - {id}];
      }
      if device.Some? && room in devices && device.value in devices[room] && devices[room][device.value] == id {
        devices := devices[room := devices[room] - {device.value}];
      }
    }

    method RemoveRoom(room: RoomId)
      modifies this
      ensures View() == Closed(old(View()), room)
    {
      capabilities, devices := capabilities - {room}, devices - {room};
      presence := PresenceWithout(presence, room);
    }
  }

  /** Presence without a room, but for the accounts not looked at yet. */
  function WithoutBut(presence: map<Account, map<RoomId, nat>>, room: RoomId, todo: set<Account>)
    : map<Account, map<RoomId, nat>>
  {
    map a | a in presence && (a in todo || presence[a] - {room} != map[]) ::
      if a in todo then presence[a] else presence[a] - {room}
  }

  lemma WithoutNext(presence: map<Account, map<RoomId, nat>>, room: RoomId, todo: set<Account>, a: Account)
    requires a in todo && a in presence
    ensures var before, rooms := WithoutBut(presence, room, todo), presence[a] - {room};
            && a in before && before[a] == presence[a]
            && WithoutBut(presence, room, todo - {a}) == if rooms == map[] then before - {a} else before[a := rooms]
  {
  }

  method PresenceWithout(presence: map<Account, map<RoomId, nat>>, room: RoomId)
    returns (out: map<Account, map<RoomId, nat>>)
    ensures out == map a | a in presence && presence[a] - {room} != map[] :: presence[a] - {room}
  {
    out := presence;
    var todo := presence.Keys;
    while todo != {}
      invariant todo <= presence.Keys && out == WithoutBut(presence, room, todo)
      decreases |todo|
    {
      var a :| a in todo;
      WithoutNext(presence, room, todo, a);
      var rooms := out[a] - {room};
      out := if |rooms| == 0 then out - {a} else out[a := rooms];
      todo := todo - {a};
    }
  }

  datatype Detached = Detached(client: Client, until: int)

  /** The two maps of a room hold its seats between them, each in one. */
  ghost predicate Mirrors(seats: Seats, clients: map<Id, Client>, detached: map<Id, Detached>) {
    && clients.Keys !! detached.Keys && seats.Keys == clients.Keys + detached.Keys
    && (forall id | id in clients :: seats[id] == Seat(clients[id], Live))
    && (forall id | id in detached :: seats[id] == Seat(detached[id].client, Held(detached[id].until)))
  }

  lemma MirrorsGone(seats: Seats, clients: map<Id, Client>, detached: map<Id, Detached>, id: Id)
    requires Mirrors(seats, clients, detached)
    ensures Mirrors(seats - {id}, clients - {id}, detached - {id})
  {
  }

  lemma MirrorsLive(seats: Seats, clients: map<Id, Client>, detached: map<Id, Detached>, id: Id, client: Client)
    requires Mirrors(seats, clients, detached) && id !in detached
    ensures Mirrors(seats[id := Seat(client, Live)], clients[id := client], detached)
  {
  }

  lemma MirrorsHeld(seats: Seats, clients: map<Id, Client>, detached: map<Id, Detached>, id: Id, seat: Detached)
    requires Mirrors(seats, clients, detached) && id !in clients
    ensures Mirrors(seats[id := Seat(seat.client, Held(seat.until))], clients, detached[id := seat])
  {
  }

  lemma SetAfterDelete(seats: Seats, id: Id, seat: Seat)
    ensures (seats - {id})[id := seat] == seats[id := seat]
  {
  }

  /** Of the seats there were, those left are the ones not lapsed, or not looked at yet. */
  ghost predicate Lapsed(was: Seats, seats: Seats, todo: set<Id>, now: int) {
    seats == map seat | seat in was && (seat in todo || !Expired(was[seat], now)) :: was[seat]
  }

  lemma NothingLapsed(seats: Seats, clients: map<Id, Client>, detached: map<Id, Detached>, now: int)
    requires Mirrors(seats, clients, detached)
    ensures detached.Keys <= seats.Keys && Lapsed(seats, seats, detached.Keys, now)
  {
  }

  lemma LapsesNext(was: Seats, seats: Seats, todo: set<Id>, now: int, member: Id)
    requires Lapsed(was, seats, todo, now) && member in todo && member in seats
    ensures Lapsed(was, if Expired(seats[member], now) then seats - {member} else seats, todo - {member}, now)
  {
  }

  class RoomConn {
    const id: RoomId
    const hub: Hub
    var clients: map<Id, Client>
    var detached: map<Id, Detached>
    var controllerID: Option<Id>
    var nextMember: nat
    ghost var seats: Seats

    ghost predicate Valid()
      reads this
    {
      Mirrors(seats, clients, detached)
    }

    ghost function View(): Room
      reads this
    {
      Room(seats, controllerID, nextMember)
    }

    constructor (id: RoomId, hub: Hub, controllerID: Option<Id>)
      ensures Valid() && this.id == id && this.hub == hub && View() == Room(map[], controllerID, 1)
    {
      this.id, this.hub, this.controllerID := id, hub, controllerID;
      clients, detached, nextMember, seats := map[], map[], 1, map[];
    }

    /** members()[0]: of the people seated, whoever joined first. */
    method FirstMember() returns (first: Option<Id>)
      requires Valid() && forall seat | seat in seats :: seat.n < nextMember
      ensures first == Heir(seats, 0, nextMember)
    {
      first := None;
      var todo := clients.Keys + detached.Keys;
      ghost var people := People(seats);
      while todo != {}
        invariant first.Some? ==> first.value in people
        invariant forall seat | seat in people && seat !in todo :: first.Some? && first.value.n <= seat.n
        invariant forall seat | seat in todo && !seat.tv :: seat in people
        decreases |todo|
      {
        var seat :| seat in todo;
        if !seat.tv && (first.None? || seat.n < first.value.n) {
          first := Some(seat);
        }
        todo := todo - {seat};
      }
      OnlyHeir(seats, nextMember, first);
    }

    method FinalizeLeave(member: Id, client: Client)
      requires Valid() && forall seat | seat in seats :: seat.n < nextMember
      requires Departed(hub.presence, AccountOf(member, client), id).Some?
      modifies this`controllerID, hub
      ensures Valid()
      ensures controllerID == if old(controllerID) == Some(member) then Heir(seats, 0, nextMember)
                              else old(controllerID)
      ensures hub.capabilities == Forgotten(old(hub.capabilities), id, member)
      ensures hub.devices == Unmarked(old(hub.devices), id, client.device, member)
      ensures Departed(old(hub.presence), AccountOf(member, client), id) == Some(hub.presence)
    {
      hub.Forget(id, member, client.device);
      hub.MarkGone(AccountOf(member, client), id);
      if controllerID == Some(member) {
        controllerID := FirstMember();
      }
    }

    /** The socket or the hold of a seat, out of whichever map has it. */
    method TakeOut(member: Id) returns (client: Client)
      requires Valid() && member in seats
      modifies this`clients, this`detached, this`seats
      ensures Valid() && client == old(seats)[member].client && seats == old(seats) - {member}
    {
      MirrorsGone(seats, clients, detached, member);
      client := if member in clients then clients[member] else detached[member].client;
      clients, detached, seats := clients - {member}, detached - {member}, seats - {member};
    }

    /** A seat let go at once, live or held. */
    method Dismiss(member: Id)
      requires Valid() && member in seats && Good(View(), hub.View(), id)
      modifies this, hub
      ensures Valid() && Left(old(View()), old(hub.View()), id, member) == Some((View(), hub.View()))
      ensures Good(View(), hub.View(), id) && seats == old(seats) - {member}
    {
      LeftIsGood(View(), hub.View(), id, member);
      var client := TakeOut(member);
      FinalizeLeave(member, client);
    }

    method Reseat(member: Id, socket: nat, ok: bool)
      requires Valid() && member in seats
      modifies this`clients, this`detached, this`seats
      ensures Valid() && View() == Reseated(old(View()), member, socket, ok)
    {
      var client := TakeOut(member);
      if ok {
        var next := client.(socket := socket);
        SetAfterDelete(old(seats), member, Seat(next, Live));
        MirrorsLive(seats, clients, detached, member, next);
        clients, seats := clients[member := next], seats[member := Seat(next, Live)];
      }
    }

    method HandleDisconnect(member: Id, socket: nat, until: int)
      requires Valid()
      modifies this`clients, this`detached, this`seats
      ensures Valid()
      ensures seats == if member in old(clients) && old(clients)[member].socket == socket
                       then old(seats)[member := old(seats)[member].(place := Held(until))] else old(seats)
    {
      if member !in clients || clients[member].socket != socket {
        return;
      }
      var client := TakeOut(member);
      SetAfterDelete(old(seats), member, Seat(client, Held(until)));
      MirrorsHeld(seats, clients, detached, member, Detached(client, until));
      detached, seats := detached[member := Detached(client, until)], seats[member := Seat(client, Held(until))];
    }

    ghost predicate Sound()
      reads this, hub
    {
      Valid() && Good(View(), hub.View(), id)
    }

    /** Every seat whose grace has passed is given up, one after another, and only those. */
    method ExpireDetached(now: int)
      requires Sound()
      modifies this, hub
      ensures Sound() && Lapsed(old(seats), seats, {}, now)
    {
      var todo := detached.Keys;
      NothingLapsed(seats, clients, detached, now);
      while todo != {}
        invariant Sound() && todo <= seats.Keys && Lapsed(old(seats), seats, todo, now)
        decreases |todo|
      {
        var member :| member in todo;
        LapsesNext(old(seats), seats, todo, now, member);
        ExpireOne(member, now);
        todo := todo - {member};
      }
    }

    method ExpireOne(member: Id, now: int)
      requires Sound() && member in seats
      modifies this, hub
      ensures Sound()
      ensures seats == if Expired(old(seats)[member], now) then old(seats) - {member} else old(seats)
    {
      if member in detached && now >= detached[member].until {
        Dismiss(member);
      }
    }

    method CountPeople() returns (n: nat)
      requires Valid()
      ensures n == |People(seats)|
    {
      var people := set seat | seat in clients.Keys + detached.Keys && !seat.tv;
      assert people == People(seats);
      n := |people|;
    }

    /** The seat a fresh member takes, and the controls if nobody there has them. */
    method TakeSeat(member: Id, client: Client, owns: bool)
      requires Valid() && member !in seats
      modifies this`clients, this`controllerID, this`seats
      ensures Valid() && seats == old(seats)[member := Seat(client, Live)]
      ensures controllerID == if !member.tv && (Leaderless(old(View())) || owns) then Some(member)
                              else old(controllerID)
    {
      var live := controllerID.Some? && (controllerID.value in clients || controllerID.value in detached);
      if !member.tv && (!live || owns) {
        controllerID := Some(member);
      }
      MirrorsLive(seats, clients, detached, member, client);
      clients, seats := clients[member := client], seats[member := Seat(client, Live)];
    }

    /** What a join does once it takes over no seat. */
    method Enter(req: Request, secret: Secret, max: nat, ok: bool) returns (admitted: bool)
      requires Valid() && forall seat | seat in seats :: seat.n < nextMember
      modifies this, hub
      ensures Valid() && (View(), hub.View()) == Entered(old(View()), old(hub.View()), id, req, secret, max, ok)
      ensures admitted == (ok && (req.tv || |People(old(seats))| < max))
    {
      var people := CountPeople();
      if !req.tv && people >= max {
        return false;
      }
      var member := Id(nextMember, req.tv);
      nextMember := nextMember + 1;
      if !ok {
        return false;
      }
      var client := Client(req.socket, secret, req.device, req.signedIn);
      TakeSeat(member, client, req.owns);
      hub.Remember(id, member, secret);
      hub.MarkDevice(id, req.device, member);
      hub.MarkPresent(AccountOf(member, client), id);
      admitted := true;
    }

    /** onDevice: the seat another tab of the same browser has. */
    method FindOnDevice(device: Device) returns (found: Option<Id>)
      requires Sound()
      ensures found == OnDevice(seats, device, 0, nextMember)
    {
      found := None;
      var todo := clients.Keys + detached.Keys;
      while todo != {}
        invariant todo <= seats.Keys
        invariant found.Some? ==> found.value in seats && seats[found.value].client.device == Some(device)
        invariant found.None? ==>
                    forall seat | seat in seats && seat !in todo :: seats[seat].client.device != Some(device)
        decreases |todo|
      {
        var seat :| seat in todo;
        var client := if seat in clients then clients[seat] else detached[seat].client;
        if client.device == Some(device) {
          found := Some(seat);
        }
        todo := todo - {seat};
      }
      OnlyOnDevice(View(), hub.View(), id, device, found);
    }

    /** resume: a seat given back to whoever shows its capability. */
    method Resume(req: Request, ok: bool) returns (done: bool)
      requires Valid()
      modifies this`clients, this`detached, this`seats
      ensures Valid() && done == Resumes(old(View()), req)
      ensures View() == if done then Reseated(old(View()), req.member.value, req.socket, ok) else old(View())
    {
      if req.member.None? {
        return false;
      }
      var held := CapabilityOf(req.member.value);
      done := held == Some(req.capability);
      if done {
        Reseat(req.member.value, req.socket, ok);
      }
    }

    method HandleJoin(req: Request, secret: Secret, max: nat, ok: bool)
      requires Sound()
      modifies this, hub
      ensures Valid() && Joined(old(View()), old(hub.View()), id, req, secret, max, ok) == Some((View(), hub.View()))
    {
      var resumed := Resume(req, ok);
      if !resumed {
        if req.device.None? {
          var _ := Enter(req, secret, max, ok);
        } else {
          JoinFromDevice(req, secret, max, ok);
        }
      }
    }

    method JoinFromDevice(req: Request, secret: Secret, max: nat, ok: bool)
      requires Sound() && !Resumes(View(), req) && req.device.Some?
      modifies this, hub
      ensures Valid() && Joined(old(View()), old(hub.View()), id, req, secret, max, ok) == Some((View(), hub.View()))
    {
      OnDeviceFinds(seats, req.device.value, 0, nextMember);
      var previous := FindOnDevice(req.device.value);
      if previous.None? {
        var _ := Enter(req, secret, max, ok);
      } else {
        JoinOverSeat(previous.value, req, secret, max, ok);
      }
    }

    /** Another tab of the browser takes its seat over; another account's seat there is given up first. */
    method JoinOverSeat(previous: Id, req: Request, secret: Secret, max: nat, ok: bool)
      requires Sound() && !Resumes(View(), req) && previous in seats && SeatOnDevice(View(), req) == Some(previous)
      modifies this, hub
      ensures Valid() && Joined(old(View()), old(hub.View()), id, req, secret, max, ok) == Some((View(), hub.View()))
    {
      var account := SeatAccount(previous);
      if account == req.signedIn {
        Reseat(previous, req.socket, ok);
      } else {
        Dismiss(previous);
        var _ := Enter(req, secret, max, ok);
      }
    }

    method CapabilityOf(member: Id) returns (held: Option<Secret>)
      requires Valid()
      ensures held == if member in seats then Some(seats[member].client.capability) else None
    {
      held := if member in clients then Some(clients[member].capability)
              else if member in detached then Some(detached[member].client.capability) else None;
    }

    method SeatAccount(member: Id) returns (account: Account)
      requires Valid() && member in seats
      ensures account == AccountOf(member, seats[member].client)
    {
      account := AccountOf(member, if member in clients then clients[member] else detached[member].client);
    }
  }

  /** At most one seat is on a browser, so any found is the one. */
  lemma OnlyOnDevice(r: Room, t: Tables, room: RoomId, device: Device, found: Option<Id>)
    requires Agrees(r, t, room)
    requires found.Some? ==> found.value in r.seats && r.seats[found.value].client.device == Some(device)
    requires found.None? ==> forall seat | seat in r.seats :: r.seats[seat].client.device != Some(device)
    ensures found == OnDevice(r.seats, device, 0, r.next)
  {
    OnDeviceFinds(r.seats, device, 0, r.next);
  }

  lemma OnlyHeir(seats: Seats, next: nat, first: Option<Id>)
    requires forall seat | seat in seats :: seat.n < next
    requires first.Some? ==> first.value in People(seats)
    requires forall seat | seat in People(seats) :: first.Some? && first.value.n <= seat.n
    ensures first == Heir(seats, 0, next)
  {
    HeirIsLongestSeated(seats, 0, next);
  }
}
