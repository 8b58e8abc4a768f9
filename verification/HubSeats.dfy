/**
 Who sits in a room (internal/sync/hub.go:627-731, 814-863, 906-1045): a seat is live
 while its socket is, held for a while once that drops, and given up for good after.
 The hub's own tables (capabilities, browsers, presence by account) must go on saying
 exactly what the rooms' seats do.
 */
module HubSeats {
  import opened Wrappers

  datatype RoomId = RoomId(text: string)
  datatype Secret = Secret(text: string)
  datatype Device = Device(text: string)

  /** An account's number; 0 is nobody. */
  type Account = nat

  /** Ids count the joins of a room, so the lower of two has been there longer. */
  datatype Id = Id(n: nat, tv: bool)

  datatype Client = Client(socket: nat, capability: Secret, device: Option<Device>, signedIn: Account)

  datatype Place = Live | Held(until: int)

  datatype Seat = Seat(client: Client, place: Place)

  type Seats = map<Id, Seat>

  datatype Room = Room(seats: Seats, controller: Option<Id>, next: nat)

  datatype Tables = Tables(
    capabilities: map<RoomId, map<Id, Secret>>,
    devices: map<RoomId, map<Device, Id>>,
    presence: map<Account, map<RoomId, nat>>)

  const EMPTY := Tables(map[], map[], map[])

  /** A TV's seat is not its account's. */
  function AccountOf(id: Id, client: Client): Account {
    if id.tv then 0 else client.signedIn
  }

  // ------------------------------------------------------------------- the tables

  function CapabilitiesOf(t: Tables, room: RoomId): map<Id, Secret> {
    if room in t.capabilities then t.capabilities[room] else map[]
  }

  function DevicesOf(t: Tables, room: RoomId): map<Device, Id> {
    if room in t.devices then t.devices[room] else map[]
  }

  function RoomsOf(presence: map<Account, map<RoomId, nat>>, account: Account): map<RoomId, nat> {
    if account in presence then presence[account] else map[]
  }

  function CountOf(presence: map<Account, map<RoomId, nat>>, account: Account, room: RoomId): nat {
    if room in RoomsOf(presence, account) then RoomsOf(presence, account)[room] else 0
  }

  function Arrived(presence: map<Account, map<RoomId, nat>>, account: Account, room: RoomId)
    : map<Account, map<RoomId, nat>>
  {
    if account == 0 then presence
    else presence[account := RoomsOf(presence, account)[room := CountOf(presence, account, room) + 1]]
  }

  /** None where the code would write to a map that is not there. */
  function Departed(presence: map<Account, map<RoomId, nat>>, account: Account, room: RoomId)
    : Option<map<Account, map<RoomId, nat>>>
  {
    if account == 0 then Some(presence)
    else if account !in presence then None
    else
      var rooms := if CountOf(presence, account, room) <= 1 then presence[account] - {room}
                   else presence[account][room := CountOf(presence, account, room) - 1];
      Some(if rooms == map[] then presence - {account} else presence[account := rooms])
  }

  function Marked(devices: map<RoomId, map<Device, Id>>, room: RoomId, device: Option<Device>, id: Id)
    : map<RoomId, map<Device, Id>>
  {
    if device.None? then devices
    else devices[room := (if room in devices then devices[room] else map[])[device.value := id]]
  }

  function Unmarked(devices: map<RoomId, map<Device, Id>>, room: RoomId, device: Option<Device>, id: Id)
    : map<RoomId, map<Device, Id>>
  {
    if device.None? || room !in devices || device.value !in devices[room] || devices[room][device.value] != id
    then devices
    else devices[room := devices[room] - {device.value}]
  }

  function Forgotten(capabilities: map<RoomId, map<Id, Secret>>, room: RoomId, id: Id): map<RoomId, map<Id, Secret>> {
    if room !in capabilities then capabilities else capabilities[room := capabilities[room] - {id}]
  }

  function Remembered(capabilities: map<RoomId, map<Id, Secret>>, room: RoomId, id: Id, secret: Secret)
    : map<RoomId, map<Id, Secret>>
  {
    capabilities[room := (if room in capabilities then capabilities[room] else map[])[id := secret]]
  }

  function Closed(t: Tables, room: RoomId): Tables {
    Tables(t.capabilities - {room}, t.devices - {room},
           map a | a in t.presence && t.presence[a] - {room} != map[] :: t.presence[a] - {room})
  }

  // ------------------------------------------------------------------- a room's seats

  function People(seats: Seats): set<Id> {
    set id | id in seats && !id.tv
  }

  function OfAccount(seats: Seats, account: Account): set<Id> {
    set id | id in seats && AccountOf(id, seats[id].client) == account
  }

  /** Whoever has been there longest, from the n-th join on. */
  function Heir(seats: Seats, n: nat, next: nat): Option<Id>
    decreases next - n
  {
    if n >= next then None else if Id(n, false) in seats then Some(Id(n, false)) else Heir(seats, n + 1, next)
  }

  function OnDevice(seats: Seats, device: Device, n: nat, next: nat): Option<Id>
    decreases next - n
  {
    if n >= next then None
    else if Id(n, false) in seats && seats[Id(n, false)].client.device == Some(device) then Some(Id(n, false))
    else if Id(n, true) in seats && seats[Id(n, true)].client.device == Some(device) then Some(Id(n, true))
    else OnDevice(seats, device, n + 1, next)
  }

  /** A member really going: the seat, its entries and, if they held it, the controls. */
  function Left(r: Room, t: Tables, room: RoomId, id: Id): Option<(Room, Tables)>
    requires id in r.seats
  {
    var client := r.seats[id].client;
    var presence := Departed(t.presence, AccountOf(id, client), room);
    if presence.None? then None
    else
      Some((r.(seats := r.seats - {id},
               controller := if r.controller == Some(id) then Heir(r.seats - {id}, 0, r.next) else r.controller),
            Tables(Forgotten(t.capabilities, room, id), Unmarked(t.devices, room, client.device, id), presence.value)))
  }

  /** Another socket takes the seat, or, when the room cannot be read for it, nobody has it any more. */
  function Reseated(r: Room, id: Id, socket: nat, ok: bool): Room
    requires id in r.seats
  {
    r.(seats := if ok then r.seats[id := Seat(r.seats[id].client.(socket := socket), Live)] else r.seats - {id})
  }

  datatype Request = Request(
    socket: nat, tv: bool, member: Option<Id>, capability: Secret, device: Option<Device>, signedIn: Account,
    owns: bool)

  predicate Leaderless(r: Room) {
    r.controller.None? || r.controller.value !in r.seats
  }

  function Entered(r: Room, t: Tables, room: RoomId, req: Request, secret: Secret, max: nat, ok: bool): (Room, Tables) {
    if !req.tv && |People(r.seats)| >= max then (r, t)
    else
      var id := Id(r.next, req.tv);
      var client := Client(req.socket, secret, req.device, req.signedIn);
      if !ok then (r.(next := r.next + 1), t)
      else
        (Room(r.seats[id := Seat(client, Live)],
              if !req.tv && (Leaderless(r) || req.owns) then Some(id) else r.controller, r.next + 1),
         Tables(Remembered(t.capabilities, room, id, secret), Marked(t.devices, room, req.device, id),
                Arrived(t.presence, AccountOf(id, client), room)))
  }

  predicate Resumes(r: Room, req: Request) {
    req.member.Some? && req.member.value in r.seats && r.seats[req.member.value].client.capability == req.capability
  }

  function SeatOnDevice(r: Room, req: Request): Option<Id> {
    if req.device.None? then None else OnDevice(r.seats, req.device.value, 0, r.next)
  }

  function Joined(r: Room, t: Tables, room: RoomId, req: Request, secret: Secret, max: nat, ok: bool)
    : Option<(Room, Tables)>
  {
    if Resumes(r, req) then Some((Reseated(r, req.member.value, req.socket, ok), t))
    else
      var previous := SeatOnDevice(r, req);
      if previous.None? || previous.value !in r.seats then Some(Entered(r, t, room, req, secret, max, ok))
      else if AccountOf(previous.value, r.seats[previous.value].client) == req.signedIn then
        Some((Reseated(r, previous.value, req.socket, ok), t))
      else
        var gone := Left(r, t, room, previous.value);
        if gone.None? then None else Some(Entered(gone.value.0, gone.value.1, room, req, secret, max, ok))
  }

  // ----------------------------------------------------------------- the machine

  datatype State = State(rooms: map<RoomId, Room>, tables: Tables, panicked: bool)

  const START := State(map[], EMPTY, false)

  datatype Event =
    | Open(room: RoomId, controller: Option<Id>)
    | Join(room: RoomId, req: Request, secret: Secret, max: nat, ok: bool)
    | Disconnect(room: RoomId, id: Id, socket: nat, until: int)
    | Expire(room: RoomId, id: Id, now: int)
    | Dismiss(room: RoomId, id: Id)
    | Transfer(room: RoomId, to: Id)
    | End(room: RoomId)

  function After(s: State, room: RoomId, result: Option<(Room, Tables)>): State {
    if result.None? then s.(panicked := true)
    else s.(rooms := s.rooms[room := result.value.0], tables := result.value.1)
  }

  predicate Expired(seat: Seat, now: int) {
    seat.place.Held? && now >= seat.place.until
  }

  function Step(s: State, e: Event): State {
    if e.Open? then
      if e.room in s.rooms then s else s.(rooms := s.rooms[e.room := Room(map[], e.controller, 1)])
    else if e.room !in s.rooms then s
    else
      var r := s.rooms[e.room];
      match e
      case Join(room, req, secret, max, ok) => After(s, room, Joined(r, s.tables, room, req, secret, max, ok))
      case Disconnect(room, id, socket, until) =>
        if id !in r.seats || r.seats[id].place != Live || r.seats[id].client.socket != socket then s
        else s.(rooms := s.rooms[room := r.(seats := r.seats[id := r.seats[id].(place := Held(until))])])
      case Expire(room, id, now) =>
        if id !in r.seats || !Expired(r.seats[id], now) then s else After(s, room, Left(r, s.tables, room, id))
      case Dismiss(room, id) => if id !in r.seats then s else After(s, room, Left(r, s.tables, room, id))
      case Transfer(room, to) =>
        if to !in r.seats || r.seats[to].place != Live then s
        else s.(rooms := s.rooms[room := r.(controller := Some(to))])
      case End(room) => s.(rooms := s.rooms - {room}, tables := Closed(s.tables, room))
      case Open(_, _) => s
  }

  datatype Run = Run(events: seq<Event>) {
    function At(k: nat): State
      requires k <= |events|
    {
      if k == 0 then START else Step(At(k - 1), events[k - 1])
    }

    /** Up to its k-th event, the store answered whenever a seat was taken over. */
    predicate AnsweredTo(k: nat)
      requires k <= |events|
    {
      k == 0 || (AnsweredTo(k - 1) && StoreAnswers(At(k - 1), events[k - 1]))
    }
  }

  // ---------------------------------------------------------------- what always holds

  predicate CapabilitiesAgree(seats: Seats, capabilities: map<Id, Secret>) {
    capabilities == map id | id in seats :: seats[id].client.capability
  }

  /** Each browser has one seat at most, and the table names that one. */
  predicate DevicesAgree(seats: Seats, devices: map<Device, Id>) {
    && (forall device | device in devices ::
          devices[device] in seats && seats[devices[device]].client.device == Some(device))
    && (forall id | id in seats && seats[id].client.device.Some? ::
          seats[id].client.device.value in devices && devices[seats[id].client.device.value] == id)
  }

  ghost predicate PresenceAgrees(seats: Seats, presence: map<Account, map<RoomId, nat>>, room: RoomId) {
    forall account: Account | account != 0 :: CountOf(presence, account, room) == |OfAccount(seats, account)|
  }

  predicate Led(r: Room) {
    && (People(r.seats) != {} ==> !Leaderless(r))
    && (forall id | id in r.seats :: id.n < r.next)
  }

  ghost predicate Agrees(r: Room, t: Tables, room: RoomId) {
    && CapabilitiesAgree(r.seats, CapabilitiesOf(t, room))
    && DevicesAgree(r.seats, DevicesOf(t, room))
    && PresenceAgrees(r.seats, t.presence, room)
    && Led(r)
  }

  /** Presence lists nobody who is nowhere. */
  predicate Tidy(presence: map<Account, map<RoomId, nat>>) {
    && 0 !in presence
    && forall a | a in presence :: presence[a] != map[] && forall room | room in presence[a] :: presence[a][room] > 0
  }

  const VACANT := Room(map[], None, 0)

  function RoomIn(s: State, room: RoomId): Room {
    if room in s.rooms then s.rooms[room] else VACANT
  }

  ghost predicate Inv(s: State) {
    && !s.panicked && Tidy(s.tables.presence)
    && forall room :: Agrees(RoomIn(s, room), s.tables, room)
  }

  // ----------------------------------------------------------- presence, by account

  lemma ArrivedCounts(presence: map<Account, map<RoomId, nat>>, account: Account, room: RoomId)
    requires Tidy(presence)
    ensures Tidy(Arrived(presence, account, room))
    ensures forall a: Account, other ::
              CountOf(Arrived(presence, account, room), a, other)
              == CountOf(presence, a, other) + (if a == account && a != 0 && other == room then 1 else 0)
  {
  }

  /** A decrement of someone counted present finds their entry, and leaves none behind at zero. */
  lemma DepartedCounts(presence: map<Account, map<RoomId, nat>>, account: Account, room: RoomId)
    requires Tidy(presence) && (account != 0 ==> CountOf(presence, account, room) > 0)
    ensures var after := Departed(presence, account, room);
            && after.Some? && Tidy(after.value)
            && (forall a: Account, other ::
                  CountOf(presence, a, other)
                  == CountOf(after.value, a, other) + (if a == account && a != 0 && other == room then 1 else 0))
  {
  }

  lemma ClosedCounts(t: Tables, room: RoomId)
    requires Tidy(t.presence)
    ensures Tidy(Closed(t, room).presence)
    ensures forall a: Account, other ::
              CountOf(Closed(t, room).presence, a, other) == if other == room then 0 else CountOf(t.presence, a, other)
  {
  }

  lemma OneMoreOfAccount(seats: Seats, id: Id, seat: Seat, account: Account)
    requires id !in seats
    ensures |OfAccount(seats[id := seat], account)|
         == |OfAccount(seats, account)| + (if AccountOf(id, seat.client) == account then 1 else 0)
  {
    assert OfAccount(seats[id := seat], account)
        == OfAccount(seats, account) + if AccountOf(id, seat.client) == account then {id} else {};
  }

  lemma OneLessOfAccount(seats: Seats, id: Id, account: Account)
    requires id in seats
    ensures |OfAccount(seats, account)|
         == |OfAccount(seats - {id}, account)| + (if AccountOf(id, seats[id].client) == account then 1 else 0)
  {
    assert OfAccount(seats, account)
        == OfAccount(seats - {id}, account) + if AccountOf(id, seats[id].client) == account then {id} else {};
  }

  lemma SameOfAccount(seats: Seats, id: Id, seat: Seat, account: Account)
    requires id in seats && seat.client.signedIn == seats[id].client.signedIn
    ensures OfAccount(seats[id := seat], account) == OfAccount(seats, account)
  {
  }

  // --------------------------------------------------------- who leads, who has it

  /** The heir is the person who has been there longest; there is one while anyone is there. */
  lemma {:induction false} HeirIsLongestSeated(seats: Seats, n: nat, next: nat)
    ensures var heir := Heir(seats, n, next);
            && (heir.Some? ==>
                  heir.value in People(seats) && forall id | id in People(seats) && id.n >= n :: heir.value.n <= id.n)
            && (heir.None? ==> forall id | id in People(seats) :: id.n < n || id.n >= next)
    decreases next - n
  {
    if n < next && Id(n, false) !in seats {
      HeirIsLongestSeated(seats, n + 1, next);
    }
  }

  lemma {:induction false} OnDeviceFinds(seats: Seats, device: Device, n: nat, next: nat)
    ensures var found := OnDevice(seats, device, n, next);
            && (found.Some? ==> found.value in seats && seats[found.value].client.device == Some(device))
            && (found.None? ==> forall id | id in seats && n <= id.n < next :: seats[id].client.device != Some(device))
    decreases next - n
  {
    if n < next {
      OnDeviceFinds(seats, device, n + 1, next);
      forall id | id in seats && id.n == n
        ensures id == Id(n, false) || id == Id(n, true)
      {
        assert id == Id(id.n, id.tv);
      }
    }
  }

  // -------------------------------------------------------------- one room at a time

  /** What changes in one room's tables shows in no other room's. */
  ghost predicate SameElsewhere(t: Tables, after: Tables, room: RoomId) {
    forall other | other != room ::
      && CapabilitiesOf(after, other) == CapabilitiesOf(t, other) && DevicesOf(after, other) == DevicesOf(t, other)
      && forall account: Account :: CountOf(after.presence, account, other) == CountOf(t.presence, account, other)
  }

  lemma AgreesElsewhere(r: Room, t: Tables, after: Tables, room: RoomId, other: RoomId)
    requires Agrees(r, t, other) && SameElsewhere(t, after, room) && other != room
    ensures Agrees(r, after, other)
  {
    forall account: Account | account != 0
      ensures CountOf(after.presence, account, other) == |OfAccount(r.seats, account)|
    {
      assert CountOf(t.presence, account, other) == |OfAccount(r.seats, account)|;
    }
  }

  ghost predicate Good(r: Room, t: Tables, room: RoomId) {
    Agrees(r, t, room) && Tidy(t.presence)
  }

  lemma LeftPresence(seats: Seats, presence: map<Account, map<RoomId, nat>>, room: RoomId, id: Id)
    requires PresenceAgrees(seats, presence, room) && Tidy(presence) && id in seats
    ensures var after := Departed(presence, AccountOf(id, seats[id].client), room);
            && after.Some? && Tidy(after.value) && PresenceAgrees(seats - {id}, after.value, room)
            && forall account: Account, other | other != room ::
                 CountOf(after.value, account, other) == CountOf(presence, account, other)
  {
    var account := AccountOf(id, seats[id].client);
    if account != 0 {
      assert CountOf(presence, account, room) == |OfAccount(seats, account)|;
      OneLessOfAccount(seats, id, account);
    }
    DepartedCounts(presence, account, room);
    var after := Departed(presence, account, room).value;
    forall a: Account | a != 0
      ensures CountOf(after, a, room) == |OfAccount(seats - {id}, a)|
    {
      OneLessOfAccount(seats, id, a);
      assert CountOf(presence, a, room) == |OfAccount(seats, a)|;
    }
  }

  lemma LeftDevices(seats: Seats, t: Tables, room: RoomId, id: Id)
    requires DevicesAgree(seats, DevicesOf(t, room)) && id in seats
    ensures var devices := Unmarked(t.devices, room, seats[id].client.device, id);
            && DevicesAgree(seats - {id}, if room in devices then devices[room] else map[])
            && devices - {room} == t.devices - {room}
  {
  }

  lemma LeftLed(r: Room, id: Id)
    requires Led(r) && id in r.seats
    ensures Led(r.(seats := r.seats - {id},
                   controller := if r.controller == Some(id) then Heir(r.seats - {id}, 0, r.next) else r.controller))
  {
    HeirIsLongestSeated(r.seats - {id}, 0, r.next);
    assert People(r.seats - {id}) <= People(r.seats);
  }

  /** The two tables kept per room, changed for one room only. */
  predicate OwnRoomOnly(t: Tables, after: Tables, room: RoomId) {
    && after.capabilities - {room} == t.capabilities - {room} && after.devices - {room} == t.devices - {room}
  }

  lemma ElsewhereByRoom(t: Tables, after: Tables, room: RoomId)
    requires OwnRoomOnly(t, after, room)
    requires forall account: Account, other | other != room ::
               CountOf(after.presence, account, other) == CountOf(t.presence, account, other)
    ensures SameElsewhere(t, after, room)
  {
    forall other | other != room
      ensures CapabilitiesOf(after, other) == CapabilitiesOf(t, other) && DevicesOf(after, other) == DevicesOf(t, other)
    {
      assert other in after.capabilities <==> other in after.capabilities - {room};
      assert other in t.capabilities <==> other in t.capabilities - {room};
      assert other in after.devices <==> other in after.devices - {room};
      assert other in t.devices <==> other in t.devices - {room};
    }
  }

  lemma ForgottenAgrees(seats: Seats, t: Tables, room: RoomId, id: Id)
    requires CapabilitiesAgree(seats, CapabilitiesOf(t, room)) && id in seats
    ensures var capabilities := Forgotten(t.capabilities, room, id);
            && CapabilitiesAgree(seats - {id}, if room in capabilities then capabilities[room] else map[])
            && capabilities - {room} == t.capabilities - {room}
  {
  }

  lemma RememberedAgrees(seats: Seats, t: Tables, room: RoomId, id: Id, seat: Seat)
    requires CapabilitiesAgree(seats, CapabilitiesOf(t, room))
    ensures var capabilities := Remembered(t.capabilities, room, id, seat.client.capability);
            && CapabilitiesAgree(seats[id := seat], if room in capabilities then capabilities[room] else map[])
            && capabilities - {room} == t.capabilities - {room}
  {
  }

  /** A member who leaves takes exactly their own entries with them. */
  lemma LeftIsGood(r: Room, t: Tables, room: RoomId, id: Id)
    requires Good(r, t, room) && id in r.seats
    ensures var after := Left(r, t, room, id);
            && after.Some? && Good(after.value.0, after.value.1, room)
            && after.value.0.seats == r.seats - {id} && SameElsewhere(t, after.value.1, room)
  {
    LeftPresence(r.seats, t.presence, room, id);
    LeftDevices(r.seats, t, room, id);
    ForgottenAgrees(r.seats, t, room, id);
    LeftLed(r, id);
    ElsewhereByRoom(t, Left(r, t, room, id).value.1, room);
  }

  lemma ReplacedIsGood(r: Room, t: Tables, room: RoomId, id: Id, seat: Seat)
    requires Good(r, t, room) && id in r.seats
    requires var was := r.seats[id].client; seat.client == was.(socket := seat.client.socket)
    ensures Good(r.(seats := r.seats[id := seat]), t, room)
  {
    forall account: Account | account != 0
      ensures CountOf(t.presence, account, room) == |OfAccount(r.seats[id := seat], account)|
    {
      SameOfAccount(r.seats, id, seat, account);
      assert CountOf(t.presence, account, room) == |OfAccount(r.seats, account)|;
    }
    assert People(r.seats[id := seat]) == People(r.seats);
  }

  /**
   Taking a seat over keeps the tables right exactly when the room could be read for
   it: otherwise they go on listing a seat nobody has.
   */
  lemma ReseatKeepsExactly(r: Room, t: Tables, room: RoomId, id: Id, socket: nat, ok: bool)
    requires Good(r, t, room) && id in r.seats
    ensures Agrees(Reseated(r, id, socket, ok), t, room) <==> ok
  {
    if ok {
      ReplacedIsGood(r, t, room, id, Seat(r.seats[id].client.(socket := socket), Live));
    } else {
      assert id in CapabilitiesOf(t, room);
    }
  }

  lemma EnteredPresence(seats: Seats, presence: map<Account, map<RoomId, nat>>, room: RoomId, id: Id, seat: Seat)
    requires PresenceAgrees(seats, presence, room) && Tidy(presence) && id !in seats
    ensures var after := Arrived(presence, AccountOf(id, seat.client), room);
            && Tidy(after) && PresenceAgrees(seats[id := seat], after, room)
            && forall account: Account, other | other != room ::
                 CountOf(after, account, other) == CountOf(presence, account, other)
  {
    var account := AccountOf(id, seat.client);
    ArrivedCounts(presence, account, room);
    forall a: Account | a != 0
      ensures CountOf(Arrived(presence, account, room), a, room) == |OfAccount(seats[id := seat], a)|
    {
      OneMoreOfAccount(seats, id, seat, a);
      assert CountOf(presence, a, room) == |OfAccount(seats, a)|;
    }
  }

  lemma EnteredDevices(seats: Seats, t: Tables, room: RoomId, id: Id, seat: Seat)
    requires DevicesAgree(seats, DevicesOf(t, room)) && id !in seats
    requires seat.client.device.Some? ==>
               forall other | other in seats :: seats[other].client.device != seat.client.device
    ensures var devices := Marked(t.devices, room, seat.client.device, id);
            && DevicesAgree(seats[id := seat], if room in devices then devices[room] else map[])
            && devices - {room} == t.devices - {room}
  {
  }

  lemma EnteredLed(r: Room, tv: bool, owns: bool, seat: Seat)
    requires Led(r)
    ensures var id := Id(r.next, tv);
            && id !in r.seats
            && Led(Room(r.seats[id := seat], if !tv && (Leaderless(r) || owns) then Some(id) else r.controller,
                        r.next + 1))
  {
    var id := Id(r.next, tv);
    assert People(r.seats[id := seat]) == People(r.seats) + if tv then {} else {id};
  }

  lemma SeatTakenIsGood(r: Room, t: Tables, room: RoomId, req: Request, secret: Secret)
    requires Good(r, t, room)
    requires req.device.Some? ==> forall id | id in r.seats :: r.seats[id].client.device != req.device
    ensures var (after, tables) := Entered(r, t, room, req, secret, |People(r.seats)| + 1, true);
            Good(after, tables, room) && SameElsewhere(t, tables, room)
  {
    var id := Id(r.next, req.tv);
    var seat := Seat(Client(req.socket, secret, req.device, req.signedIn), Live);
    var (after, tables) := Entered(r, t, room, req, secret, |People(r.seats)| + 1, true);
    EnteredLed(r, req.tv, req.owns, seat);
    EnteredPresence(r.seats, t.presence, room, id, seat);
    EnteredDevices(r.seats, t, room, id, seat);
    RememberedAgrees(r.seats, t, room, id, seat);
    ElsewhereByRoom(t, tables, room);
    assert after.seats == r.seats[id := seat];
  }

  lemma EnteredIsGood(r: Room, t: Tables, room: RoomId, req: Request, secret: Secret, max: nat, ok: bool)
    requires Good(r, t, room)
    requires req.device.Some? ==> forall id | id in r.seats :: r.seats[id].client.device != req.device
    ensures var (after, tables) := Entered(r, t, room, req, secret, max, ok);
            Good(after, tables, room) && SameElsewhere(t, tables, room)
  {
    if ok && (req.tv || |People(r.seats)| < max) {
      SeatTakenIsGood(r, t, room, req, secret);
    }
  }

  lemma NobodyOnDevice(r: Room, t: Tables, room: RoomId, req: Request)
    requires Led(r) && SeatOnDevice(r, req).None? && req.device.Some?
    ensures forall id | id in r.seats :: r.seats[id].client.device != req.device
  {
    OnDeviceFinds(r.seats, req.device.value, 0, r.next);
  }

  /** Once the browser's one seat is given up, no seat is on it. */
  lemma DismissedFromDevice(r: Room, t: Tables, room: RoomId, id: Id)
    requires Agrees(r, t, room) && id in r.seats && r.seats[id].client.device.Some?
    ensures forall other | other in r.seats - {id} :: r.seats[other].client.device != r.seats[id].client.device
  {
  }

  /** A join that takes over a seat, by its capability or from another tab of one browser. */
  predicate Reseats(r: Room, req: Request) {
    || Resumes(r, req)
    || (SeatOnDevice(r, req).Some? && SeatOnDevice(r, req).value in r.seats
        && AccountOf(SeatOnDevice(r, req).value, r.seats[SeatOnDevice(r, req).value].client) == req.signedIn)
  }

  lemma FreshJoinIsGood(r: Room, t: Tables, room: RoomId, req: Request, secret: Secret, max: nat, ok: bool)
    requires Good(r, t, room) && !Reseats(r, req)
    ensures var after := Joined(r, t, room, req, secret, max, ok);
            && after.Some? && Good(after.value.0, after.value.1, room) && SameElsewhere(t, after.value.1, room)
  {
    var previous := SeatOnDevice(r, req);
    if previous.None? {
      if req.device.Some? { NobodyOnDevice(r, t, room, req); }
      EnteredIsGood(r, t, room, req, secret, max, ok);
    } else {
      OnDeviceFinds(r.seats, req.device.value, 0, r.next);
      LeftIsGood(r, t, room, previous.value);
      DismissedFromDevice(r, t, room, previous.value);
      var gone := Left(r, t, room, previous.value).value;
      EnteredIsGood(gone.0, gone.1, room, req, secret, max, ok);
    }
  }

  /** A join keeps the tables right exactly when the store answered it or it takes over no seat. */
  lemma JoinKeepsExactly(r: Room, t: Tables, room: RoomId, req: Request, secret: Secret, max: nat, ok: bool)
    requires Good(r, t, room)
    ensures var after := Joined(r, t, room, req, secret, max, ok);
            && after.Some? && SameElsewhere(t, after.value.1, room)
            && (Good(after.value.0, after.value.1, room) <==> ok || !Reseats(r, req))
  {
    if Resumes(r, req) {
      ReseatKeepsExactly(r, t, room, req.member.value, req.socket, ok);
    } else if Reseats(r, req) {
      ReseatKeepsExactly(r, t, room, SeatOnDevice(r, req).value, req.socket, ok);
    } else {
      FreshJoinIsGood(r, t, room, req, secret, max, ok);
    }
  }

  // --------------------------------------------------------------- the whole hub

  predicate StoreAnswers(s: State, e: Event) {
    e.Join? && e.room in s.rooms && Reseats(s.rooms[e.room], e.req) ==> e.ok
  }

  lemma RoomMoves(s: State, room: RoomId, after: Option<(Room, Tables)>)
    requires Inv(s) && after.Some? && Good(after.value.0, after.value.1, room)
    requires SameElsewhere(s.tables, after.value.1, room)
    ensures Inv(After(s, room, after))
  {
    var t := After(s, room, after);
    forall other
      ensures Agrees(RoomIn(t, other), t.tables, other)
    {
      if other != room {
        assert Agrees(RoomIn(s, other), s.tables, other);
        AgreesElsewhere(RoomIn(s, other), s.tables, t.tables, room, other);
      }
    }
  }

  lemma EndIsGood(s: State, room: RoomId)
    requires Inv(s) && room in s.rooms
    ensures Inv(Step(s, End(room)))
  {
    var t := Step(s, End(room));
    ClosedCounts(s.tables, room);
    forall other
      ensures Agrees(RoomIn(t, other), t.tables, other)
    {
      assert Agrees(RoomIn(s, other), s.tables, other);
      if other != room {
        ElsewhereByRoom(s.tables, t.tables, room);
        AgreesElsewhere(RoomIn(s, other), s.tables, t.tables, room, other);
      } else {
        VacantAgrees(t.tables, room);
      }
    }
  }

  lemma VacantAgrees(t: Tables, room: RoomId)
    requires CapabilitiesOf(t, room) == map[] && DevicesOf(t, room) == map[]
    requires forall account: Account :: CountOf(t.presence, account, room) == 0
    ensures Agrees(VACANT, t, room)
  {
    forall account: Account | account != 0
      ensures CountOf(t.presence, account, room) == |OfAccount(VACANT.seats, account)|
    {
      assert OfAccount(VACANT.seats, account) == {};
    }
  }

  /** Only who leads the room changes, or nothing of it but who is still connected. */
  lemma OneRoomIsGood(s: State, room: RoomId, r: Room)
    requires Inv(s) && Agrees(r, s.tables, room)
    ensures Inv(s.(rooms := s.rooms[room := r]))
  {
    var t := s.(rooms := s.rooms[room := r]);
    forall other
      ensures Agrees(RoomIn(t, other), t.tables, other)
    {
      assert Agrees(RoomIn(s, other), s.tables, other);
    }
  }

  lemma InvStep(s: State, e: Event)
    requires Inv(s) && StoreAnswers(s, e)
    ensures Inv(Step(s, e))
  {
    if Step(s, e) != s {
      var r := RoomIn(s, e.room);
      assert Agrees(r, s.tables, e.room);
      match e
      case Open(room, controller) => OneRoomIsGood(s, room, Room(map[], controller, 1));
      case Join(room, req, secret, max, ok) =>
        JoinKeepsExactly(r, s.tables, room, req, secret, max, ok);
        RoomMoves(s, room, Joined(r, s.tables, room, req, secret, max, ok));
      case Disconnect(room, id, socket, until) =>
        ReplacedIsGood(r, s.tables, room, id, r.seats[id].(place := Held(until)));
        OneRoomIsGood(s, room, r.(seats := r.seats[id := r.seats[id].(place := Held(until))]));
      case Expire(room, id, now) =>
        LeftIsGood(r, s.tables, room, id);
        RoomMoves(s, room, Left(r, s.tables, room, id));
      case Dismiss(room, id) =>
        LeftIsGood(r, s.tables, room, id);
        RoomMoves(s, room, Left(r, s.tables, room, id));
      case Transfer(room, to) => OneRoomIsGood(s, room, r.(controller := Some(to)));
      case End(room) => EndIsGood(s, room);
    }
  }

  lemma {:induction false} InvAlways(run: Run, k: nat)
    requires k <= |run.events| && run.AnsweredTo(k)
    ensures Inv(run.At(k))
  {
    if k > 0 {
      InvAlways(run, k - 1);
      InvStep(run.At(k - 1), run.events[k - 1]);
    } else {
      StartIsGood();
    }
  }

  lemma StartIsGood()
    ensures Inv(START)
  {
    forall room
      ensures Agrees(RoomIn(START, room), EMPTY, room)
    {
      VacantAgrees(EMPTY, room);
    }
  }

  /**
   After every event of the hub each room's tables list exactly its seats, an account
   is counted present once for each of its seats, no decrement has met a missing
   entry, and whoever the room's controller is, while a person is seated they are too.
   */
  lemma TablesAgreeWithSeats(run: Run, k: nat, room: RoomId)
    requires k <= |run.events| && run.AnsweredTo(k)
    ensures var s := run.At(k); var r := RoomIn(s, room);
            && !s.panicked
            && CapabilitiesAgree(r.seats, CapabilitiesOf(s.tables, room))
            && DevicesAgree(r.seats, DevicesOf(s.tables, room))
            && (forall account: Account | account != 0 ::
                  CountOf(s.tables.presence, account, room) == |OfAccount(r.seats, account)|)
            && (People(r.seats) != {} ==> r.controller.Some? && r.controller.value in r.seats)
  {
    InvAlways(run, k);
    assert Agrees(RoomIn(run.At(k), room), run.At(k).tables, room);
  }
}
