/**
 The hub's data as values: rooms by identity, the map from bastion to current room,
 and one function for each critical section of wsrelay.go. C is whatever stands for a
 connection: a number in the transition systems, a heap object in the class Hub.
 */
module HubDirectory {
  import opened Common

  datatype Role = Client | Daemon

  datatype Room<C> = Room(bastion: string, daemon: Option<C>, clients: map<string, C>) {
    predicate Empty() {
      daemon.None? && |clients| == 0
    }
  }

  function FreshRoom<C>(b: string): Room<C> {
    Room(b, None, map[])
  }

  /** A room is named by its position in rooms, so an identity is never reused. */
  datatype Directory<C> = Directory(current: map<string, nat>, rooms: seq<Room<C>>) {
    /** The record of room r; identities that were never given out stand for an empty room. */
    function At(r: nat): Room<C> {
      if r < |rooms| then rooms[r] else FreshRoom("")
    }

    function Put(r: nat, room: Room<C>): Directory<C> {
      if r < |rooms| then this.(rooms := rooms[r := room]) else this
    }

    /** Room r is the one joiners of its bastion are sent to. */
    predicate Live(r: nat) {
      At(r).bastion in current && current[At(r).bastion] == r
    }
  }

  /** The registration at the end of joinRoom: a daemon silently replaces the one before it. */
  function Enter<C>(room: Room<C>, c: C, role: Role, id: string): Room<C> {
    match role
    case Daemon => room.(daemon := Some(c))
    case Client => room.(clients := room.clients[id := c])
  }

  /** The first half of leaveRoom's second section: daemons are compared, clients are not. */
  function Exit<C(==)>(room: Room<C>, c: C, role: Role, id: string): Room<C> {
    match role
    case Daemon => if room.daemon == Some(c) then room.(daemon := None) else room
    case Client => room.(clients := room.clients - {id})
  }

  /** Looks the bastion's room up, making an empty one if there is none. */
  function Locate<C>(d: Directory<C>, b: string): (Directory<C>, nat) {
    if b in d.current then (d, d.current[b])
    else (Directory(d.current[b := |d.rooms|], d.rooms + [FreshRoom(b)]), |d.rooms|)
  }

  /** joinRoom. */
  function JoinRoom<C>(d: Directory<C>, b: string, c: C, role: Role, id: string): (Directory<C>, nat) {
    var (d1, r) := Locate(d, b);
    (d1.Put(r, Enter(d1.At(r), c, role, id)), r)
  }

  /** leaveRoom, second section, on the room r found by the first. */
  function DepartRoom<C(==)>(d: Directory<C>, r: nat, c: C, role: Role, id: string): Directory<C> {
    d.Put(r, Exit(d.At(r), c, role, id))
  }

  /** leaveRoom, third section: delete the room if it is still current and still empty. */
  function Sweep<C>(d: Directory<C>, b: string, r: nat): Directory<C> {
    if b in d.current && d.current[b] == r && d.At(r).Empty() then d.(current := d.current - {b}) else d
  }

  /** The recipients of one frame sent from a connection of this role. */
  function Targets<C>(room: Room<C>, role: Role): set<C> {
    match role
    case Client => if room.daemon.Some? then {room.daemon.value} else {}
    case Daemon => room.clients.Values
  }

  /** The id a connection is filed under: the one it asked for, or one made from its address. */
  function EffectiveID(given: string, address: nat): string {
    if given != "" then given else "c-0x" + Hex(address)
  }

  // ---- Totals ----

  datatype Stats = Stats(openRooms: nat, roomsWithDaemon: nat, openClientWs: nat)

  /** For each bastion in the hub map, its client connections, and whether it has a daemon. */
  ghost function ClientsPer<C>(d: Directory<C>): map<string, nat> {
    map b | b in d.current :: |d.At(d.current[b]).clients|
  }

  ghost function DaemonsPer<C>(d: Directory<C>): map<string, nat> {
    map b | b in d.current :: if d.At(d.current[b]).daemon.Some? then 1 else 0
  }

  /** What an atomic snapshot of the hub would report. */
  ghost function Totals<C>(d: Directory<C>): Stats {
    Stats(|d.current|, SumOver(DaemonsPer(d), d.current.Keys), SumOver(ClientsPer(d), d.current.Keys))
  }

  /** The client slots that are taken, in the rooms of these bastions. */
  ghost function Slots<C>(d: Directory<C>, bs: set<string>): set<(string, string)> {
    set b, id | b in bs && b in d.current && id in d.At(d.current[b]).clients :: (b, id)
  }

  /** Those of the bastions whose room has a daemon. */
  ghost function Manned<C>(d: Directory<C>, bs: set<string>): set<string> {
    set b | b in bs && b in d.current && d.At(d.current[b]).daemon.Some?
  }

  lemma SlotsOne<C>(d: Directory<C>, b: string)
    requires b in d.current
    ensures |Slots(d, {b})| == |d.At(d.current[b]).clients|
  {
    var clients := d.At(d.current[b]).clients;
    SameSize(clients.Keys, Slots(d, {b}), map id | id in clients :: (b, id)) by {
      var f := map id | id in clients :: (b, id);
      assert forall id :: id in clients ==> f[id] in f.Values;
    }
    assert |clients.Keys| == |clients|;
  }

  lemma SlotsSplit<C>(d: Directory<C>, bs: set<string>, b: string)
    requires b in bs
    ensures |Slots(d, bs)| == |Slots(d, bs - {b})| + |Slots(d, {b})|
  {
    assert Slots(d, bs) == Slots(d, bs - {b}) + Slots(d, {b});
    assert Slots(d, bs - {b}) !! Slots(d, {b});
  }

  lemma {:induction false} SlotsCount<C>(d: Directory<C>, bs: set<string>)
    requires bs <= d.current.Keys
    ensures SumOver(ClientsPer(d), bs) == |Slots(d, bs)|
    decreases bs
  {
    if bs == {} {
      assert Slots(d, bs) == {};
    } else {
      var b :| b in bs;
      var per, rest := ClientsPer(d), bs - {b};
      SumTake(per, bs, b);
      SlotsCount(d, rest);
      SlotsOne(d, b);
      SlotsSplit(d, bs, b);
    }
  }

  lemma MannedSplit<C>(d: Directory<C>, bs: set<string>, b: string)
    requires b in bs && b in d.current
    ensures |Manned(d, bs)| == |Manned(d, bs - {b})| + DaemonsPer(d)[b]
  {
    if d.At(d.current[b]).daemon.Some? {
      assert Manned(d, bs) == Manned(d, bs - {b}) + {b};
    } else {
      assert Manned(d, bs) == Manned(d, bs - {b});
    }
  }

  lemma {:induction false} MannedCount<C>(d: Directory<C>, bs: set<string>)
    requires bs <= d.current.Keys
    ensures SumOver(DaemonsPer(d), bs) == |Manned(d, bs)|
    decreases bs
  {
    if bs == {} {
      assert Manned(d, bs) == {};
    } else {
      var b :| b in bs;
      var per, rest := DaemonsPer(d), bs - {b};
      SumTake(per, bs, b);
      MannedCount(d, rest);
      MannedSplit(d, bs, b);
    }
  }

  /** The totals count rooms, rooms with a daemon, and taken client slots. */
  lemma TotalsCount<C>(d: Directory<C>)
    ensures Totals(d) == Stats(|d.current|, |Manned(d, d.current.Keys)|, |Slots(d, d.current.Keys)|)
  {
    SlotsCount(d, d.current.Keys);
    MannedCount(d, d.current.Keys);
  }
}
