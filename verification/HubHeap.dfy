/**
 The hub as wsrelay.go has it: records on the heap that the sections of joinRoom,
 leaveRoom and fanout update in place. Each section does to the directory it stands for
 what the functions of HubDirectory, and hence the steps of HubMachine, say.
 */
module HubHeap {
  import opened Common
  import opened HubDirectory
  import opened HubMachine
  import opened HubRefinement

  class Connection {
    const role: Role
    const address: nat            // what %p prints
    var clientID: string
    var up: bool                  // whether the next ws.Write succeeds
    var sent: seq<Frame>

    constructor (role: Role, address: nat, clientID: string)
      ensures this.role == role && this.address == address && this.clientID == clientID
      ensures up && sent == []
    {
      this.role, this.address, this.clientID := role, address, clientID;
      up, sent := true, [];
    }

    /** ws.Write; an error is the caller's to ignore. */
    method Write(frame: Frame)
      modifies this`sent
      ensures sent == if up then old(sent) + [frame] else old(sent)
    {
      if up {
        sent := sent + [frame];
      }
    }
  }

  class RoomRecord {
    const bastionID: string
    ghost const serial: nat       // its identity: how many rooms the hub had made before
    var daemon: Connection?
    var clients: map<string, Connection>

    constructor (bastionID: string, ghost serial: nat)
      ensures this.bastionID == bastionID && this.serial == serial
      ensures View() == FreshRoom(bastionID)
    {
      this.bastionID, this.serial := bastionID, serial;
      daemon, clients := null, map[];
    }

    ghost function View(): Room<Connection>
      reads this
    {
      var held: Option<Connection> := if daemon == null then None else Some(daemon as Connection);
      Room(bastionID, held, clients)
    }

    /** The registration at the end of joinRoom. */
    method Register(c: Connection)
      modifies this, c`clientID
      ensures c.clientID == if c.role == Client then EffectiveID(old(c.clientID), c.address) else old(c.clientID)
      ensures old(c.clientID) != "" ==> c.clientID == old(c.clientID)
      ensures View() == Enter(old(View()), c, c.role, c.clientID)
      ensures if c.role == Client then c.clientID in clients && clients[c.clientID] == c else daemon == c
    {
      match c.role {
        case Daemon =>
          daemon := c;
        case Client =>
          if c.clientID == "" {
            c.clientID := "c-0x" + Hex(c.address);
          }
          clients := clients[c.clientID := c];
      }
    }

    /** leaveRoom, second section. */
    method Depart(c: Connection) returns (empty: bool)
      modifies this
      ensures View() == Exit(old(View()), c, c.role, c.clientID)
      ensures empty == View().Empty()
    {
      if c.role == Daemon && daemon == c {
        daemon := null;
      }
      if c.role == Client {
        clients := clients - {c.clientID};
      }
      empty := daemon == null && |clients| == 0;
    }

    /** fanout: the recipients are copied first, then written to one by one. */
    method Fanout(src: Connection, frame: Frame)
      modifies Targets(View(), src.role)`sent
      ensures View() == old(View())
      ensures forall t :: t in Targets(View(), src.role) ==>
                t.sent == if t.up then old(t.sent) + [frame] else old(t.sent)
    {
      var todo: set<Connection> := {};
      match src.role {
        case Client => if daemon != null { todo := {daemon}; }
        case Daemon => todo := clients.Values;
      }
      ghost var targets := todo;
      while todo != {}
        invariant todo <= targets == Targets(View(), src.role)
        invariant forall t :: t in todo ==> t.sent == old(t.sent)
        invariant forall t :: t in targets - todo ==>
                    t.sent == if t.up then old(t.sent) + [frame] else old(t.sent)
      {
        var t :| t in todo;
        t.Write(frame);
        todo := todo - {t};
      }
    }
  }

  ghost function Records(made: seq<RoomRecord>): (rs: seq<Room<Connection>>)
    reads made
    ensures |rs| == |made| && forall i :: 0 <= i < |made| ==> rs[i] == made[i].View()
  {
    seq(|made|, i requires 0 <= i < |made| reads made => made[i].View())
  }

  ghost function Index(rooms: map<string, RoomRecord>): (m: map<string, nat>)
    ensures m.Keys == rooms.Keys && forall b :: b in rooms ==> m[b] == rooms[b].serial
  {
    map b | b in rooms :: rooms[b].serial
  }

  lemma IndexAdd(rooms: map<string, RoomRecord>, b: string, room: RoomRecord)
    ensures Index(rooms[b := room]) == Index(rooms)[b := room.serial]
  {}

  lemma IndexRemove(rooms: map<string, RoomRecord>, b: string)
    ensures Index(rooms - {b}) == Index(rooms) - {b}
  {}

  /** leaveRoom with nobody interleaved: look up, depart, sweep if that left the room empty. */
  ghost function LeaveAlone<C>(d: Directory<C>, b: string, c: C, role: Role, id: string): Directory<C> {
    if b !in d.current then d else
      var r := d.current[b];
      var d1 := DepartRoom(d, r, c, role, id);
      if d1.At(r).Empty() then Sweep(d1, b, r) else d1
  }

  /** Run without interleaving, leaveRoom's three sections are the leave of the flat directory. */
  lemma LeaveAloneIsFlat<C>(d: Directory<C>, b: string, c: C, role: Role, id: string)
    requires Injective(d)
    requires b in d.current ==> d.current[b] < |d.rooms| && d.rooms[d.current[b]].bastion == b
    ensures
      var before := if b in FlatDir(d) then FlatDir(d)[b] else FreshRoom(b);
      FlatDir(LeaveAlone(d, b, c, role, id)) == Store(FlatDir(d), b, Exit(before, c, role, id))
  {
    if b in d.current {
      var r := d.current[b];
      var room := Exit(d.At(r), c, role, id);
      PutView(d, b, room);
      SweepView(DepartRoom(d, r, c, role, id), b, r);
      if d.At(r).Empty() { assert d.At(r) == FreshRoom(b); }
    } else {
      assert Exit(FreshRoom(b), c, role, id) == FreshRoom(b);
    }
  }

  class Hub {
    var rooms: map<string, RoomRecord>
    ghost var made: seq<RoomRecord>

    ghost predicate Valid()
      reads this, made
    {
      && (forall i :: 0 <= i < |made| ==> made[i].serial == i)
      && (forall b :: b in rooms ==>
            rooms[b].bastionID == b && rooms[b].serial < |made| && made[rooms[b].serial] == rooms[b])
    }

    ghost function View(): Directory<Connection>
      requires Valid()
      reads this, made
    {
      Directory(Index(rooms), Records(made))
    }

    constructor ()
      ensures Valid() && View() == Directory(map[], []) && made == []
    {
      rooms, made := map[], [];
    }

    /** The start of joinRoom: the bastion's room, made if it has none. */
    method LocateRoom(bastionID: string) returns (room: RoomRecord)
      requires Valid()
      modifies this
      ensures Valid() && View() == Locate(old(View()), bastionID).0
      ensures room.serial == Locate(old(View()), bastionID).1 < |made| && made[room.serial] == room
      ensures bastionID in rooms && rooms[bastionID] == room
      ensures old(made) <= made && forall i :: |old(made)| <= i < |made| ==> fresh(made[i])
    {
      if bastionID in rooms {
        room := rooms[bastionID];
      } else {
        room := new RoomRecord(bastionID, |made|);
        rooms := rooms[bastionID := room];
        made := made + [room];
        IndexAdd(old(rooms), bastionID, room);
        assert Records(made) == old(Records(made)) + [FreshRoom(bastionID)];
      }
    }

    method JoinRoom(bastionID: string, c: Connection) returns (room: RoomRecord)
      requires Valid()
      modifies this, made, c`clientID
      ensures Valid()
      ensures c.clientID == if c.role == Client then EffectiveID(old(c.clientID), c.address) else old(c.clientID)
      ensures old(c.clientID) != "" ==> c.clientID == old(c.clientID)
      ensures bastionID in rooms && rooms[bastionID] == room
      ensures if c.role == Client then c.clientID in room.clients && room.clients[c.clientID] == c else room.daemon == c
      ensures
        var (d, r) := HubDirectory.JoinRoom(old(View()), bastionID, c, c.role, c.clientID);
        View() == d && r < |made| && room == made[r]
      ensures old(made) <= made && forall i :: |old(made)| <= i < |made| ==> fresh(made[i])
    {
      room := LocateRoom(bastionID);
      ghost var located := View();
      room.Register(c);
      PutOne(located, room);
    }

    /** When one record has changed, so has one entry of the directory. */
    lemma PutOne(before: Directory<Connection>, room: RoomRecord)
      requires Valid() && room.serial < |made| && made[room.serial] == room
      requires before.current == View().current && |before.rooms| == |made|
      requires forall i :: 0 <= i < |made| && i != room.serial ==> before.rooms[i] == made[i].View()
      ensures View() == before.Put(room.serial, room.View())
    {
      assert View().rooms == before.rooms[room.serial := room.View()];
    }

    /** leaveRoom, third section. */
    method SweepRoom(bastionID: string, room: RoomRecord)
      requires Valid() && room.serial < |made| && made[room.serial] == room
      modifies this`rooms
      ensures Valid() && View() == Sweep(old(View()), bastionID, room.serial)
    {
      IndexRemove(rooms, bastionID);
      assert Records(made)[room.serial] == room.View();
      if bastionID in rooms && rooms[bastionID] == room {
        if room.daemon == null && |room.clients| == 0 {
          rooms := rooms - {bastionID};
        }
      }
    }

    method LeaveRoom(bastionID: string, c: Connection)
      requires Valid()
      modifies this`rooms, made
      ensures Valid() && View() == LeaveAlone(old(View()), bastionID, c, c.role, c.clientID)
    {
      if bastionID !in rooms {
        return;
      }
      var room := rooms[bastionID];
      assert made[room.serial] == room;
      var empty := room.Depart(c);
      PutOne(old(View()), room);
      if empty {
        SweepRoom(bastionID, room);
      }
    }

    ghost function DaemonCounts(): map<string, nat>
      reads this, rooms.Values
    {
      map b | b in rooms :: if rooms[b].daemon != null then 1 else 0
    }

    ghost function ClientCounts(): map<string, nat>
      reads this, rooms.Values
    {
      map b | b in rooms :: |rooms[b].clients|
    }

    /** The client slots taken, and the bastions with a daemon. */
    ghost function Filed(): set<(string, string)>
      reads this, rooms.Values
    {
      set b, id | b in rooms && id in rooms[b].clients :: (b, id)
    }

    ghost function Manned(): set<string>
      reads this, rooms.Values
    {
      set b | b in rooms && rooms[b].daemon != null
    }

    lemma RoomOfView(b: string)
      requires Valid() && b in rooms
      ensures b in View().current && View().At(View().current[b]) == rooms[b].View()
    {}

    lemma CountsOfView()
      requires Valid()
      ensures DaemonsPer(View()) == DaemonCounts() && ClientsPer(View()) == ClientCounts()
    {
      var d := View();
      assert d.current.Keys == rooms.Keys;
      forall b | b in rooms ensures d.At(d.current[b]) == rooms[b].View() { RoomOfView(b); }
    }

    lemma SetsOfView()
      requires Valid()
      ensures Slots(View(), rooms.Keys) == Filed() && HubDirectory.Manned(View(), rooms.Keys) == Manned()
    {
      var d := View();
      forall b | b in rooms ensures b in d.current && d.At(d.current[b]) == rooms[b].View() { RoomOfView(b); }
    }

    /** The sums over the rooms are the totals of the directory, and the sizes of the two sets. */
    lemma CountsAreTotals()
      requires Valid()
      ensures Totals(View()) ==
              HubDirectory.Stats.Stats(|rooms|,
                                       SumOver(DaemonCounts(), rooms.Keys),
                                       SumOver(ClientCounts(), rooms.Keys))
      ensures SumOver(DaemonCounts(), rooms.Keys) == |Manned()| && SumOver(ClientCounts(), rooms.Keys) == |Filed()|
    {
      CountsOfView();
      SetsOfView();
      TotalsCount(View());
      assert View().current.Keys == rooms.Keys;
      assert |View().current.Keys| == |View().current| && |rooms.Keys| == |rooms|;
    }

    /** Stats with nobody interleaved counts exactly what is there. */
    method Stats() returns (openRooms: nat, roomsWithDaemon: nat, openClientWs: nat)
      requires Valid()
      ensures openRooms == |rooms| && roomsWithDaemon == |Manned()| && openClientWs == |Filed()|
      ensures HubDirectory.Stats.Stats(openRooms, roomsWithDaemon, openClientWs) == Totals(View())
    {
      openRooms, roomsWithDaemon, openClientWs := 0, 0, 0;
      var todo := rooms.Keys;
      while todo != {}
        invariant todo <= rooms.Keys
        invariant openRooms + |todo| == |rooms|
        invariant roomsWithDaemon + SumOver(DaemonCounts(), todo) == SumOver(DaemonCounts(), rooms.Keys)
        invariant openClientWs + SumOver(ClientCounts(), todo) == SumOver(ClientCounts(), rooms.Keys)
      {
        var b :| b in todo;
        SumTake(DaemonCounts(), todo, b);
        SumTake(ClientCounts(), todo, b);
        if rooms[b].daemon != null {
          roomsWithDaemon := roomsWithDaemon + 1;
        }
        openClientWs := openClientWs + |rooms[b].clients|;
        openRooms := openRooms + 1;
        todo := todo - {b};
      }
      CountsAreTotals();
    }
  }
}
