/**
 The hub refines a flat directory with no rooms to find, no deletion and atomic leaves:
 for each bastion an optional daemon and one connection per client id.
 */
module HubRefinement {
  import opened Common
  import opened HubDirectory
  import opened HubMachine
  import opened HubMembers

  /** Who has joined, and whether its leave has taken effect. */
  datatype Entry = Entry(conn: Conn, left: bool)

  /** dir has an entry for each bastion with a member, and none for the others. */
  datatype Flat = Flat(dir: map<string, Room<ConnId>>, who: map<ConnId, Entry>)

  datatype FlatOp = FlatJoin(c: ConnId, conn: Conn) | FlatLeave(c: ConnId)

  function Members(f: Flat, b: string): Room<ConnId> {
    if b in f.dir then f.dir[b] else FreshRoom(b)
  }

  function Store<C>(dir: map<string, Room<C>>, b: string, room: Room<C>): map<string, Room<C>> {
    if room.Empty() then dir - {b} else dir[b := room]
  }

  /** A connection joins once and leaves once. */
  predicate FlatEnabled(f: Flat, op: FlatOp) {
    match op
    case FlatJoin(c, _) => c !in f.who
    case FlatLeave(c) => c in f.who && !f.who[c].left
  }

  function FlatFire(f: Flat, op: FlatOp): Flat
    requires FlatEnabled(f, op)
  {
    match op
    case FlatJoin(c, k) =>
      Flat(Store(f.dir, k.bastion, Enter(Members(f, k.bastion), c, k.role, k.id)), f.who[c := Entry(k, false)])
    case FlatLeave(c) =>
      var k := f.who[c].conn;
      Flat(Store(f.dir, k.bastion, Exit(Members(f, k.bastion), c, k.role, k.id)), f.who[c := Entry(k, true)])
  }

  predicate Takes(f: Flat, op: FlatOp, g: Flat) {
    FlatEnabled(f, op) && FlatFire(f, op) == g
  }

  /** Operation i leads from flat i to the next. */
  predicate Linked(fs: seq<Flat>, ops: seq<FlatOp>, i: nat) {
    |fs| == |ops| + 1 && i < |ops| && Takes(fs[i], ops[i], fs[i + 1])
  }

  ghost predicate Path(fs: seq<Flat>, ops: seq<FlatOp>) {
    |fs| == |ops| + 1 && forall i: nat {:trigger Linked(fs, ops, i)} :: i < |ops| ==> Linked(fs, ops, i)
  }

  /** The operations lead from f to g, each enabled in turn. */
  ghost predicate FlatRun(f: Flat, ops: seq<FlatOp>, g: Flat) {
    exists fs :: Path(fs, ops) && fs[0] == f && fs[|ops|] == g
  }

  lemma FlatRunNone(f: Flat)
    ensures FlatRun(f, [], f)
  {
    assert Path([f], []);
  }

  lemma FlatRunOne(f: Flat, op: FlatOp, g: Flat)
    requires Takes(f, op, g)
    ensures FlatRun(f, [op], g)
  {
    assert Linked([f, g], [op], 0);
    assert Path([f, g], [op]);
  }

  /** Two sequences that share an element, laid end to end at it. */
  lemma Joint<T>(fs: seq<T>, gs: seq<T>, i: nat)
    requires fs != [] && gs != [] && fs[|fs| - 1] == gs[0] && i < |fs| + |gs| - 1
    ensures (fs + gs[1..])[i] == if i < |fs| then fs[i] else gs[i + 1 - |fs|]
    ensures i >= |fs| - 1 ==> (fs + gs[1..])[i] == gs[i + 1 - |fs|]
  {}

  lemma PathAt(fs: seq<Flat>, xs: seq<FlatOp>, gs: seq<Flat>, ys: seq<FlatOp>)
    requires Path(fs, xs) && Path(gs, ys) && fs[|xs|] == gs[0]
    ensures forall i: nat :: i < |xs| + |ys| ==> Linked(fs + gs[1..], xs + ys, i)
  {
    forall i: nat | i < |xs| + |ys| ensures Linked(fs + gs[1..], xs + ys, i) {
      Joint(fs, gs, i);
      Joint(fs, gs, i + 1);
      if i < |xs| {
        assert Linked(fs, xs, i);
      } else {
        assert Linked(gs, ys, i - |xs|);
        assert (xs + ys)[i] == ys[i - |xs|];
      }
    }
  }

  lemma FlatRunAppend(f: Flat, xs: seq<FlatOp>, g: Flat, ys: seq<FlatOp>, h: Flat)
    requires FlatRun(f, xs, g) && FlatRun(g, ys, h)
    ensures FlatRun(f, xs + ys, h)
  {
    var fs :| Path(fs, xs) && fs[0] == f && fs[|xs|] == g;
    var gs :| Path(gs, ys) && gs[0] == g && gs[|ys|] == h;
    var hs, zs := fs + gs[1..], xs + ys;
    PathAt(fs, xs, gs, ys);
    Joint(fs, gs, |zs|);
    assert Path(hs, zs);
  }

  ghost function FlatDir<C>(d: Directory<C>): map<string, Room<C>> {
    map b | b in d.current && !d.At(d.current[b]).Empty() :: d.At(d.current[b])
  }

  /**
   A leave takes effect at its room section, unless the room it found is deleted first:
   then it takes effect at the deletion.
   */
  ghost predicate HasLeft(s: State, c: ConnId)
    requires c in s.threads
  {
    match s.threads[c].pc
    case Leaving(found) => !s.dir.Live(found)
    case Emptied(_) => true
    case Gone => true
    case _ => false
  }

  ghost function View(s: State): Flat {
    Flat(FlatDir(s.dir), map c | c in s.threads :: Entry(s.threads[c].conn, HasLeft(s, c)))
  }

  /** The leaves of these connections, in some order. */
  ghost function Leaves(cs: set<ConnId>): (ops: seq<FlatOp>)
    ensures forall op :: op in ops ==> op.FlatLeave? && op.c in cs
    decreases |cs|
  {
    if cs == {} then [] else
      var c :| c in cs;
      [FlatLeave(c)] + Leaves(cs - {c})
  }

  /** Leaves of connections whose bastion has no member change nothing but who has left. */
  lemma Helped(f: Flat, cs: set<ConnId>, c: ConnId) returns (f1: Flat)
    requires forall c :: c in cs ==> c in f.who && !f.who[c].left && f.who[c].conn.bastion !in f.dir
    requires c in cs
    ensures f1 == f.(who := f.who[c := Entry(f.who[c].conn, true)]) && FlatRun(f, [FlatLeave(c)], f1)
    ensures forall j :: j in cs - {c} ==> j in f1.who && f1.who[j] == f.who[j]
  {
    f1 := f.(who := f.who[c := Entry(f.who[c].conn, true)]);
    LeaveAbsent(f, c, f1);
    FlatRunOne(f, FlatLeave(c), f1);
  }

  lemma {:induction false} HelpLeavers(f: Flat, cs: set<ConnId>, g: Flat)
    requires forall c :: c in cs ==> c in f.who && !f.who[c].left && f.who[c].conn.bastion !in f.dir
    requires g.dir == f.dir && g.who.Keys == f.who.Keys
    requires forall c :: c in f.who ==> g.who[c] == if c in cs then Entry(f.who[c].conn, true) else f.who[c]
    ensures FlatRun(f, Leaves(cs), g)
    decreases |cs|
  {
    if cs == {} {
      assert g.who == f.who;
      FlatRunNone(f);
    } else {
      var c :| c in cs && Leaves(cs) == [FlatLeave(c)] + Leaves(cs - {c});
      var f1 := Helped(f, cs, c);
      HelpLeavers(f1, cs - {c}, g);
      FlatRunAppend(f, [FlatLeave(c)], f1, Leaves(cs - {c}), g);
    }
  }

  lemma LeaveAbsent(f: Flat, c: ConnId, g: Flat)
    requires FlatEnabled(f, FlatLeave(c)) && f.who[c].conn.bastion !in f.dir
    requires g == f.(who := f.who[c := Entry(f.who[c].conn, true)])
    ensures Takes(f, FlatLeave(c), g)
  {
    var k := f.who[c].conn;
    assert Exit(FreshRoom(k.bastion), c, k.role, k.id) == FreshRoom(k.bastion);
  }

  ghost predicate Injective<C>(d: Directory<C>) {
    forall a, b :: a in d.current && b in d.current && d.current[a] == d.current[b] ==> a == b
  }

  lemma RoomsApart(s: State)
    requires Inv(s)
    ensures Injective(s.dir)
  {
    forall a, b | a in s.dir.current && b in s.dir.current && s.dir.current[a] == s.dir.current[b] ensures a == b {
      assert BastionOk(s, a) && BastionOk(s, b);
    }
  }

  lemma PutAt<C>(d: Directory<C>, b: string, room: Room<C>, a: string)
    requires Injective(d) && b in d.current && d.current[b] < |d.rooms|
    ensures
      var left, right := FlatDir(d.Put(d.current[b], room)), Store(FlatDir(d), b, room);
      (a in left <==> a in right) && (a in left ==> left[a] == right[a])
  {
    var d' := d.Put(d.current[b], room);
    if a == b {
      assert d'.At(d.current[b]) == room;
    } else if a in d.current {
      assert d.current[a] != d.current[b];
      assert d'.At(d.current[a]) == d.At(d.current[a]);
    }
  }

  /** Rewriting the current room of b rewrites b's entry, or drops it when nobody is left. */
  lemma PutView<C>(d: Directory<C>, b: string, room: Room<C>)
    requires Injective(d) && b in d.current && d.current[b] < |d.rooms|
    ensures FlatDir(d.Put(d.current[b], room)) == Store(FlatDir(d), b, room)
  {
    var left, right := FlatDir(d.Put(d.current[b], room)), Store(FlatDir(d), b, room);
    forall a: string ensures (a in left <==> a in right) && (a in left ==> left[a] == right[a]) {
      PutAt(d, b, room, a);
    }
    SameMap(left, right);
  }

  lemma SameMap<K, V>(left: map<K, V>, right: map<K, V>)
    requires forall a :: (a in left <==> a in right) && (a in left ==> left[a] == right[a])
    ensures left == right
  {}

  lemma MembersOf(s: State, b: string)
    requires Inv(s)
    ensures Members(View(s), b) == if b in s.dir.current then s.dir.At(s.dir.current[b]) else FreshRoom(b)
  {
    assert BastionOk(s, b);
    if b in s.dir.current && s.dir.At(s.dir.current[b]).Empty() {
      assert s.dir.At(s.dir.current[b]).clients == map[];
    }
  }

  lemma JoinLeft(s: State, l: Label, c: ConnId)
    requires Inv(s) && l.Join? && Enabled(s, l) && c in s.threads && Joined(s, Fire(s, l), l)
    ensures HasLeft(Fire(s, l), c) == HasLeft(s, c)
  {
    assert ThreadOk(s, c) && BastionOk(s, s.threads[c].conn.bastion) && BastionOk(s, l.bastion);
  }

  lemma JoinWho(s: State, l: Label)
    requires Inv(s) && l.Join? && Enabled(s, l)
    ensures View(Fire(s, l)).who == View(s).who[l.c := Entry(Conn(l.role, l.bastion, l.id), false)]
  {
    JoinEffect(s, l);
    forall c | c in s.threads ensures HasLeft(Fire(s, l), c) == HasLeft(s, c) { JoinLeft(s, l, c); }
  }

  lemma ViewJoin(s: State, l: Label)
    requires Inv(s) && l.Join? && Enabled(s, l)
    ensures Takes(View(s), FlatJoin(l.c, Conn(l.role, l.bastion, l.id)), View(Fire(s, l)))
  {
    JoinWho(s, l);
    JoinView(s, l.bastion, Enter(Members(View(s), l.bastion), l.c, l.role, l.id));
    MembersOf(s, l.bastion);
  }

  lemma InMade(s: State, b: string)
    requires BastionOk(s, b) && b in s.dir.current
    ensures s.dir.current[b] < |s.dir.rooms|
  {}

  /** Making an empty room is not felt in the directory. */
  lemma AddView<C>(d: Directory<C>, b: string)
    requires b !in d.current && Injective(d) && forall a :: a in d.current ==> d.current[a] < |d.rooms|
    ensures FlatDir(Locate(d, b).0) == FlatDir(d) && Injective(Locate(d, b).0)
  {}

  lemma LocateView(s: State, b: string)
    requires Inv(s)
    ensures
      var (d1, q) := Locate(s.dir, b);
      && FlatDir(d1) == FlatDir(s.dir) && Injective(d1)
      && b in d1.current && d1.current[b] == q < |d1.rooms|
  {
    RoomsApart(s);
    forall a: string | a in s.dir.current ensures s.dir.current[a] < |s.dir.rooms| {
      assert BastionOk(s, a);
      InMade(s, a);
    }
    if b !in s.dir.current { AddView(s.dir, b); }
  }

  lemma JoinView(s: State, b: string, room: Room<ConnId>)
    requires Inv(s)
    ensures
      var (d1, q) := Locate(s.dir, b);
      FlatDir(d1.Put(q, room)) == Store(FlatDir(s.dir), b, room)
  {
    LocateView(s, b);
    PutView(Locate(s.dir, b).0, b, room);
  }

  /** A lookup that finds no room is the whole leave; one that finds a room is not yet felt. */
  lemma ViewLookup(s: State, c: ConnId)
    requires Inv(s) && Enabled(s, Lookup(c))
    ensures
      if s.threads[c].conn.bastion in s.dir.current then View(Fire(s, Lookup(c))) == View(s)
      else Takes(View(s), FlatLeave(c), View(Fire(s, Lookup(c))))
  {
    var s' := Fire(s, Lookup(c));
    var b := s.threads[c].conn.bastion;
    if b in s.dir.current {
      assert BastionOk(s, b);
      SameWho(s, s', c);
    } else {
      LeftWho(s, s', c);
      LeaveAbsent(View(s), c, View(s'));
    }
  }

  lemma SameWho(s: State, s': State, c: ConnId)
    requires c in s.threads && s'.dir == s.dir
    requires s'.threads.Keys == s.threads.Keys && s'.threads[c].conn == s.threads[c].conn
    requires HasLeft(s, c) == HasLeft(s', c)
    requires forall j :: j in s.threads && j != c ==> s'.threads[j] == s.threads[j]
    ensures View(s') == View(s)
  {
    assert View(s').who == View(s).who;
  }

  lemma DepartLive(s: State, c: ConnId)
    requires Inv(s) && Enabled(s, Depart(c)) && s.dir.Live(s.threads[c].pc.found)
    ensures Takes(View(s), FlatLeave(c), View(Fire(s, Depart(c))))
  {
    var k, q := s.threads[c].conn, s.threads[c].pc.found;
    assert ThreadOk(s, c);
    RoomsApart(s);
    MembersOf(s, k.bastion);
    PutView(s.dir, k.bastion, Exit(s.dir.At(q), c, k.role, k.id));
    DepartOwns(s, c);
    DepartBastions(s, c);
    LeftWho(s, Fire(s, Depart(c)), c);
  }

  lemma DepartBastions(s: State, c: ConnId)
    requires Enabled(s, Depart(c))
    ensures forall r: nat :: Fire(s, Depart(c)).dir.At(r).bastion == s.dir.At(r).bastion
  {
    ExitEffect(s.dir.At(s.threads[c].pc.found), c, s.threads[c].conn);
  }

  /** On a deleted room a room section does nothing. */
  lemma DepartStale(s: State, c: ConnId)
    requires Inv(s) && Enabled(s, Depart(c)) && !s.dir.Live(s.threads[c].pc.found)
    ensures Fire(s, Depart(c)).dir == s.dir
  {
    var k, q := s.threads[c].conn, s.threads[c].pc.found;
    assert RoomOk(s, q);
    ExitEffect(s.dir.At(q), c, k);
  }

  lemma ViewDepart(s: State, c: ConnId)
    requires Inv(s) && Enabled(s, Depart(c))
    ensures
      if s.dir.Live(s.threads[c].pc.found) then Takes(View(s), FlatLeave(c), View(Fire(s, Depart(c))))
      else View(Fire(s, Depart(c))) == View(s)
  {
    if s.dir.Live(s.threads[c].pc.found) {
      DepartLive(s, c);
    } else {
      DepartStale(s, c);
      SameWho(s, Fire(s, Depart(c)), c);
    }
  }

  lemma LeftWho(s: State, s': State, c: ConnId)
    requires c in s.threads && s'.dir.current == s.dir.current
    requires forall r: nat :: s'.dir.At(r).bastion == s.dir.At(r).bastion
    requires s'.threads.Keys == s.threads.Keys && s'.threads[c].conn == s.threads[c].conn
    requires forall j :: j in s.threads && j != c ==> s'.threads[j] == s.threads[j]
    requires s'.threads[c].pc.Emptied? || s'.threads[c].pc.Gone?
    ensures View(s').who == View(s).who[c := Entry(s.threads[c].conn, true)]
  {
    forall j | j in s.threads && j != c ensures HasLeft(s', j) == HasLeft(s, j) {}
  }

  /** Deleting an empty room is not felt in the directory. */
  lemma SweepView<C>(d: Directory<C>, b: string, r: nat)
    ensures FlatDir(Sweep(d, b, r)) == FlatDir(d)
  {}

  /** Those that have found room r and not come to its lock. */
  ghost function Finders(s: State, r: nat): set<ConnId> {
    set c | c in s.threads && s.threads[c].pc == Leaving(r)
  }

  /** The joins and leaves that take effect at a label. */
  ghost function OpsAt(s: State, l: Label): seq<FlatOp> {
    if !Enabled(s, l) then [] else
      match l
      case Join(c, role, b, id) => [FlatJoin(c, Conn(role, b, id))]
      case Lookup(c) => if s.threads[c].conn.bastion in s.dir.current then [] else [FlatLeave(c)]
      case Depart(c) => if s.dir.Live(s.threads[c].pc.found) then [FlatLeave(c)] else []
      case Recheck(c) => if Fire(s, l).dir == s.dir then [] else Leaves(Finders(s, s.threads[c].pc.found))
      case _ => []
  }

  /** Deleting a room completes the leaves that had found it; none of them changes the directory. */
  lemma ViewDeleted(s: State, c: ConnId)
    requires Inv(s) && Enabled(s, Recheck(c)) && Fire(s, Recheck(c)).dir != s.dir
    ensures FlatRun(View(s), Leaves(Finders(s, s.threads[c].pc.found)), View(Fire(s, Recheck(c))))
  {
    var s' := Fire(s, Recheck(c));
    var q := s.threads[c].pc.found;
    SweepView(s.dir, s.threads[c].conn.bastion, q);
    RecheckWho(s, s', c, Finders(s, q));
    forall j | j in Finders(s, q) ensures s.threads[j].conn.bastion !in View(s).dir {
      assert ThreadOk(s, j) && ThreadOk(s, c);
    }
    HelpLeavers(View(s), Finders(s, q), View(s'));
  }

  lemma ViewRecheck(s: State, c: ConnId)
    requires Inv(s) && Enabled(s, Recheck(c))
    ensures FlatRun(View(s), OpsAt(s, Recheck(c)), View(Fire(s, Recheck(c))))
  {
    if Fire(s, Recheck(c)).dir == s.dir {
      SameWho(s, Fire(s, Recheck(c)), c);
      FlatRunNone(View(s));
    } else {
      ViewDeleted(s, c);
    }
  }

  lemma RecheckWho(s: State, s': State, c: ConnId, cs: set<ConnId>)
    requires Inv(s) && c in s.threads && s.threads[c].pc.Emptied? && s'.threads == Move(s, c, Gone)
    requires s'.dir == s.dir.(current := s.dir.current - {s.threads[c].conn.bastion})
    requires s.threads[c].conn.bastion in s.dir.current
    requires s.dir.current[s.threads[c].conn.bastion] == s.threads[c].pc.found
    requires cs == set j | j in s.threads && s.threads[j].pc == Leaving(s.threads[c].pc.found)
    ensures forall j :: j in cs ==> !HasLeft(s, j)
    ensures View(s').who.Keys == View(s).who.Keys
    ensures forall j :: j in s.threads ==>
              View(s').who[j] == if j in cs then Entry(s.threads[j].conn, true) else View(s).who[j]
  {
    forall j | j in s.threads
      ensures HasLeft(s', j) == (j in cs || HasLeft(s, j))
      ensures j in cs ==> !HasLeft(s, j)
    {
      RecheckLeft(s, s', c, j);
    }
  }

  lemma RecheckLeft(s: State, s': State, c: ConnId, j: ConnId)
    requires Inv(s) && c in s.threads && s.threads[c].pc.Emptied? && s'.threads == Move(s, c, Gone)
    requires s'.dir == s.dir.(current := s.dir.current - {s.threads[c].conn.bastion})
    requires s.threads[c].conn.bastion in s.dir.current && j in s.threads
    requires s.dir.current[s.threads[c].conn.bastion] == s.threads[c].pc.found
    ensures HasLeft(s', j) == (s.threads[j].pc == Leaving(s.threads[c].pc.found) || HasLeft(s, j))
    ensures s.threads[j].pc == Leaving(s.threads[c].pc.found) ==> !HasLeft(s, j)
  {
    assert ThreadOk(s, j) && ThreadOk(s, c);
  }

  /** Each label is a run of the flat directory: the operations that take effect at it. */
  lemma ViewStep(s: State, l: Label)
    requires Inv(s)
    ensures FlatRun(View(s), OpsAt(s, l), View(Step(s, l)))
  {
    FlatRunNone(View(s));
    if Enabled(s, l) {
      match l
      case Join(_, _, _, _) => ViewJoin(s, l);
      case Lookup(c) => ViewLookup(s, c);
      case Depart(c) => ViewDepart(s, c);
      case Recheck(c) => ViewRecheck(s, c);
      case _ => ViewQuiet(s, l);
    }
    if Enabled(s, l) && !l.Recheck? {
      if |OpsAt(s, l)| == 1 && !l.Recheck? { FlatRunOne(View(s), OpsAt(s, l)[0], View(Fire(s, l))); }
    }
  }

  /** The read loop and the stats calls are not felt. */
  lemma ViewQuiet(s: State, l: Label)
    requires Enabled(s, l) && !l.Join? && !l.Lookup? && !l.Depart? && !l.Recheck?
    ensures View(Fire(s, l)) == View(s)
  {
    QuietEffect(s, l);
    var s' := Fire(s, l);
    forall c | c in s.threads ensures s'.threads[c].conn == s.threads[c].conn && HasLeft(s', c) == HasLeft(s, c) {
      assert StillIn(s.threads[c], s'.threads[c]);
    }
  }

  // ---- The linearization of a schedule ----

  ghost function Linearization(ls: seq<Label>): seq<FlatOp> {
    if ls == [] then []
    else Linearization(ls[..|ls| - 1]) + OpsAt(Exec(ls[..|ls| - 1]), ls[|ls| - 1])
  }

  /** Every interleaving, duplicate client ids included, is a run of the flat directory. */
  lemma {:induction false} Linearizable(ls: seq<Label>)
    ensures FlatRun(Flat(map[], map[]), Linearization(ls), View(Exec(ls)))
  {
    if ls == [] {
      assert View(INIT) == Flat(map[], map[]);
      FlatRunNone(View(INIT));
    } else {
      var front, l := ls[..|ls| - 1], ls[|ls| - 1];
      Linearizable(front);
      InvAlways(front);
      ViewStep(Exec(front), l);
      FlatRunAppend(Flat(map[], map[]), Linearization(front), View(Exec(front)), OpsAt(Exec(front), l), View(Exec(ls)));
    }
  }

  /** A schedule that goes on keeps its linearization and extends it. */
  lemma {:induction false} LinearizationGrows(ls: seq<Label>, n: nat)
    requires n <= |ls|
    ensures Linearization(ls[..n]) <= Linearization(ls)
  {
    if n == |ls| {
      assert ls[..n] == ls;
    } else {
      LinearizationGrows(ls[..|ls| - 1], n);
      assert ls[..|ls| - 1][..n] == ls[..n];
    }
  }

  /** The operation belongs to a thread that is within it: a join at its one label, a leave from lookup on. */
  ghost predicate Within(s: State, l: Label, op: FlatOp) {
    Enabled(s, l) &&
    match op
    case FlatJoin(c, k) => l == Join(c, k.role, k.bastion, k.id)
    case FlatLeave(c) => c in s.threads && (l == Lookup(c) || s.threads[c].pc.Leaving?)
  }

  /** Operation i takes effect at label n. */
  ghost predicate TakesEffectAt(ls: seq<Label>, n: nat, i: nat) {
    && n < |ls| && i < |Linearization(ls)|
    && |Linearization(ls[..n])| <= i < |Linearization(ls[..n + 1])|
    && Within(Exec(ls[..n]), ls[n], Linearization(ls)[i])
  }

  lemma EffectLater(ls: seq<Label>, n: nat, i: nat)
    requires ls != [] && TakesEffectAt(ls[..|ls| - 1], n, i)
    ensures TakesEffectAt(ls, n, i)
  {
    var front := ls[..|ls| - 1];
    assert front[..n] == ls[..n] && front[..n + 1] == ls[..n + 1];
    assert Linearization(ls)[i] == Linearization(front)[i];
  }

  lemma OpsWithin(s: State, l: Label, op: FlatOp)
    requires op in OpsAt(s, l)
    ensures Within(s, l, op)
  {}

  lemma EffectLast(ls: seq<Label>, i: nat)
    requires ls != [] && |Linearization(ls[..|ls| - 1])| <= i < |Linearization(ls)|
    ensures TakesEffectAt(ls, |ls| - 1, i)
  {
    var front, l := ls[..|ls| - 1], ls[|ls| - 1];
    assert ls[..|front| + 1] == ls;
    var op := Linearization(ls)[i];
    assert op == OpsAt(Exec(front), l)[i - |Linearization(front)|];
    OpsWithin(Exec(front), l, op);
  }

  /**
   Every join and leave of the linearization takes effect at a label of the schedule that
   lies between the first and the last step of its own connection's join or leave.
   */
  lemma {:induction false} EffectsWithin(ls: seq<Label>, i: nat) returns (n: nat)
    requires i < |Linearization(ls)|
    ensures TakesEffectAt(ls, n, i)
  {
    if i < |Linearization(ls[..|ls| - 1])| {
      n := EffectsWithin(ls[..|ls| - 1], i);
      EffectLater(ls, n, i);
    } else {
      n := |ls| - 1;
      EffectLast(ls, i);
    }
  }

  predicate IsJoinOf(op: FlatOp, c: ConnId) {
    op.FlatJoin? && op.c == c
  }

  predicate IsLeaveOf(op: FlatOp, c: ConnId) {
    op.FlatLeave? && op.c == c
  }

  ghost predicate JoinedIn(ops: seq<FlatOp>, n: nat, c: ConnId)
    requires n <= |ops|
  {
    exists i :: 0 <= i < n && IsJoinOf(ops[i], c)
  }

  ghost predicate LeftIn(ops: seq<FlatOp>, n: nat, c: ConnId)
    requires n <= |ops|
  {
    exists i :: 0 <= i < n && IsLeaveOf(ops[i], c)
  }

  lemma InLater(ops: seq<FlatOp>, i: nat, j: nat, c: ConnId)
    requires i < j <= |ops|
    ensures JoinedIn(ops, i, c) || IsJoinOf(ops[i], c) ==> JoinedIn(ops, j, c)
    ensures LeftIn(ops, i, c) || IsLeaveOf(ops[i], c) ==> LeftIn(ops, j, c)
  {}

  /** Who has joined and left in f is who the first n operations say. */
  ghost predicate SaysWho(f: Flat, ops: seq<FlatOp>, n: nat, c: ConnId)
    requires n <= |ops|
  {
    && (c in f.who <==> JoinedIn(ops, n, c))
    && (c in f.who && f.who[c].left <==> LeftIn(ops, n, c))
  }

  lemma WhoStep(f: Flat, op: FlatOp, g: Flat, c: ConnId)
    requires Takes(f, op, g)
    ensures c in g.who <==> c in f.who || IsJoinOf(op, c)
    ensures c in g.who && g.who[c].left <==> (c in f.who && f.who[c].left) || IsLeaveOf(op, c)
    ensures IsJoinOf(op, c) ==> c !in f.who
    ensures IsLeaveOf(op, c) ==> c in f.who && !f.who[c].left
  {}

  lemma SaysWhoStep(f: Flat, g: Flat, ops: seq<FlatOp>, n: nat, c: ConnId)
    requires n < |ops| && Takes(f, ops[n], g) && SaysWho(f, ops, n, c)
    ensures SaysWho(g, ops, n + 1, c)
  {
    WhoStep(f, ops[n], g, c);
  }

  /** So it is along a run from the empty directory. */
  lemma {:induction false} PathWho(fs: seq<Flat>, ops: seq<FlatOp>, n: nat, c: ConnId)
    requires Path(fs, ops) && fs[0].who == map[] && n <= |ops|
    ensures SaysWho(fs[n], ops, n, c)
  {
    if n > 0 {
      PathWho(fs, ops, n - 1, c);
      assert Linked(fs, ops, n - 1);
      SaysWhoStep(fs[n - 1], fs[n], ops, n - 1, c);
    }
  }

  lemma PathOnce(fs: seq<Flat>, ops: seq<FlatOp>, i: nat, j: nat)
    requires Path(fs, ops) && fs[0].who == map[] && i < j < |ops| && ops[i].c == ops[j].c
    ensures ops[i].FlatJoin? && ops[j].FlatLeave?
  {
    var c := ops[i].c;
    PathWho(fs, ops, i, c);
    PathWho(fs, ops, j, c);
    assert Linked(fs, ops, i) && Linked(fs, ops, j);
    WhoStep(fs[i], ops[i], fs[i + 1], c);
    WhoStep(fs[j], ops[j], fs[j + 1], c);
    InLater(ops, i, j, c);
  }

  /** The linearization joins each connection that has joined, leaves each that has left, and each once. */
  lemma OnceEach(ls: seq<Label>, c: ConnId)
    ensures
      var ops := Linearization(ls);
      && (c in Exec(ls).threads <==> JoinedIn(ops, |ops|, c))
      && (c in Exec(ls).threads && HasLeft(Exec(ls), c) <==> LeftIn(ops, |ops|, c))
      && forall i, j :: 0 <= i < j < |ops| && ops[i].c == ops[j].c ==> ops[i].FlatJoin? && ops[j].FlatLeave?
  {
    Linearizable(ls);
    var ops := Linearization(ls);
    var fs :| Path(fs, ops) && fs[0] == Flat(map[], map[]) && fs[|ops|] == View(Exec(ls));
    PathWho(fs, ops, |ops|, c);
    forall i, j | 0 <= i < j < |ops| && ops[i].c == ops[j].c ensures ops[i].FlatJoin? && ops[j].FlatLeave? {
      PathOnce(fs, ops, i, j);
    }
  }
}
