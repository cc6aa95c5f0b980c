/**
 The bastion ledger as values, and what it must be: a function of the history of calls,
 said without reference to the two maps.
 */
module Ledger {
  import opened Common

  datatype Row = Row(
    userID: string,
    token: string,
    lastSeen: int,
    created: int,
    version: string,
    capabilities: seq<string>,
    hostname: string)

  datatype Request = Request(id: string, userID: string, version: string, capabilities: seq<string>, hostname: string) {
    predicate Complete() {
      id != "" && userID != ""
    }
  }

  /** What callers are shown: the row with its token blanked. */
  datatype Record = Record(id: string, row: Row)

  datatype Error = Incomplete | TakenByOther | MintFailed | UnknownBastion | UnknownToken

  /** rows by bastion id; tokens leads from a valid daemon token to the bastion's id. */
  datatype Book = Book(rows: map<string, Row>, tokens: map<string, string>)

  function Blank(row: Row): Row {
    row.(token := "")
  }

  /** Register; mint is what mintToken returns, None standing for its error. */
  function Register(l: Book, req: Request, mint: Option<string>, now: int): (Book, Result<string, Error>) {
    if !req.Complete() then (l, Err(Incomplete))
    else if req.id in l.rows then
      var row := l.rows[req.id];
      if row.userID != req.userID then (l, Err(TakenByOther))
      else
        var revoked := l.tokens - {row.token};
        match mint
        case None => (l.(tokens := revoked), Err(MintFailed))
        case Some(t) =>
          var rotated := Row(row.userID, t, now, row.created, req.version, req.capabilities, req.hostname);
          (Book(l.rows[req.id := rotated], revoked[t := req.id]), Ok(t))
    else
      match mint
      case None => (l, Err(MintFailed))
      case Some(t) =>
        var row := Row(req.userID, t, now, now, req.version, req.capabilities, req.hostname);
        (Book(l.rows[req.id := row], l.tokens[t := req.id]), Ok(t))
  }

  function Touch(l: Book, id: string, now: int): (Book, Result<(), Error>) {
    if id in l.rows then (l.(rows := l.rows[id := l.rows[id].(lastSeen := now)]), Ok(()))
    else (l, Err(UnknownBastion))
  }

  function Get(l: Book, id: string): (r: Result<Record, Error>)
    ensures r.Ok? ==> r.value.id == id && r.value.row.token == ""
  {
    if id in l.rows then Ok(Record(id, Blank(l.rows[id]))) else Err(UnknownBastion)
  }

  /** The record a token leads to. */
  function VerifyDaemonToken(l: Book, token: string): (r: Result<Record, Error>)
    ensures r.Ok? ==> r.value.row.token == ""
  {
    if token != "" && token in l.tokens && l.tokens[token] in l.rows
    then Ok(Record(l.tokens[token], Blank(l.rows[l.tokens[token]])))
    else Err(UnknownToken)
  }

  function Owned(l: Book, user: string): set<string> {
    set id | id in l.rows && l.rows[id].userID == user
  }

  // ---- Histories ----

  datatype Op = Attempt(req: Request, mint: Option<string>, now: int) | Seen(id: string, now: int)

  function Apply(l: Book, op: Op): Book {
    match op
    case Attempt(req, mint, now) => Register(l, req, mint, now).0
    case Seen(id, now) => Touch(l, id, now).0
  }

  function Exec(ops: seq<Op>): Book {
    if ops == [] then Book(map[], map[]) else Apply(Exec(ops[..|ops| - 1]), ops[|ops| - 1])
  }

  lemma ExecThen(ops: seq<Op>, op: Op)
    ensures Exec(ops + [op]) == Apply(Exec(ops), op)
  {
    assert (ops + [op])[..|ops|] == ops;
  }

  /** The user who first registered id with success. */
  function Owner(ops: seq<Op>, id: string): Option<string> {
    if ops == [] then None else
      var front, op := ops[..|ops| - 1], ops[|ops| - 1];
      if Owner(front, id).Some? then Owner(front, id)
      else if op.Attempt? && op.req.id == id && op.req.Complete() && op.mint.Some? then Some(op.req.userID)
      else None
  }

  /** The attempt is by the owner, or there is none yet. */
  predicate OwnerAccepted(ops: seq<Op>, req: Request) {
    req.Complete() && (Owner(ops, req.id).None? || Owner(ops, req.id).value == req.userID)
  }

  /** What the latest owner-accepted attempt to register id returned; None if its mint failed. */
  function LatestToken(ops: seq<Op>, id: string): Option<string> {
    if ops == [] then None else
      var front, op := ops[..|ops| - 1], ops[|ops| - 1];
      if op.Attempt? && op.req.id == id && OwnerAccepted(front, op.req) then op.mint else LatestToken(front, id)
  }

  /** mintToken never returns a token twice, nor the empty one. */
  ghost predicate FreshMints(ops: seq<Op>) {
    && (forall i :: 0 <= i < |ops| && Mints(ops[i]) ==> ops[i].mint != Some(""))
    && (forall i, j :: 0 <= i < j < |ops| && Mints(ops[i]) && Mints(ops[j]) ==> ops[i].mint != ops[j].mint)
  }

  predicate Mints(op: Op) {
    op.Attempt? && op.mint.Some?
  }

  ghost predicate Minted(ops: seq<Op>, token: string) {
    exists i :: 0 <= i < |ops| && Mints(ops[i]) && ops[i].mint == Some(token)
  }

  /** What the history says about one id, and about one token. */
  ghost predicate IdAgrees(ops: seq<Op>, l: Book, id: string) {
    && (id in l.rows <==> Owner(ops, id).Some?)
    && (id in l.rows ==> l.rows[id].userID == Owner(ops, id).value && Minted(ops, l.rows[id].token))
    && (LatestToken(ops, id).Some? ==> id in l.rows && l.rows[id].token == LatestToken(ops, id).value)
  }

  ghost predicate TokenAgrees(ops: seq<Op>, l: Book, token: string, id: string) {
    && (token in l.tokens && l.tokens[token] == id <==> LatestToken(ops, id) == Some(token))
    && (token in l.tokens ==> Minted(ops, token))
  }

  ghost predicate RowsApart(l: Book) {
    forall i, j :: i in l.rows && j in l.rows && l.rows[i].token == l.rows[j].token ==> i == j
  }

  ghost predicate Agrees(ops: seq<Op>, l: Book) {
    && (forall id: string {:trigger IdAgrees(ops, l, id)} :: IdAgrees(ops, l, id))
    && (forall token: string, id: string {:trigger TokenAgrees(ops, l, token, id)} :: TokenAgrees(ops, l, token, id))
    && RowsApart(l)
  }

  lemma MintedThen(front: seq<Op>, ops: seq<Op>)
    requires ops != [] && front == ops[..|ops| - 1]
    ensures forall t :: Minted(front, t) ==> Minted(ops, t)
    ensures Mints(ops[|ops| - 1]) ==> Minted(ops, ops[|ops| - 1].mint.value)
    ensures FreshMints(ops) && Mints(ops[|ops| - 1]) ==> !Minted(front, ops[|ops| - 1].mint.value)
    ensures FreshMints(ops) ==> FreshMints(front)
  {
    forall t | Minted(front, t) ensures Minted(ops, t) {
      var i :| 0 <= i < |front| && Mints(front[i]) && front[i].mint == Some(t);
      assert Mints(ops[i]) && ops[i].mint == Some(t);
    }
  }

  lemma IdStep(front: seq<Op>, ops: seq<Op>, l: Book)
    requires ops != [] && front == ops[..|ops| - 1] && Agrees(front, l)
    ensures forall id: string {:trigger IdAgrees(ops, Apply(l, ops[|ops| - 1]), id)} ::
              IdAgrees(ops, Apply(l, ops[|ops| - 1]), id)
  {
    MintedThen(front, ops);
    var op := ops[|ops| - 1];
    forall id: string ensures IdAgrees(ops, Apply(l, op), id) {
      assert IdAgrees(front, l, id);
      if op.Attempt? { assert IdAgrees(front, l, op.req.id); }
    }
  }

  lemma TokenStep(front: seq<Op>, ops: seq<Op>, l: Book, token: string, id: string)
    requires ops != [] && front == ops[..|ops| - 1] && Agrees(front, l) && FreshMints(ops)
    ensures TokenAgrees(ops, Apply(l, ops[|ops| - 1]), token, id)
  {
    MintedThen(front, ops);
    var op := ops[|ops| - 1];
    assert TokenAgrees(front, l, token, id) && IdAgrees(front, l, id);
    if op.Attempt? {
      assert IdAgrees(front, l, op.req.id) && TokenAgrees(front, l, token, op.req.id);
    }
  }

  lemma RowsStep(front: seq<Op>, ops: seq<Op>, l: Book)
    requires ops != [] && front == ops[..|ops| - 1] && Agrees(front, l) && FreshMints(ops)
    ensures RowsApart(Apply(l, ops[|ops| - 1]))
  {
    MintedThen(front, ops);
    var op := ops[|ops| - 1];
    forall id: string ensures id in l.rows && Mints(op) ==> l.rows[id].token != op.mint.value {
      assert IdAgrees(front, l, id);
    }
  }

  lemma {:induction false} HistoryAgrees(ops: seq<Op>)
    requires FreshMints(ops)
    ensures Agrees(ops, Exec(ops))
  {
    if ops != [] {
      var front := ops[..|ops| - 1];
      MintedThen(front, ops);
      HistoryAgrees(front);
      IdStep(front, ops, Exec(front));
      forall token: string, id: string ensures TokenAgrees(ops, Exec(ops), token, id) {
        TokenStep(front, ops, Exec(front), token, id);
      }
      RowsStep(front, ops, Exec(front));
    }
  }

  // ---- What the ledger promises ----

  lemma {:induction false} LatestIsMinted(ops: seq<Op>, id: string)
    requires LatestToken(ops, id).Some?
    ensures Minted(ops, LatestToken(ops, id).value)
  {
    var front, op := ops[..|ops| - 1], ops[|ops| - 1];
    MintedThen(front, ops);
    if !(op.Attempt? && op.req.id == id && OwnerAccepted(front, op.req)) { LatestIsMinted(front, id); }
  }

  /** A token verifies to a bastion exactly when that bastion's latest accepted attempt returned it. */
  lemma VerifiesExactly(ops: seq<Op>, token: string, id: string)
    requires FreshMints(ops)
    ensures
      (exists row :: VerifyDaemonToken(Exec(ops), token) == Ok(Record(id, row))) <==>
      LatestToken(ops, id) == Some(token)
  {
    HistoryAgrees(ops);
    var l := Exec(ops);
    assert TokenAgrees(ops, l, token, id) && IdAgrees(ops, l, id);
    if LatestToken(ops, id) == Some(token) {
      LatestIsMinted(ops, id);
      assert VerifyDaemonToken(l, token) == Ok(Record(id, Blank(l.rows[id])));
    }
  }

  /**
   What an attempt is answered: a token exactly if it is the owner's and mints one, and that
   token, the minted one, then verifies to the bastion's record; and why it is refused else.
   */
  lemma RegisterAnswers(ops: seq<Op>, req: Request, mint: Option<string>, now: int)
    requires FreshMints(ops + [Attempt(req, mint, now)])
    ensures
      var r, after := Register(Exec(ops), req, mint, now).1, Exec(ops + [Attempt(req, mint, now)]);
      var owner := Owner(ops, req.id);
      && (r.Ok? <==> OwnerAccepted(ops, req) && mint.Some?)
      && (r.Ok? ==> r.value == mint.value && VerifyDaemonToken(after, r.value) == Get(after, req.id)
                    && Get(after, req.id).Ok? && Get(after, req.id).value.id == req.id)
      && (r == Err(Incomplete) <==> req.id == "" || req.userID == "")
      && (r == Err(TakenByOther) <==> req.id != "" && req.userID != "" && owner.Some? && owner.value != req.userID)
      && (r == Err(MintFailed) <==> OwnerAccepted(ops, req) && mint.None?)
  {
    var all := ops + [Attempt(req, mint, now)];
    MintedThen(ops, all);
    HistoryAgrees(ops);
    assert IdAgrees(ops, Exec(ops), req.id);
    ExecThen(ops, Attempt(req, mint, now));
    assert mint.Some? ==> mint != Some("") by {
      assert all[|ops|] == Attempt(req, mint, now);
      assert Mints(all[|ops|]) ==> all[|ops|].mint != Some("");
    }
  }

  /**
   An accepted attempt that mints puts what was asked for on record, under its owner and
   the old creation time if there is one, and touches no other bastion's record.
   */
  lemma RegisteredRecord(ops: seq<Op>, req: Request, token: string, now: int)
    requires FreshMints(ops) && OwnerAccepted(ops, req)
    ensures
      var before, after := Exec(ops), Exec(ops + [Attempt(req, Some(token), now)]);
      var created := if Get(before, req.id).Ok? then Get(before, req.id).value.row.created else now;
      && Get(after, req.id) ==
         Ok(Record(req.id, Row(req.userID, "", now, created, req.version, req.capabilities, req.hostname)))
      && forall id :: id != req.id ==> Get(after, id) == Get(before, id)
  {
    HistoryAgrees(ops);
    assert IdAgrees(ops, Exec(ops), req.id);
    ExecThen(ops, Attempt(req, Some(token), now));
  }

  /** Once registered, a bastion keeps its owner and its creation time. */
  lemma {:induction false} OwnerForever(ops: seq<Op>, more: seq<Op>, id: string)
    requires id in Exec(ops).rows
    ensures id in Exec(ops + more).rows
    ensures Exec(ops + more).rows[id].userID == Exec(ops).rows[id].userID
    ensures Exec(ops + more).rows[id].created == Exec(ops).rows[id].created
    decreases |more|
  {
    if more == [] {
      assert ops + more == ops;
    } else {
      var front, last := more[..|more| - 1], more[|more| - 1];
      OwnerForever(ops, front, id);
      ExecThen(ops + front, last);
      assert ops + more == ops + front + [last];
    }
  }

  /** A failed attempt revokes the owner's old token if it got as far as minting; nothing else changes. */
  lemma FailedBook(l: Book, req: Request, mint: Option<string>, now: int)
    requires Register(l, req, mint, now).1.Err?
    ensures
      Register(l, req, mint, now).0 ==
      if req.Complete() && req.id in l.rows && l.rows[req.id].userID == req.userID
      then l.(tokens := l.tokens - {l.rows[req.id].token}) else l
  {}

  lemma FailedToken(ops: seq<Op>, req: Request, mint: Option<string>, now: int, token: string)
    requires Agrees(ops, Exec(ops)) && Register(Exec(ops), req, mint, now).1.Err?
    ensures
      var l := Exec(ops);
      VerifyDaemonToken(Register(l, req, mint, now).0, token) ==
      if OwnerAccepted(ops, req) && LatestToken(ops, req.id) == Some(token) then Err(UnknownToken)
      else VerifyDaemonToken(l, token)
  {
    var l := Exec(ops);
    FailedBook(l, req, mint, now);
    assert IdAgrees(ops, l, req.id) && TokenAgrees(ops, l, token, req.id);
    if token in l.tokens { assert TokenAgrees(ops, l, token, l.tokens[token]) && IdAgrees(ops, l, l.tokens[token]); }
  }

  /**
   An attempt that fails changes no record, and no token either, but that an accepted one
   whose mint fails revokes the token the bastion had.
   */
  lemma FailureChanges(ops: seq<Op>, req: Request, mint: Option<string>, now: int)
    requires FreshMints(ops) && Register(Exec(ops), req, mint, now).1.Err?
    ensures
      var before, after := Exec(ops), Exec(ops + [Attempt(req, mint, now)]);
      && (forall id :: Get(after, id) == Get(before, id))
      && forall token :: VerifyDaemonToken(after, token) ==
           if OwnerAccepted(ops, req) && LatestToken(ops, req.id) == Some(token) then Err(UnknownToken)
           else VerifyDaemonToken(before, token)
  {
    HistoryAgrees(ops);
    ExecThen(ops, Attempt(req, mint, now));
    FailedBook(Exec(ops), req, mint, now);
    forall token: string
      ensures VerifyDaemonToken(Exec(ops + [Attempt(req, mint, now)]), token) ==
              if OwnerAccepted(ops, req) && LatestToken(ops, req.id) == Some(token) then Err(UnknownToken)
              else VerifyDaemonToken(Exec(ops), token)
    {
      FailedToken(ops, req, mint, now, token);
    }
  }

  /** Every row has its token in force exactly when no bastion's latest accepted attempt failed to mint. */
  lemma MapsInBijection(ops: seq<Op>)
    requires FreshMints(ops)
    ensures forall t :: t in Exec(ops).tokens ==>
              Exec(ops).tokens[t] in Exec(ops).rows && Exec(ops).rows[Exec(ops).tokens[t]].token == t
    ensures
      (forall id :: id in Exec(ops).rows ==>
         Exec(ops).rows[id].token in Exec(ops).tokens && Exec(ops).tokens[Exec(ops).rows[id].token] == id) <==>
      (forall id :: id in Exec(ops).rows ==> LatestToken(ops, id).Some?)
  {
    HistoryAgrees(ops);
    var l := Exec(ops);
    forall t | t in l.tokens ensures l.tokens[t] in l.rows && l.rows[l.tokens[t]].token == t {
      assert TokenAgrees(ops, l, t, l.tokens[t]) && IdAgrees(ops, l, l.tokens[t]);
    }
    forall id | id in l.rows
      ensures l.rows[id].token in l.tokens && l.tokens[l.rows[id].token] == id <==> LatestToken(ops, id).Some?
    {
      assert IdAgrees(ops, l, id) && TokenAgrees(ops, l, l.rows[id].token, id);
    }
  }

  /** A touch by id is seen through the token. */
  lemma TouchSeenByToken(ops: seq<Op>, id: string, token: string, now: int)
    requires FreshMints(ops) && LatestToken(ops, id) == Some(token)
    ensures
      var l := Exec(ops + [Seen(id, now)]);
      && VerifyDaemonToken(l, token).Ok?
      && VerifyDaemonToken(l, token).value.id == id
      && VerifyDaemonToken(l, token).value.row == Blank(Exec(ops).rows[id]).(lastSeen := now)
  {
    HistoryAgrees(ops);
    LatestIsMinted(ops, id);
    ExecThen(ops, Seen(id, now));
    assert TokenAgrees(ops, Exec(ops), token, id) && IdAgrees(ops, Exec(ops), id);
  }

  /** A record is shown exactly if the bastion was ever registered, and then under its owner. */
  lemma GetExactly(ops: seq<Op>, id: string)
    requires FreshMints(ops)
    ensures
      match Owner(ops, id)
      case None => Get(Exec(ops), id) == Err(UnknownBastion)
      case Some(user) => Get(Exec(ops), id).Ok? && Get(Exec(ops), id).value.row.userID == user
  {
    HistoryAgrees(ops);
    assert IdAgrees(ops, Exec(ops), id);
  }

  /** A touch is refused for unknown bastions, and changes the last-seen time of one record only. */
  lemma TouchChanges(ops: seq<Op>, id: string, now: int)
    requires FreshMints(ops)
    ensures
      var l, after := Exec(ops), Exec(ops + [Seen(id, now)]);
      && Touch(l, id, now).1 == (if Owner(ops, id).Some? then Ok(()) else Err(UnknownBastion))
      && (forall j :: Get(after, j) ==
            if j == id && Get(l, j).Ok? then Ok(Record(id, Get(l, j).value.row.(lastSeen := now))) else Get(l, j))
      && forall token :: VerifyDaemonToken(after, token) ==
           match VerifyDaemonToken(l, token)
           case Err(e) => Err(e)
           case Ok(record) => Get(after, record.id)
  {
    HistoryAgrees(ops);
    ExecThen(ops, Seen(id, now));
    assert IdAgrees(ops, Exec(ops), id);
  }

  /** The bastions listed for a user are those first registered by that user. */
  lemma OwnedExactly(ops: seq<Op>, user: string, id: string)
    requires FreshMints(ops)
    ensures id in Owned(Exec(ops), user) <==> Owner(ops, id) == Some(user)
  {
    HistoryAgrees(ops);
    assert IdAgrees(ops, Exec(ops), id);
  }

  ghost function CountPer(l: Book, users: set<string>): map<string, nat> {
    map u | u in users :: |Owned(l, u)|
  }

  /** The lists of distinct users who own everything are disjoint and make up the ledger. */
  lemma {:induction false} ListsPartition(l: Book, users: set<string>)
    requires forall id :: id in l.rows ==> l.rows[id].userID in users
    ensures forall u, v :: u in users && v in users && u != v ==> Owned(l, u) !! Owned(l, v)
    ensures forall id :: id in l.rows <==> exists u :: u in users && id in Owned(l, u)
    ensures SumOver(CountPer(l, users), users) == |l.rows|
  {
    forall id | id in l.rows ensures exists u :: u in users && id in Owned(l, u) {
      assert id in Owned(l, l.rows[id].userID);
    }
    assert OwnedBy(l, users) == l.rows.Keys;
    OwnedSum(l, users, users);
  }

  ghost function OwnedBy(l: Book, us: set<string>): set<string> {
    set id | id in l.rows && l.rows[id].userID in us
  }

  lemma OwnedSplit(l: Book, us: set<string>, u: string)
    requires u in us
    ensures |OwnedBy(l, us)| == |Owned(l, u)| + |OwnedBy(l, us - {u})|
  {
    assert OwnedBy(l, us) == Owned(l, u) + OwnedBy(l, us - {u});
    assert Owned(l, u) !! OwnedBy(l, us - {u});
  }

  lemma {:induction false} OwnedSum(l: Book, users: set<string>, us: set<string>)
    requires us <= users
    ensures SumOver(CountPer(l, users), us) == |OwnedBy(l, us)|
    decreases |us|
  {
    if us == {} {
      assert OwnedBy(l, us) == {};
    } else {
      var u :| u in us;
      SumTake(CountPer(l, users), us, u);
      OwnedSum(l, users, us - {u});
      OwnedSplit(l, us, u);
    }
  }
}
