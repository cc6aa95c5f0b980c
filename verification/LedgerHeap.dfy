/**
 registry.Memory: two maps of references to the same records, updated in place. The class
 invariant is the aliasing; every method does to the ledger it stands for what Ledger says.
 */
module LedgerHeap {
  import opened Common
  import opened Ledger

  class Bastion {
    var id: string
    var userID: string
    var daemonToken: string
    var lastSeenAt: int
    var createdAt: int
    var version: string
    var capabilities: seq<string>
    var hostname: string

    constructor (req: Request, token: string, now: int)
      ensures id == req.id && daemonToken == token
      ensures AsRow() == Row(req.userID, token, now, now, req.version, req.capabilities, req.hostname)
    {
      id, userID, daemonToken := req.id, req.userID, token;
      createdAt, lastSeenAt := now, now;
      version, capabilities, hostname := req.version, req.capabilities, req.hostname;
    }

    function AsRow(): Row
      reads this
    {
      Row(userID, daemonToken, lastSeenAt, createdAt, version, capabilities, hostname)
    }

    /** What a rotation writes: all but the owner and the creation time. */
    method Rewrite(req: Request, token: string, now: int)
      modifies this
      ensures id == old(id) && daemonToken == token
      ensures AsRow() == Row(old(userID), token, now, old(createdAt), req.version, req.capabilities, req.hostname)
    {
      daemonToken := token;
      lastSeenAt := now;
      capabilities := req.capabilities;
      version := req.version;
      hostname := req.hostname;
    }
  }

  /** Each of these bastions once, with its token blanked. */
  ghost predicate Lists(out: seq<Record>, book: Book, ids: set<string>) {
    && |out| == |ids|
    && (forall i :: 0 <= i < |out| ==>
          out[i].id in ids && out[i].id in book.rows && out[i].row == Blank(book.rows[out[i].id]))
    && (forall i, j :: 0 <= i < j < |out| ==> out[i].id != out[j].id)
  }

  lemma ListsAdd(out: seq<Record>, book: Book, ids: set<string>, id: string)
    requires Lists(out, book, ids) && id !in ids && id in book.rows
    ensures Lists(out + [Record(id, Blank(book.rows[id]))], book, ids + {id})
  {}

  ghost function RowsOf(byID: map<string, Bastion>): map<string, Row>
    reads byID.Values
  {
    map k | k in byID :: byID[k].AsRow()
  }

  ghost function TokensOf(byToken: map<string, Bastion>): map<string, string>
    reads byToken.Values
  {
    map t | t in byToken :: byToken[t].id
  }

  lemma RowsAdd(byID: map<string, Bastion>, id: string, b: Bastion)
    ensures RowsOf(byID[id := b]) == RowsOf(byID)[id := b.AsRow()]
  {}

  lemma TokensAdd(byToken: map<string, Bastion>, token: string, b: Bastion)
    ensures TokensOf(byToken[token := b]) == TokensOf(byToken)[token := b.id]
  {}

  class Memory {
    var byID: map<string, Bastion>
    var byToken: map<string, Bastion>

    /** Every token leads to the very record that is stored under its id, and that carries the token. */
    ghost predicate Valid()
      reads this, byID.Values, byToken.Values
    {
      && (forall k :: k in byID ==> byID[k].id == k)
      && (forall t :: t in byToken ==>
            && byToken[t].id in byID && byID[byToken[t].id] == byToken[t]
            && byToken[t].daemonToken == t)
    }

    ghost function View(): Book
      reads this, byID.Values, byToken.Values
    {
      Book(Rows(), Tokens())
    }

    constructor ()
      ensures Valid() && View() == Book(map[], map[])
    {
      byID, byToken := map[], map[];
    }

    ghost function Tokens(): map<string, string>
      reads this, byToken.Values
    {
      TokensOf(byToken)
    }

    ghost function Rows(): map<string, Row>
      reads this, byID.Values
    {
      RowsOf(byID)
    }

    /** The token a record carries stops leading to it. */
    method Revoke(existing: Bastion)
      requires Valid() && existing.id in byID && byID[existing.id] == existing
      modifies this`byToken
      ensures Valid() && Rows() == old(Rows()) && Tokens() == old(Tokens()) - {existing.daemonToken}
      ensures forall t :: t in byToken ==> byToken[t] != existing
    {
      byToken := byToken - {existing.daemonToken};
    }

    /** The record is rewritten where it is, and the new token leads to it. */
    method Reissue(existing: Bastion, req: Request, token: string, now: int)
      requires Valid() && existing.id in byID && byID[existing.id] == existing
      requires forall t :: t in byToken ==> byToken[t] != existing
      modifies this`byToken, existing
      ensures Valid()
      ensures Rows() == old(Rows())[old(existing.id) :=
                Row(old(existing.userID), token, now, old(existing.createdAt),
                    req.version, req.capabilities, req.hostname)]
      ensures Tokens() == old(Tokens())[token := old(existing.id)]
    {
      assert forall k :: k in byID && byID[k] == existing ==> k == existing.id;
      existing.Rewrite(req, token, now);
      assert Rows() == old(Rows())[existing.id := existing.AsRow()];
      assert Tokens() == old(Tokens());
      TokensAdd(byToken, token, existing);
      byToken := byToken[token := existing];
    }

    /** A new record, found under its id and its token. */
    method Enrol(req: Request, token: string, now: int)
      requires Valid() && req.id !in byID
      modifies this
      ensures Valid()
      ensures Rows() == old(Rows())[req.id :=
                Row(req.userID, token, now, now, req.version, req.capabilities, req.hostname)]
      ensures Tokens() == old(Tokens())[token := req.id]
      ensures forall k :: k in old(byID) ==> k in byID && byID[k] == old(byID[k])
    {
      var stored := new Bastion(req, token, now);
      RowsAdd(byID, req.id, stored);
      TokensAdd(byToken, token, stored);
      byID := byID[req.id := stored];
      byToken := byToken[token := stored];
    }

    method Register(req: Request, mint: Option<string>, now: int) returns (r: Result<string, Error>)
      requires Valid()
      modifies this, byID.Values
      ensures Valid() && (View(), r) == Ledger.Register(old(View()), req, mint, now)
      ensures forall k :: k in old(byID) ==> k in byID && byID[k] == old(byID[k])
    {
      if req.id == "" || req.userID == "" {
        return Err(Incomplete);
      }
      if req.id in byID {
        var existing := byID[req.id];
        if existing.userID != req.userID {
          return Err(TakenByOther);
        }
        Revoke(existing);
        if mint.None? {
          return Err(MintFailed);
        }
        Reissue(existing, req, mint.value, now);
        return Ok(mint.value);
      }
      if mint.None? {
        return Err(MintFailed);
      }
      Enrol(req, mint.value, now);
      r := Ok(mint.value);
    }

    method Touch(id: string, now: int) returns (r: Result<(), Error>)
      requires Valid()
      modifies byID.Values`lastSeenAt
      ensures Valid() && (View(), r) == Ledger.Touch(old(View()), id, now)
    {
      if id !in byID {
        return Err(UnknownBastion);
      }
      byID[id].lastSeenAt := now;
      assert Rows() == old(Rows())[id := old(Rows())[id].(lastSeen := now)];
      assert Tokens() == old(Tokens());
      r := Ok(());
    }

    method Get(id: string) returns (r: Result<Record, Error>)
      requires Valid()
      ensures r == Ledger.Get(View(), id)
    {
      if id !in byID {
        return Err(UnknownBastion);
      }
      r := Ok(Record(id, Blank(byID[id].AsRow())));
    }

    method VerifyDaemonToken(token: string) returns (r: Result<Record, Error>)
      requires Valid()
      ensures r == Ledger.VerifyDaemonToken(View(), token)
    {
      if token == "" || token !in byToken {
        return Err(UnknownToken);
      }
      var b := byToken[token];
      r := Ok(Record(b.id, Blank(b.AsRow())));
    }

    /** Each bastion of the user once, token blanked, in whatever order the map is walked. */
    method ListByUser(userID: string) returns (out: seq<Record>)
      requires Valid()
      ensures forall i :: 0 <= i < |out| ==>
                out[i].id in Owned(View(), userID) && out[i].row == Blank(View().rows[out[i].id])
      ensures forall i, j :: 0 <= i < j < |out| ==> out[i].id != out[j].id
      ensures |out| == |Owned(View(), userID)|
    {
      out := [];
      var todo := byID.Keys;
      ghost var book := View();
      ghost var listed: set<string> := {};
      while todo != {}
        invariant todo <= byID.Keys
        invariant listed == set id | id in Owned(book, userID) && id !in todo
        invariant Lists(out, book, listed)
      {
        var id :| id in todo;
        todo := todo - {id};
        if byID[id].userID == userID {
          ListsAdd(out, book, listed, id);
          out := out + [Record(id, Blank(byID[id].AsRow()))];
          listed := listed + {id};
        }
      }
      assert listed == Owned(book, userID);
    }
  }
}
