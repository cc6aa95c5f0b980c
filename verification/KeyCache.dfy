/**
 The JWKS cache of auth.go: reading a key set into keys, and the timed cache shared by any
 number of calls that check, fetch, store and read back in separate steps.
 */
module KeyCache {
  import opened Common
  import opened TokenCodec

  // ---- A key set document ----

  datatype Jwk = Jwk(kid: string, kty: string, n: string, e: string)

  datatype Key = Key(modulus: nat, exponent: int)

  /** The key an entry stands for; entries of another type or with bad base64 are skipped. */
  function KeyOf(k: Jwk): Option<Key> {
    if k.kty != "RSA" then None
    else
      match (Base64URLDecode(k.n), Base64URLDecode(k.e))
      case (Ok(n), Ok(e)) => Some(Key(BigEndian(n), ExponentOf(e)))
      case _ => None
  }

  /** An entry gives a key exactly if it is an RSA entry whose two fields decode, and then the key they spell. */
  lemma KeyExactly(k: Jwk, key: Key)
    ensures KeyOf(k) == Some(key) <==>
            && k.kty == "RSA" && Base64URLDecode(k.n).Ok? && Base64URLDecode(k.e).Ok?
            && key.modulus == BigEndian(Base64URLDecode(k.n).value)
            && key.exponent == ExponentOf(Base64URLDecode(k.e).value)
  {
    assert key == Key(key.modulus, key.exponent);
  }

  type KeySet = map<string, Key>

  /** What a document comes to: ids in order, each with its key if it has a usable one. */
  datatype Entry = Entry(kid: string, key: Option<Key>)

  function Entries(doc: seq<Jwk>): (es: seq<Entry>)
    ensures |es| == |doc|
  {
    seq(|doc|, i requires 0 <= i < |doc| => Entry(doc[i].kid, KeyOf(doc[i])))
  }

  /** Entered in order; a later usable entry replaces an earlier one of the same id. */
  function Assemble(es: seq<Entry>): KeySet {
    if es == [] then map[]
    else
      var e := es[|es| - 1];
      var before := Assemble(es[..|es| - 1]);
      if e.key.Some? then before[e.kid := e.key.value] else before
  }

  /** Entry i is the last usable one for its id. */
  ghost predicate Wins(es: seq<Entry>, i: nat) {
    && i < |es| && es[i].key.Some?
    && forall j :: i < j < |es| && es[j].kid == es[i].kid ==> es[j].key.None?
  }

  lemma {:induction false} WinnersAssemble(es: seq<Entry>, i: nat)
    requires Wins(es, i)
    ensures es[i].kid in Assemble(es) && Assemble(es)[es[i].kid] == es[i].key.value
  {
    if i < |es| - 1 {
      assert Wins(es[..|es| - 1], i);
      WinnersAssemble(es[..|es| - 1], i);
    }
  }

  /** The key set holds an id exactly if some entry for it wins, and then that entry's key. */
  lemma {:induction false} AssembledWins(es: seq<Entry>, kid: string)
    requires kid in Assemble(es)
    ensures exists i: nat :: Wins(es, i) && es[i].kid == kid && Assemble(es)[kid] == es[i].key.value
  {
    var front, e := es[..|es| - 1], es[|es| - 1];
    if e.key.Some? && e.kid == kid {
      assert Wins(es, |es| - 1);
    } else {
      AssembledWins(front, kid);
      var i: nat :| Wins(front, i) && front[i].kid == kid && Assemble(front)[kid] == front[i].key.value;
      assert Wins(es, i);
    }
  }

  /** What a document says of an id: the key of the last of its entries that gives one. */
  lemma DocumentKeys(doc: seq<Jwk>, kid: string, key: Key)
    ensures
      var keys := Assemble(Entries(doc));
      kid in keys && keys[kid] == key <==>
      exists i :: 0 <= i < |doc| && doc[i].kid == kid && KeyOf(doc[i]) == Some(key) &&
                  forall j :: i < j < |doc| && doc[j].kid == kid ==> KeyOf(doc[j]).None?
  {
    var es := Entries(doc);
    if kid in Assemble(es) && Assemble(es)[kid] == key {
      AssembledWins(es, kid);
      var i: nat :| Wins(es, i) && es[i].kid == kid && Assemble(es)[kid] == es[i].key.value;
      assert doc[i].kid == kid && KeyOf(doc[i]) == Some(key);
      forall j | i < j < |doc| && doc[j].kid == kid ensures KeyOf(doc[j]).None? { assert es[j].kid == kid; }
    }
    forall i: nat | i < |doc| && doc[i].kid == kid && KeyOf(doc[i]) == Some(key) &&
                    forall j :: i < j < |doc| && doc[j].kid == kid ==> KeyOf(doc[j]).None?
      ensures kid in Assemble(es) && Assemble(es)[kid] == key
    {
      assert Wins(es, i);
      WinnersAssemble(es, i);
    }
  }

  /** A key published by its bytes is read back, if its exponent fits an int. */
  lemma KeyRoundTrip(kid: string, n: seq<byte>, e: seq<byte>)
    requires BigEndian(e) < 0x8000_0000_0000_0000
    ensures KeyOf(Jwk(kid, "RSA", Encode(n), Encode(e))) == Some(Key(BigEndian(n), BigEndian(e)))
  {
    DecodeRoundTrip(n);
    DecodeRoundTrip(e);
  }

  /** The loop of refresh. */
  method ReadKeys(doc: seq<Jwk>) returns (keys: KeySet)
    ensures keys == Assemble(Entries(doc))
  {
    keys := map[];
    ghost var es := Entries(doc);
    for n := 0 to |doc|
      invariant keys == Assemble(es[..n])
    {
      assert es[..n + 1][..n] == es[..n];
      var key := ReadKey(doc[n]);
      if key.Some? {
        keys := keys[doc[n].kid := key.value];
      }
    }
    assert es[..|doc|] == es;
  }

  /** One turn of it. */
  method ReadKey(k: Jwk) returns (key: Option<Key>)
    ensures key == KeyOf(k)
  {
    if k.kty != "RSA" {
      return None;
    }
    var n := Base64URLDecode(k.n);
    if n.Err? {
      return None;
    }
    var e := Base64URLDecode(k.e);
    if e.Err? {
      return None;
    }
    var exponent := Exponent(e.value);
    key := Some(Key(BigEndian(n.value), exponent));
  }

  /** The verifier's cache fields, used by one call at a time. */
  class Verifier {
    const refreshInterval: int
    var keys: KeySet
    var keysAt: Option<int>       // None before the first store

    constructor (refreshInterval: int)
      ensures this.refreshInterval == refreshInterval && keys == map[] && keysAt == None
    {
      this.refreshInterval, keys, keysAt := refreshInterval, map[], None;
    }

    predicate Fresh(now: int)
      reads this
    {
      keysAt.Some? && now - keysAt.value < refreshInterval
    }

    /** refresh; fetched is the parsed document, None if fetching or parsing failed. */
    method Refresh(fetched: Option<seq<Jwk>>, now: int) returns (ok: bool)
      modifies this
      ensures ok == fetched.Some?
      ensures ok ==> keys == Assemble(Entries(fetched.value)) && keysAt == Some(now)
      ensures !ok ==> keys == old(keys) && keysAt == old(keysAt)
    {
      if fetched.None? {
        return false;
      }
      var read := ReadKeys(fetched.value);
      keys, keysAt := read, Some(now);
      ok := true;
    }

    /**
     keyFor with nobody interleaved: the cache answers if the store is younger than the
     interval and holds the id; else the document fetched is stored, and answers or does not.
     */
    method KeyFor(kid: string, now: int, fetched: Option<seq<Jwk>>, later: int) returns (key: Option<Key>)
      modifies this
      ensures
        if old(keysAt).Some? && now < old(keysAt).value + refreshInterval && kid in old(keys)
        then key == Some(old(keys)[kid]) && keys == old(keys) && keysAt == old(keysAt)
        else
          match fetched
          case None => key == None && keys == old(keys) && keysAt == old(keysAt)
          case Some(doc) =>
            && keys == Assemble(Entries(doc)) && keysAt == Some(later)
            && key == if kid in keys then Some(keys[kid]) else None
    {
      if Fresh(now) && kid in keys {
        return Some(keys[kid]);
      }
      var ok := Refresh(fetched, later);
      if ok && kid in keys {
        return Some(keys[kid]);
      }
      return None;
    }
  }

  // ---- The cache under concurrent calls ----

  /** A document the endpoint served, and the call it was served to. */
  datatype Reply = Reply(call: nat, keys: KeySet)

  /** One store: the keys and time written together, which reply they are, and whose. */
  datatype Store = Store(keys: KeySet, at: int, turn: nat, call: nat)

  datatype Pc =
    | Fetching                                // not cached, or too old: asking the endpoint
    | Fetched(keys: KeySet, turn: nat)        // about to take the write lock
    | Stored(mine: nat)                       // about to read back
    | Hit(key: Key, store: nat, at: int)      // returned from the cache, checked at that time
    | Found(key: Key, mine: nat, store: nat)
    | NotFound(mine: nat, store: nat)
    | Failed

  datatype Call = Call(kid: string, pc: Pc)

  /** replies are the documents in the order they were served, a later one being the newer. */
  datatype State = State(
    interval: int,
    now: int,
    keys: KeySet,
    keysAt: Option<int>,
    stores: seq<Store>,
    calls: map<nat, Call>,
    replies: seq<Reply>)

  datatype Label =
    | Tick(d: nat)
    | Check(k: nat, kid: string)
    | Serve(k: nat, keys: KeySet)
    | Fail(k: nat)
    | Save(k: nat)
    | ReadBack(k: nat)

  function Init(interval: int, start: int): State {
    State(interval, start, map[], None, [], map[], [])
  }

  predicate Enabled(s: State, l: Label) {
    match l
    case Tick(_) => true
    case Check(k, _) => k !in s.calls
    case Serve(k, _) => k in s.calls && s.calls[k].pc.Fetching?
    case Fail(k) => k in s.calls && s.calls[k].pc.Fetching?
    case Save(k) => k in s.calls && s.calls[k].pc.Fetched?
    case ReadBack(k) => k in s.calls && s.calls[k].pc.Stored?
  }

  function To(s: State, k: nat, pc: Pc): map<nat, Call>
    requires k in s.calls
  {
    s.calls[k := s.calls[k].(pc := pc)]
  }

  /** The number of the latest store, when there is one. */
  function Latest(s: State): nat {
    if |s.stores| == 0 then 0 else |s.stores| - 1
  }

  function Fire(s: State, l: Label): State
    requires Enabled(s, l)
  {
    match l
    case Tick(d) => s.(now := s.now + d)
    case Check(k, kid) =>
      var pc := if s.keysAt.Some? && s.now - s.keysAt.value < s.interval && kid in s.keys
                then Hit(s.keys[kid], Latest(s), s.now) else Fetching;
      s.(calls := s.calls[k := Call(kid, pc)])
    case Serve(k, keys) =>
      s.(calls := To(s, k, Fetched(keys, |s.replies|)), replies := s.replies + [Reply(k, keys)])
    case Fail(k) => s.(calls := To(s, k, Failed))
    case Save(k) =>
      var pc := s.calls[k].pc;
      s.(keys := pc.keys, keysAt := Some(s.now), stores := s.stores + [Store(pc.keys, s.now, pc.turn, k)],
         calls := To(s, k, Stored(|s.stores|)))
    case ReadBack(k) =>
      var c := s.calls[k];
      var pc := if c.kid in s.keys then Found(s.keys[c.kid], c.pc.mine, Latest(s)) else NotFound(c.pc.mine, Latest(s));
      s.(calls := To(s, k, pc))
  }

  function Step(s: State, l: Label): State {
    if Enabled(s, l) then Fire(s, l) else s
  }

  function Exec(interval: int, start: int, ls: seq<Label>): State {
    if ls == [] then Init(interval, start) else Step(Exec(interval, start, ls[..|ls| - 1]), ls[|ls| - 1])
  }

  lemma ExecThen(interval: int, start: int, ls: seq<Label>, l: Label)
    ensures Exec(interval, start, ls + [l]) == Step(Exec(interval, start, ls), l)
  {
    assert (ls + [l])[..|ls|] == ls;
  }

  // ---- The invariant ----

  /** keys and keysAt are those of the latest store. */
  predicate FieldsOk(s: State) {
    if s.stores == [] then s.keys == map[] && s.keysAt == None
    else s.keys == s.stores[|s.stores| - 1].keys && s.keysAt == Some(s.stores[|s.stores| - 1].at)
  }

  /** Stores happen in the order of their times. */
  ghost predicate TimesOk(s: State) {
    && (forall i, j :: 0 <= i <= j < |s.stores| ==> s.stores[i].at <= s.stores[j].at)
    && (forall i :: 0 <= i < |s.stores| ==> s.stores[i].at <= s.now)
  }

  /** Reply number t is these keys, and was served to call k and k only once. */
  ghost predicate ServedAs(s: State, k: nat, t: nat, keys: KeySet) {
    && t < |s.replies| && s.replies[t].keys == keys
    && forall u :: 0 <= u < |s.replies| ==> (s.replies[u].call == k <==> u == t)
  }

  ghost predicate NeverServed(s: State, k: nat) {
    forall u :: 0 <= u < |s.replies| ==> s.replies[u].call != k
  }

  /** Store i is call k's, and its only one, and holds what k was served. */
  ghost predicate StoredBy(s: State, i: nat, k: nat) {
    && i < |s.stores| && (forall j :: 0 <= j < |s.stores| ==> (s.stores[j].call == k <==> j == i))
    && ServedAs(s, k, s.stores[i].turn, s.stores[i].keys)
  }

  ghost predicate NeverStored(s: State, k: nat) {
    forall i :: 0 <= i < |s.stores| ==> s.stores[i].call != k
  }

  ghost predicate CallOk(s: State, k: nat) {
    if k !in s.calls then NeverStored(s, k) && NeverServed(s, k)
    else
      var kid := s.calls[k].kid;
      match s.calls[k].pc
      case Fetching => NeverStored(s, k) && NeverServed(s, k)
      case Failed => NeverStored(s, k) && NeverServed(s, k)
      case Fetched(keys, turn) => NeverStored(s, k) && ServedAs(s, k, turn, keys)
      case Stored(mine) => StoredBy(s, mine, k)
      case Hit(key, store, at) =>
        && NeverStored(s, k) && NeverServed(s, k)
        && store < |s.stores| && kid in s.stores[store].keys && s.stores[store].keys[kid] == key
        && s.stores[store].at <= at <= s.now && at - s.stores[store].at < s.interval
        && forall j :: store < j < |s.stores| ==> at <= s.stores[j].at
      case Found(key, mine, store) =>
        && StoredBy(s, mine, k) && mine <= store < |s.stores|
        && kid in s.stores[store].keys && s.stores[store].keys[kid] == key
      case NotFound(mine, store) =>
        && StoredBy(s, mine, k) && mine <= store < |s.stores| && kid !in s.stores[store].keys
  }

  ghost predicate Inv(s: State) {
    FieldsOk(s) && TimesOk(s) && forall k: nat {:trigger CallOk(s, k)} :: CallOk(s, k)
  }

  /** s' goes on from s without a store or a reply for call k. */
  ghost predicate Continues(s: State, s': State, k: nat) {
    && s'.interval == s.interval && s.now <= s'.now
    && s.stores <= s'.stores && s.replies <= s'.replies
    && (forall i :: |s.stores| <= i < |s'.stores| ==> s'.stores[i].call != k && s.now <= s'.stores[i].at)
    && (forall i :: |s.replies| <= i < |s'.replies| ==> s'.replies[i].call != k)
  }

  lemma ServedFrame(s: State, s': State, k: nat)
    requires Continues(s, s', k)
    ensures NeverServed(s, k) ==> NeverServed(s', k)
    ensures NeverStored(s, k) ==> NeverStored(s', k)
    ensures forall t: nat, keys :: ServedAs(s, k, t, keys) ==> ServedAs(s', k, t, keys)
  {
    assert forall u :: 0 <= u < |s.replies| ==> s'.replies[u] == s.replies[u];
    assert forall i :: 0 <= i < |s.stores| ==> s'.stores[i] == s.stores[i];
  }

  lemma StoredFrame(s: State, s': State, i: nat, k: nat)
    requires Continues(s, s', k) && StoredBy(s, i, k)
    ensures StoredBy(s', i, k)
  {
    ServedFrame(s, s', k);
    assert forall j :: 0 <= j < |s.stores| ==> s'.stores[j] == s.stores[j];
  }

  lemma HitFrame(s: State, s': State, k: nat)
    requires Continues(s, s', k) && k in s.calls && s.calls[k].pc.Hit? && CallOk(s, k)
    requires k in s'.calls && s'.calls[k] == s.calls[k]
    ensures CallOk(s', k)
  {
    ServedFrame(s, s', k);
    assert forall j :: 0 <= j < |s.stores| ==> s'.stores[j] == s.stores[j];
  }

  /** What other calls do, and the clock, leave a call's part of the invariant as it is. */
  lemma CallFrame(s: State, s': State, k: nat)
    requires Continues(s, s', k) && CallOk(s, k)
    requires (k in s'.calls <==> k in s.calls) && (k in s.calls ==> s'.calls[k] == s.calls[k])
    ensures CallOk(s', k)
  {
    ServedFrame(s, s', k);
    if k in s.calls {
      match s.calls[k].pc
      case Stored(mine) => StoredFrame(s, s', mine, k);
      case Found(_, mine, _) => StoredFrame(s, s', mine, k);
      case NotFound(mine, _) => StoredFrame(s, s', mine, k);
      case Hit(_, _, _) => HitFrame(s, s', k);
      case _ =>
    }
  }

  lemma SaveSelf(s: State, k: nat)
    requires CallOk(s, k) && Enabled(s, Save(k))
    ensures CallOk(Fire(s, Save(k)), k)
  {
    var s' := Fire(s, Save(k));
    assert forall j :: 0 <= j < |s.stores| ==> s'.stores[j] == s.stores[j];
    assert s'.replies == s.replies;
  }

  lemma ServeSelf(s: State, k: nat, keys: KeySet)
    requires CallOk(s, k) && Enabled(s, Serve(k, keys))
    ensures CallOk(Fire(s, Serve(k, keys)), k)
  {
    var s' := Fire(s, Serve(k, keys));
    assert s'.stores == s.stores;
    assert forall u :: 0 <= u < |s.replies| ==> s'.replies[u] == s.replies[u];
  }

  lemma CheckSelf(s: State, k: nat, kid: string)
    requires CallOk(s, k) && FieldsOk(s) && TimesOk(s) && Enabled(s, Check(k, kid))
    ensures CallOk(Fire(s, Check(k, kid)), k)
  {}

  lemma ReadBackSelf(s: State, k: nat)
    requires CallOk(s, k) && FieldsOk(s) && Enabled(s, ReadBack(k))
    ensures CallOk(Fire(s, ReadBack(k)), k)
  {}

  lemma FailSelf(s: State, k: nat)
    requires CallOk(s, k) && Enabled(s, Fail(k))
    ensures CallOk(Fire(s, Fail(k)), k)
  {}

  lemma OtherContinues(s: State, l: Label, k: nat)
    requires Enabled(s, l) && (l.Tick? || l.k != k)
    ensures Continues(s, Fire(s, l), k)
    ensures k in Fire(s, l).calls <==> k in s.calls
    ensures k in s.calls ==> Fire(s, l).calls[k] == s.calls[k]
  {}

  lemma CallStep(s: State, l: Label)
    requires Inv(s) && Enabled(s, l)
    ensures forall k: nat {:trigger CallOk(Fire(s, l), k)} :: CallOk(Fire(s, l), k)
  {
    forall k: nat ensures CallOk(Fire(s, l), k) {
      assert CallOk(s, k);
      if l.Tick? || l.k != k {
        OtherContinues(s, l, k);
        CallFrame(s, Fire(s, l), k);
      } else {
        match l
        case Check(_, kid) => CheckSelf(s, k, kid);
        case Serve(_, keys) => ServeSelf(s, k, keys);
        case Fail(_) => FailSelf(s, k);
        case Save(_) => SaveSelf(s, k);
        case ReadBack(_) => ReadBackSelf(s, k);
      }
    }
  }

  lemma InvStep(s: State, l: Label)
    requires Inv(s)
    ensures Inv(Step(s, l)) && Step(s, l).interval == s.interval
  {
    if Enabled(s, l) { CallStep(s, l); }
  }

  lemma {:induction false} InvAlways(interval: int, start: int, ls: seq<Label>)
    ensures Inv(Exec(interval, start, ls)) && Exec(interval, start, ls).interval == interval
  {
    if ls != [] {
      InvAlways(interval, start, ls[..|ls| - 1]);
      InvStep(Exec(interval, start, ls[..|ls| - 1]), ls[|ls| - 1]);
    }
  }

  // ---- Bounded staleness ----

  /** The two fields always come from one store, the latest. */
  lemma {:induction false} FieldsFromOneStore(interval: int, start: int, ls: seq<Label>)
    requires Exec(interval, start, ls).keysAt.Some?
    ensures
      var s := Exec(interval, start, ls);
      |s.stores| > 0 && s.keys == s.stores[|s.stores| - 1].keys && s.keysAt == Some(s.stores[|s.stores| - 1].at)
  {
    InvAlways(interval, start, ls);
  }

  /** A cached answer is from the store then latest, and that store was younger than the interval. */
  lemma HitIsFresh(interval: int, start: int, ls: seq<Label>, k: nat)
    requires k in Exec(interval, start, ls).calls && Exec(interval, start, ls).calls[k].pc.Hit?
    ensures
      var s := Exec(interval, start, ls);
      var Call(kid, Hit(key, store, at)) := s.calls[k];
      && store < |s.stores| && kid in s.stores[store].keys && s.stores[store].keys[kid] == key
      && s.stores[store].at <= at < s.stores[store].at + interval
      && forall j :: store < j < |s.stores| ==> at <= s.stores[j].at
  {
    InvAlways(interval, start, ls);
    assert CallOk(Exec(interval, start, ls), k);
  }

  /** A check is answered from the cache exactly if the latest store is younger than the interval and holds the id. */
  lemma CheckExactly(interval: int, start: int, ls: seq<Label>, k: nat, kid: string)
    requires k !in Exec(interval, start, ls).calls
    ensures
      var s, n := Exec(interval, start, ls), |Exec(interval, start, ls).stores|;
      var pc := Exec(interval, start, ls + [Check(k, kid)]).calls[k].pc;
      if n > 0 && s.now < s.stores[n - 1].at + interval && kid in s.stores[n - 1].keys
      then pc == Hit(s.stores[n - 1].keys[kid], n - 1, s.now) else pc == Fetching
  {
    InvAlways(interval, start, ls);
    ExecThen(interval, start, ls, Check(k, kid));
  }

  /** After its store a call is answered from the latest store, whoever made it, at that moment. */
  lemma ReadBackExactly(interval: int, start: int, ls: seq<Label>, k: nat)
    requires Enabled(Exec(interval, start, ls), ReadBack(k))
    ensures
      var s, n := Exec(interval, start, ls), |Exec(interval, start, ls).stores|;
      var Call(kid, pc) := s.calls[k];
      && n > 0
      && Exec(interval, start, ls + [ReadBack(k)]).calls[k].pc ==
         if kid in s.stores[n - 1].keys then Found(s.stores[n - 1].keys[kid], pc.mine, n - 1)
         else NotFound(pc.mine, n - 1)
  {
    InvAlways(interval, start, ls);
    assert CallOk(Exec(interval, start, ls), k);
    ExecThen(interval, start, ls, ReadBack(k));
  }

  /** The call answered after a refresh of its own. */
  predicate Missed(s: State, k: nat) {
    k in s.calls && (s.calls[k].pc.Found? || s.calls[k].pc.NotFound?)
  }

  /**
   A call that refreshed answers from its own store or a later one; its own is the one
   store it makes, and holds the one document the endpoint served it.
   */
  lemma MissUsesOwnOrLater(interval: int, start: int, ls: seq<Label>, k: nat)
    requires Missed(Exec(interval, start, ls), k)
    ensures
      var s := Exec(interval, start, ls);
      var Call(kid, pc) := s.calls[k];
      && pc.mine <= pc.store < |s.stores|
      && (forall j :: 0 <= j < |s.stores| ==> (s.stores[j].call == k <==> j == pc.mine))
      && (forall t :: 0 <= t < |s.replies| ==> (s.replies[t].call == k <==> t == s.stores[pc.mine].turn))
      && s.stores[pc.mine].turn < |s.replies| && s.replies[s.stores[pc.mine].turn].keys == s.stores[pc.mine].keys
      && (if pc.Found? then kid in s.stores[pc.store].keys && s.stores[pc.store].keys[kid] == pc.key
          else kid !in s.stores[pc.store].keys)
  {
    InvAlways(interval, start, ls);
    assert CallOk(Exec(interval, start, ls), k);
  }

  /** A call whose fetch failed, or that was answered from the cache, stored nothing at any time. */
  lemma FailureStoresNothing(interval: int, start: int, ls: seq<Label>, k: nat)
    requires k in Exec(interval, start, ls).calls
    requires var pc := Exec(interval, start, ls).calls[k].pc; pc.Failed? || pc.Hit?
    ensures forall i :: 0 <= i < |Exec(interval, start, ls).stores| ==> Exec(interval, start, ls).stores[i].call != k
  {
    InvAlways(interval, start, ls);
    assert CallOk(Exec(interval, start, ls), k);
  }

  // ---- When the cache goes back to an older document ----

  /** The endpoint served j after it served k. */
  ghost predicate ServedAfter(s: State, j: nat, k: nat) {
    exists t, u :: 0 <= u < t < |s.replies| && s.replies[t].call == j && s.replies[u].call == k
  }

  /** j has passed the write lock of its refresh. */
  predicate HasSaved(s: State, j: nat) {
    j in s.calls && (s.calls[j].pc.Stored? || s.calls[j].pc.Found? || s.calls[j].pc.NotFound?)
  }

  /** Some call that was served after k has stored already. */
  ghost predicate Overtaken(s: State, k: nat) {
    exists j :: HasSaved(s, j) && ServedAfter(s, j, k)
  }

  /** A document newer than reply number t has been in the cache. */
  ghost predicate NewerStored(s: State, t: nat) {
    exists i :: 0 <= i < |s.stores| && t < s.stores[i].turn
  }

  /** About to store a document, k is overtaken if and only if a newer one has been stored. */
  lemma OvertakenExactly(s: State, k: nat)
    requires Inv(s) && Enabled(s, Save(k))
    ensures Overtaken(s, k) <==> NewerStored(s, s.calls[k].pc.turn)
  {
    assert CallOk(s, k);
    var turn := s.calls[k].pc.turn;
    if Overtaken(s, k) {
      var j :| HasSaved(s, j) && ServedAfter(s, j, k);
      assert CallOk(s, j);
      assert turn < s.stores[s.calls[j].pc.mine].turn;
    }
    if NewerStored(s, turn) {
      var i :| 0 <= i < |s.stores| && turn < s.stores[i].turn;
      assert CallOk(s, s.stores[i].call);
      assert ServedAfter(s, s.stores[i].call, k);
    }
  }

  /**
   A store puts in place a document older than one the cache has held exactly when some
   call served after its own is already past its store.
   */
  lemma SavesOlderExactly(interval: int, start: int, ls: seq<Label>, k: nat)
    requires Enabled(Exec(interval, start, ls), Save(k))
    ensures
      var s, s' := Exec(interval, start, ls), Exec(interval, start, ls + [Save(k)]);
      && |s'.stores| == |s.stores| + 1 && s'.keys == s'.stores[|s.stores|].keys
      && (NewerStored(s, s'.stores[|s.stores|].turn) <==> Overtaken(s, k))
  {
    InvAlways(interval, start, ls);
    ExecThen(interval, start, ls, Save(k));
    OvertakenExactly(Exec(interval, start, ls), k);
  }

  /** No store is of an older document than one before it. */
  ghost predicate NeverBack(stores: seq<Store>) {
    forall i, j :: 0 <= i < j < |stores| ==> stores[i].turn <= stores[j].turn
  }

  /** Label n of the schedule is a store that another has overtaken. */
  ghost predicate OvertakenAt(interval: int, start: int, ls: seq<Label>, n: nat) {
    && n < |ls| && ls[n].Save?
    && Enabled(Exec(interval, start, ls[..n]), ls[n]) && Overtaken(Exec(interval, start, ls[..n]), ls[n].k)
  }

  lemma NeverBackThen(stores: seq<Store>, last: Store)
    ensures NeverBack(stores + [last]) <==>
            NeverBack(stores) && forall i :: 0 <= i < |stores| ==> stores[i].turn <= last.turn
  {
    var all := stores + [last];
    if NeverBack(all) {
      forall i, j | 0 <= i < j < |stores| ensures stores[i].turn <= stores[j].turn {
        assert all[i] == stores[i] && all[j] == stores[j];
      }
      forall i | 0 <= i < |stores| ensures stores[i].turn <= last.turn {
        assert all[i] == stores[i] && all[|stores|] == last;
      }
    }
  }

  lemma NeverBackStep(s: State, l: Label)
    requires Inv(s)
    ensures NeverBack(Step(s, l).stores) <==>
            NeverBack(s.stores) && !(l.Save? && Enabled(s, l) && Overtaken(s, l.k))
  {
    if l.Save? && Enabled(s, l) {
      OvertakenExactly(s, l.k);
      NeverBackThen(s.stores, Store(s.calls[l.k].pc.keys, s.now, s.calls[l.k].pc.turn, l.k));
    }
  }

  /** Over a whole run the cache never goes back to an older document if and only if no store is overtaken. */
  lemma {:induction false} NeverBackExactly(interval: int, start: int, ls: seq<Label>)
    ensures NeverBack(Exec(interval, start, ls).stores) <==>
            forall n :: 0 <= n < |ls| ==> !OvertakenAt(interval, start, ls, n)
  {
    if ls != [] {
      var front, l := ls[..|ls| - 1], ls[|ls| - 1];
      NeverBackExactly(interval, start, front);
      InvAlways(interval, start, front);
      NeverBackStep(Exec(interval, start, front), l);
      forall n: nat | n < |front|
        ensures OvertakenAt(interval, start, ls, n) == OvertakenAt(interval, start, front, n)
      {
        assert ls[..n] == front[..n];
      }
      assert OvertakenAt(interval, start, ls, |front|) <==>
             l.Save? && Enabled(Exec(interval, start, front), l) && Overtaken(Exec(interval, start, front), l.k);
    }
  }

  lemma HistoryStep(s: State, l: Label)
    ensures s.stores <= Step(s, l).stores && s.replies <= Step(s, l).replies
  {}

  lemma {:induction false} HistoryGrows(interval: int, start: int, ls: seq<Label>, n: nat)
    requires n <= |ls|
    ensures Exec(interval, start, ls[..n]).stores <= Exec(interval, start, ls).stores
    ensures Exec(interval, start, ls[..n]).replies <= Exec(interval, start, ls).replies
  {
    if n == |ls| {
      assert ls[..n] == ls;
    } else {
      var front := ls[..|ls| - 1];
      HistoryGrows(interval, start, front, n);
      assert front[..n] == ls[..n];
      HistoryStep(Exec(interval, start, front), ls[|ls| - 1]);
    }
  }

  /** Label n of the schedule made store i. */
  ghost predicate MadeAt(interval: int, start: int, ls: seq<Label>, n: nat, i: nat) {
    && n < |ls| && ls[n].Save? && Enabled(Exec(interval, start, ls[..n]), ls[n])
    && |Exec(interval, start, ls[..n]).stores| == i
  }

  lemma {:induction false} SavedAt(interval: int, start: int, ls: seq<Label>, i: nat)
    requires i < |Exec(interval, start, ls).stores|
    ensures exists n: nat :: MadeAt(interval, start, ls, n, i)
  {
    var front, l := ls[..|ls| - 1], ls[|ls| - 1];
    var s := Exec(interval, start, front);
    if i < |s.stores| {
      SavedAt(interval, start, front, i);
      var n: nat :| MadeAt(interval, start, front, n, i);
      assert front[..n] == ls[..n];
      assert MadeAt(interval, start, ls, n, i);
    } else {
      assert MadeAt(interval, start, ls, |front|, i);
    }
  }

  /** A store stays as the label that made it made it. */
  lemma StoreMade(interval: int, start: int, ls: seq<Label>, n: nat)
    requires n < |ls| && ls[n].Save? && Enabled(Exec(interval, start, ls[..n]), ls[n])
    ensures
      var s, i := Exec(interval, start, ls[..n]), |Exec(interval, start, ls[..n]).stores|;
      && s.stores <= Exec(interval, start, ls).stores && s.replies <= Exec(interval, start, ls).replies
      && i < |Exec(interval, start, ls).stores|
      && var pc := s.calls[ls[n].k].pc;
         Exec(interval, start, ls).stores[i] == Store(pc.keys, s.now, pc.turn, ls[n].k)
  {
    HistoryGrows(interval, start, ls, n);
    HistoryGrows(interval, start, ls, n + 1);
    ExecThen(interval, start, ls[..n], ls[n]);
    assert ls[..n + 1] == ls[..n] + [ls[n]];
  }

  /** k's own store, and the one its answer was read from, once it has answered. */
  function OwnStore(s: State, k: nat): nat
    requires Missed(s, k)
  {
    s.calls[k].pc.mine
  }

  function ReadStore(s: State, k: nat): nat
    requires Missed(s, k)
  {
    s.calls[k].pc.store
  }

  /** Label n made store i, for a call that was served before k, when k was past its own store. */
  ghost predicate OvertookAt(interval: int, start: int, ls: seq<Label>, n: nat, k: nat, i: nat) {
    && MadeAt(interval, start, ls, n, i)
    && HasSaved(Exec(interval, start, ls[..n]), k) && ServedAfter(Exec(interval, start, ls[..n]), k, ls[n].k)
  }

  /** Of two calls past being served, the later served has the higher reply number. */
  lemma ServedAfterTurns(s: State, k: nat, j: nat)
    requires Inv(s) && HasSaved(s, k) && Enabled(s, Save(j))
    ensures s.calls[k].pc.mine < |s.stores|
    ensures ServedAfter(s, k, j) <==> s.calls[j].pc.turn < s.stores[s.calls[k].pc.mine].turn
  {
    assert CallOk(s, k) && CallOk(s, j);
    var t, u := s.stores[s.calls[k].pc.mine].turn, s.calls[j].pc.turn;
    assert s.replies[t].call == k && s.replies[u].call == j;
  }

  lemma OvertookIfOlder(interval: int, start: int, ls: seq<Label>, n: nat, k: nat)
    requires Missed(Exec(interval, start, ls), k)
    requires MadeAt(interval, start, ls, n, ReadStore(Exec(interval, start, ls), k))
    ensures
      var s := Exec(interval, start, ls);
      && OwnStore(s, k) < |s.stores| && ReadStore(s, k) < |s.stores|
      && (s.stores[ReadStore(s, k)].turn < s.stores[OwnStore(s, k)].turn <==>
          OvertookAt(interval, start, ls, n, k, ReadStore(s, k)))
  {
    InvAlways(interval, start, ls);
    InvAlways(interval, start, ls[..n]);
    StoreMade(interval, start, ls, n);
    var s, before := Exec(interval, start, ls), Exec(interval, start, ls[..n]);
    assert CallOk(s, k) && CallOk(before, k);
    var mine := OwnStore(s, k);
    if mine < |before.stores| {
      assert before.stores[mine] == s.stores[mine] && before.stores[mine].call == k;
      assert HasSaved(before, k);
    }
    if HasSaved(before, k) {
      var i := before.calls[k].pc.mine;
      assert before.stores[i] == s.stores[i];
      assert i == mine;
      ServedAfterTurns(before, k, ls[n].k);
    }
  }

  /**
   A miss answers from a document older than the one its call was served exactly when the
   store it read was made, after the call's own, for a call served before it.
   */
  lemma ReadsOlderExactly(interval: int, start: int, ls: seq<Label>, k: nat)
    requires Missed(Exec(interval, start, ls), k)
    ensures
      var s := Exec(interval, start, ls);
      && OwnStore(s, k) < |s.stores| && ReadStore(s, k) < |s.stores|
      && (s.stores[ReadStore(s, k)].turn < s.stores[OwnStore(s, k)].turn <==>
          exists n: nat :: OvertookAt(interval, start, ls, n, k, ReadStore(s, k)))
  {
    var s := Exec(interval, start, ls);
    InvAlways(interval, start, ls);
    assert CallOk(s, k);
    SavedAt(interval, start, ls, ReadStore(s, k));
    var n: nat :| MadeAt(interval, start, ls, n, ReadStore(s, k));
    OvertookIfOlder(interval, start, ls, n, k);
    if n': nat :| OvertookAt(interval, start, ls, n', k, ReadStore(s, k)) {
      OvertookIfOlder(interval, start, ls, n', k);
    }
  }

  /**
   Later is not newer: call 1 is served first and stores last, so the cache ends up with
   the document call 2's has overtaken, stamped with the later time.
   */
  lemma OlderDocumentLater(first: KeySet, second: KeySet, interval: int) returns (ls: seq<Label>)
    ensures
      var s := Exec(interval, 0, ls);
      && s.keys == first && s.keysAt == Some(2)
      && s.stores == [Store(second, 1, 1, 2), Store(first, 2, 0, 1)]
  {
    ls := [];
    ls := Then(interval, ls, Check(1, "k"));
    ls := Then(interval, ls, Serve(1, first));
    ls := Then(interval, ls, Check(2, "k"));
    ls := Then(interval, ls, Tick(1));
    ls := Then(interval, ls, Serve(2, second));
    assert Exec(interval, 0, ls).stores == [] && Exec(interval, 0, ls).now == 1;
    ls := Then(interval, ls, Save(2));
    ls := Then(interval, ls, Tick(1));
    ls := Then(interval, ls, Save(1));
  }

  lemma Then(interval: int, ls: seq<Label>, l: Label) returns (more: seq<Label>)
    ensures Exec(interval, 0, more) == Step(Exec(interval, 0, ls), l)
  {
    more := ls + [l];
    assert more[..|more| - 1] == ls;
  }
}
