/** The Sec-WebSocket-Protocol header of wsrelay.go: parsing the list, and choosing from it. */
module Subprotocol {
  import opened Common
  import opened Text

  function Concat<T>(xss: seq<seq<T>>): seq<T> {
    if xss == [] then [] else Concat(xss[..|xss| - 1]) + xss[|xss| - 1]
  }

  lemma {:induction false} ConcatAppend<T>(xss: seq<seq<T>>, yss: seq<seq<T>>)
    ensures Concat(xss + yss) == Concat(xss) + Concat(yss)
  {
    if yss == [] {
      assert xss + yss == xss;
    } else {
      var front, last := yss[..|yss| - 1], yss[|yss| - 1];
      ConcatAppend(xss, front);
      assert (xss + yss)[..|xss + yss| - 1] == xss + front;
      assert Concat(xss) + Concat(front) + last == Concat(xss) + (Concat(front) + last);
    }
  }

  lemma {:induction false} InConcat<T>(xss: seq<seq<T>>, x: T) returns (i: nat)
    requires x in Concat(xss)
    ensures i < |xss| && x in xss[i]
  {
    if x in xss[|xss| - 1] { i := |xss| - 1; } else { i := InConcat(xss[..|xss| - 1], x); }
  }

  /** A piece of a header value, trimmed, unless it is blank. */
  function Entry(part: string): seq<string> {
    if TrimSpace(part) != "" then [TrimSpace(part)] else []
  }

  function EntryLists(parts: seq<string>): (r: seq<seq<string>>)
    ensures |r| == |parts| && forall i :: 0 <= i < |r| ==> r[i] == Entry(parts[i])
  {
    seq(|parts|, i requires 0 <= i < |parts| => Entry(parts[i]))
  }

  /** The entries of one header value that was split at commas. */
  function Entries(parts: seq<string>): seq<string> {
    Concat(EntryLists(parts))
  }

  function HeaderLists(headers: seq<string>): (r: seq<seq<string>>)
    ensures |r| == |headers| && forall i :: 0 <= i < |r| ==> r[i] == Entries(Split(headers[i], ','))
  {
    seq(|headers|, i requires 0 <= i < |headers| => Entries(Split(headers[i], ',')))
  }

  /** What the request offers, over all its header values in order. */
  function Offered(headers: seq<string>): seq<string> {
    Concat(HeaderLists(headers))
  }

  lemma EntryListsAppend(xs: seq<string>, ys: seq<string>)
    ensures EntryLists(xs + ys) == EntryLists(xs) + EntryLists(ys)
  {
    Elementwise(xs, ys, EntryLists(xs), EntryLists(ys), EntryLists(xs + ys), Entry);
  }

  lemma HeaderListsAppend(xs: seq<string>, ys: seq<string>)
    ensures HeaderLists(xs + ys) == HeaderLists(xs) + HeaderLists(ys)
  {
    Elementwise(xs, ys, HeaderLists(xs), HeaderLists(ys), HeaderLists(xs + ys), h => Entries(Split(h, ',')));
  }

  /** Sequences made element by element are appended as what they are made from is. */
  lemma Elementwise<A, B>(xs: seq<A>, ys: seq<A>, fxs: seq<B>, fys: seq<B>, fzs: seq<B>, f: A -> B)
    requires |fxs| == |xs| && |fys| == |ys| && |fzs| == |xs| + |ys|
    requires forall i :: 0 <= i < |xs| ==> fxs[i] == f(xs[i])
    requires forall i :: 0 <= i < |ys| ==> fys[i] == f(ys[i])
    requires forall i :: 0 <= i < |xs| + |ys| ==> fzs[i] == f((xs + ys)[i])
    ensures fzs == fxs + fys
  {
    forall i | 0 <= i < |fzs| ensures fzs[i] == (fxs + fys)[i] {
      if i < |xs| { assert (xs + ys)[i] == xs[i]; } else { assert (xs + ys)[i] == ys[i - |xs|]; }
    }
  }

  lemma EntriesAppend(xs: seq<string>, ys: seq<string>)
    ensures Entries(xs + ys) == Entries(xs) + Entries(ys)
  {
    EntryListsAppend(xs, ys);
    ConcatAppend(EntryLists(xs), EntryLists(ys));
  }

  lemma OfferedAppend(xs: seq<string>, ys: seq<string>)
    ensures Offered(xs + ys) == Offered(xs) + Offered(ys)
  {
    HeaderListsAppend(xs, ys);
    ConcatAppend(HeaderLists(xs), HeaderLists(ys));
  }

  lemma ConcatOne<T>(xs: seq<T>)
    ensures Concat([xs]) == xs
  {
    assert Concat([xs]) == Concat<T>([]) + xs;
  }

  lemma EntriesOne(part: string)
    ensures Entries([part]) == Entry(part)
  {
    ConcatOne(Entry(part));
    assert EntryLists([part]) == [Entry(part)];
  }

  lemma OfferedOne(h: string)
    ensures Offered([h]) == Entries(Split(h, ','))
  {
    ConcatOne(Entries(Split(h, ',')));
    assert HeaderLists([h]) == [Entries(Split(h, ','))];
  }

  lemma EntriesThen(parts: seq<string>, j: nat)
    requires j < |parts|
    ensures Entries(parts[..j + 1]) == Entries(parts[..j]) + Entry(parts[j])
  {
    EntriesAppend(parts[..j], [parts[j]]);
    EntriesOne(parts[j]);
    assert parts[..j + 1] == parts[..j] + [parts[j]];
  }

  lemma OfferedThen(headers: seq<string>, i: nat)
    requires i < |headers|
    ensures Offered(headers[..i + 1]) == Offered(headers[..i]) + Entries(Split(headers[i], ','))
  {
    OfferedAppend(headers[..i], [headers[i]]);
    OfferedOne(headers[i]);
    assert headers[..i + 1] == headers[..i] + [headers[i]];
  }

  method ParseSecWSProtocol(headers: seq<string>) returns (out: seq<string>)
    ensures out == Offered(headers)
  {
    out := [];
    for i := 0 to |headers|
      invariant out == Offered(headers[..i])
    {
      var parts := Split(headers[i], ',');
      ghost var before := out;
      for j := 0 to |parts|
        invariant out == before + Entries(parts[..j])
      {
        EntriesThen(parts, j);
        var p := TrimSpace(parts[j]);
        if p != "" {
          out := out + [p];
        }
      }
      assert parts[..|parts|] == parts;
      OfferedThen(headers, i);
    }
    assert headers[..|headers|] == headers;
  }

  lemma CommaAppends(a: string, b: string)
    ensures Offered([a + [','] + b]) == Offered([a]) + Offered([b])
  {
    OfferedOne(a + [','] + b);
    OfferedOne(a);
    OfferedOne(b);
    SplitAppend(a, b, ',');
    EntriesAppend(Split(a, ','), Split(b, ','));
  }

  lemma HeadersJoinThen(h: string, rest: seq<string>, joined: string)
    requires Offered([joined]) == Offered(rest)
    ensures Offered([h + [','] + joined]) == Offered([h] + rest)
  {
    CommaAppends(h, joined);
    OfferedAppend([h], rest);
  }

  /** Several headers mean what one header with their values joined by commas means. */
  lemma {:induction false} HeadersJoin(headers: seq<string>)
    ensures Offered([Join(headers, ',')]) == Offered(headers)
  {
    if headers == [] {
      OfferedOne("");
      EntriesOne("");
    } else if |headers| == 1 {
      assert headers == [headers[0]];
    } else {
      HeadersJoin(headers[1..]);
      HeadersJoinThen(headers[0], headers[1..], Join(headers[1..], ','));
      assert headers == [headers[0]] + headers[1..];
    }
  }

  /** A name that survives being listed: not blank, no comma, no space at either end. */
  predicate Listable(p: string) {
    p != "" && Trimmed(p) && ',' !in p
  }

  lemma {:induction false} EntriesOfListable(ps: seq<string>)
    requires forall i :: 0 <= i < |ps| ==> Listable(ps[i])
    ensures Entries(ps) == ps
  {
    if ps != [] {
      var front, last := ps[..|ps| - 1], ps[|ps| - 1];
      EntriesOfListable(front);
      EntriesAppend(front, [last]);
      EntriesOne(last);
      assert ps == front + [last];
    }
  }

  /** What a browser joins into one header is what the relay takes out of it. */
  lemma OfferRoundTrip(ps: seq<string>)
    requires forall i :: 0 <= i < |ps| ==> Listable(ps[i])
    ensures Offered([Join(ps, ',')]) == ps
  {
    OfferedOne(Join(ps, ','));
    if ps == [] {
      EntriesOne("");
    } else {
      SplitJoin(ps, ',');
      EntriesOfListable(ps);
    }
  }

  /** Blanks and tabs, which a list may have around its names (section 5.6.3 of RFC 9110). */
  predicate Blanks(s: string) {
    forall i :: 0 <= i < |s| ==> s[i] == ' ' || s[i] == '\t'
  }

  ghost predicate Padded(piece: string, p: string) {
    exists a, b :: Blanks(a) && Blanks(b) && piece == a + p + b
  }

  lemma {:induction false} TrimAfter(p: string, b: string)
    requires Trimmed(p) && p != "" && Blanks(b)
    ensures TrimSpace(p + b) == p
    decreases |b|
  {
    if b == "" {
      assert p + b == p;
    } else {
      var front := b[..|b| - 1];
      TrimAfter(p, front);
      assert (p + b)[..|p + b| - 1] == p + front;
      assert (p + b)[|p + b| - 1] == b[|b| - 1] && (p + b)[0] == p[0];
    }
  }

  lemma {:induction false} TrimPadded(a: string, p: string, b: string)
    requires Trimmed(p) && p != "" && Blanks(a) && Blanks(b)
    ensures TrimSpace(a + p + b) == p
  {
    if a == "" {
      assert a + p + b == p + b;
      TrimAfter(p, b);
    } else {
      TrimPadded(a[1..], p, b);
      assert (a + p + b)[1..] == a[1..] + p + b;
    }
  }

  lemma EntryOfPadded(piece: string, p: string)
    requires Listable(p) && Padded(piece, p)
    ensures Entry(piece) == [p] && ',' !in piece
  {
    var a, b :| Blanks(a) && Blanks(b) && piece == a + p + b;
    TrimPadded(a, p, b);
    assert ',' !in a && ',' !in b;
  }

  /** Each piece is the name, with blanks and tabs around it. */
  ghost predicate AllPadded(pieces: seq<string>, ps: seq<string>) {
    |pieces| == |ps| && forall i :: 0 <= i < |ps| ==> Listable(ps[i]) && Padded(pieces[i], ps[i])
  }

  lemma EntriesOfPadded(pieces: seq<string>, ps: seq<string>)
    requires AllPadded(pieces, ps)
    ensures Entries(pieces) == Entries(ps)
  {
    forall i | 0 <= i < |ps| ensures EntryLists(pieces)[i] == EntryLists(ps)[i] {
      EntryOfPadded(pieces[i], ps[i]);
    }
    assert EntryLists(pieces) == EntryLists(ps);
  }

  /** Names listed with blanks and tabs around them, as by ", ", are recovered all the same. */
  lemma SpacedRoundTrip(pieces: seq<string>, ps: seq<string>)
    requires AllPadded(pieces, ps)
    ensures Offered([Join(pieces, ',')]) == ps
  {
    OfferedOne(Join(pieces, ','));
    if ps == [] {
      EntriesOne("");
    } else {
      forall i | 0 <= i < |pieces| ensures ',' !in pieces[i] { EntryOfPadded(pieces[i], ps[i]); }
      SplitJoin(pieces, ',');
      EntriesOfPadded(pieces, ps);
      EntriesOfListable(ps);
    }
  }

  /** And nothing else ever comes out of a header. */
  lemma OfferedListable(headers: seq<string>)
    ensures forall p :: p in Offered(headers) ==> Listable(p)
  {
    forall p | p in Offered(headers) ensures Listable(p) {
      var i := InConcat(HeaderLists(headers), p);
      var parts := Split(headers[i], ',');
      JoinSplit(headers[i], ',');
      var j := InConcat(EntryLists(parts), p);
      assert p == TrimSpace(parts[j]) && ',' !in parts[j];
    }
  }

  // ---- Choosing a subprotocol ----

  const PLAIN := "chepherd-rc-v1"
  const PREFIX := "chepherd-rc-v1."

  /** The bastion id and token of a browser's entry: the rest after the prefix, cut at its first dot. */
  function Credentials(p: string): Option<(string, string)> {
    if !HasPrefix(p, PREFIX) then None
    else
      var parts := Split(p[|PREFIX|..], '.');
      if |parts| < 2 then None else Some((parts[0], Join(parts[1..], '.')))
  }

  /** A bastion id without dots and any token can be read back. */
  lemma CredentialsRoundTrip(bastion: string, token: string)
    requires '.' !in bastion
    ensures Credentials(PREFIX + bastion + ['.'] + token) == Some((bastion, token))
  {
    var p := PREFIX + bastion + ['.'] + token;
    assert p[|PREFIX|..] == bastion + ['.'] + token;
    SplitAppend(bastion, token, '.');
    SplitOne(bastion, '.');
    JoinSplit(token, '.');
    assert ([bastion] + Split(token, '.'))[1..] == Split(token, '.');
  }

  predicate Browser(p: string) {
    Credentials(p).Some?
  }

  /** A browser's entry is the prefix, a text without dots, a dot and a rest, which are its bastion id and token. */
  lemma BrowserExactly(p: string, bastion: string, token: string)
    ensures Credentials(p) == Some((bastion, token)) <==>
            '.' !in bastion && p == "chepherd-rc-v1." + bastion + "." + token
  {
    if Credentials(p) == Some((bastion, token)) {
      var rest := p[|PREFIX|..];
      var parts := Split(rest, '.');
      JoinSplit(rest, '.');
      assert p == PREFIX + rest && rest == parts[0] + ['.'] + Join(parts[1..], '.');
    }
    if '.' !in bastion && p == PREFIX + bastion + "." + token {
      assert p == PREFIX + bastion + ['.'] + token;
      CredentialsRoundTrip(bastion, token);
    }
  }

  /** The offers hold no browser's entry. */
  predicate NoBrowser(ps: seq<string>) {
    forall i :: 0 <= i < |ps| ==> !Browser(ps[i])
  }

  /** The offers name no bastion. */
  predicate Nameless(ps: seq<string>) {
    forall i :: 0 <= i < |ps| && Browser(ps[i]) ==> Credentials(ps[i]).value.0 == ""
  }

  /** Entry i is the first that names a bastion, and names this one. */
  predicate FirstNamed(ps: seq<string>, i: nat, bastion: string) {
    && i < |ps| && Browser(ps[i]) && Credentials(ps[i]).value.0 == bastion != ""
    && Nameless(ps[..i])
  }

  /** Entry i is the last browser's entry. */
  predicate LastBrowser(ps: seq<string>, i: nat) {
    i < |ps| && Browser(ps[i]) && forall j :: i < j < |ps| ==> !Browser(ps[j])
  }

  datatype Upgrade = Upgrade(role: string, bastionID: string, subprotocol: string)

  datatype BadRequest = RoleRequired | BastionRequired

  /** One entry more. */
  lemma ScanThen(ps: seq<string>, n: nat)
    requires n < |ps|
    ensures Nameless(ps[..n + 1]) <==>
            Nameless(ps[..n]) && (Browser(ps[n]) ==> Credentials(ps[n]).value.0 == "")
    ensures NoBrowser(ps[..n + 1]) <==> NoBrowser(ps[..n]) && !Browser(ps[n])
    ensures PLAIN in ps[..n + 1] <==> PLAIN in ps[..n] || ps[n] == PLAIN
    ensures forall i: nat :: LastBrowser(ps[..n], i) && !Browser(ps[n]) ==> LastBrowser(ps[..n + 1], i)
    ensures Browser(ps[n]) ==> LastBrowser(ps[..n + 1], n)
  {
    assert ps[..n + 1] == ps[..n] + [ps[n]];
  }

  /** The loop over the offers, ending in what it leaves in role, bastionID and negotiated. */
  method Scan(ps: seq<string>, queryRole: string, queryBastion: string)
    returns (role: string, bastionID: string, negotiated: string)
    ensures role == if queryRole == "" && !NoBrowser(ps) then "client" else queryRole
    ensures queryBastion != "" ==> bastionID == queryBastion
    ensures queryBastion == "" ==>
              if Nameless(ps) then bastionID == "" else exists i: nat :: FirstNamed(ps, i, bastionID)
    ensures if NoBrowser(ps) then negotiated == if PLAIN in ps then PLAIN else ""
            else exists i: nat :: LastBrowser(ps, i) && negotiated == ps[i]
  {
    role, bastionID, negotiated := queryRole, queryBastion, "";
    ghost var last: Option<nat> := None;
    ghost var first: Option<nat> := None;
    for n := 0 to |ps|
      invariant last.None? ==> NoBrowser(ps[..n]) && negotiated == if PLAIN in ps[..n] then PLAIN else ""
      invariant last.Some? ==> LastBrowser(ps[..n], last.value) && negotiated == ps[last.value]
      invariant role == if queryRole == "" && last.Some? then "client" else queryRole
      invariant queryBastion != "" ==> bastionID == queryBastion
      invariant queryBastion == "" && first.None? ==> bastionID == "" && Nameless(ps[..n])
      invariant first.Some? ==> queryBastion == "" && first.value < n && FirstNamed(ps, first.value, bastionID)
    {
      var p := ps[n];
      ScanThen(ps, n);
      var credentials := Credentials(p);
      if credentials.Some? {
        if bastionID == "" {
          bastionID := credentials.value.0;
          if bastionID != "" { first := Some(n); }
        }
        if role == "" {
          role := "client";
        }
        negotiated := p;
        last := Some(n);
      }
      if p == PLAIN && negotiated == "" {
        negotiated := p;
      }
    }
    assert ps[..|ps|] == ps;
  }

  lemma PlainIsNoBrowser()
    ensures !Browser(PLAIN)
  {
    assert |PLAIN| < |PREFIX|;
  }

  /**
   Refused exactly if the role is neither given nor implied by a browser's entry, or is no
   role, and else exactly if neither query nor entries name a bastion. The upgrade takes the
   query before the entries, the first bastion they name, and echoes the last browser's
   entry, or the plain name if there is none.
   */
  method Negotiate(headers: seq<string>, queryRole: string, queryBastion: string)
    returns (r: Result<Upgrade, BadRequest>)
    ensures
      var ps := Offered(headers);
      var roleless := queryRole != "client" && queryRole != "daemon" && (queryRole != "" || NoBrowser(ps));
      && (r == Err(RoleRequired) <==> roleless)
      && (r == Err(BastionRequired) <==> !roleless && queryBastion == "" && Nameless(ps))
    ensures r.Ok? ==> r.value.role == if queryRole == "" then "client" else queryRole
    ensures r.Ok? && queryBastion != "" ==> r.value.bastionID == queryBastion
    ensures r.Ok? && queryBastion == "" ==> exists i: nat :: FirstNamed(Offered(headers), i, r.value.bastionID)
    ensures r.Ok? ==>
              if NoBrowser(Offered(headers)) then r.value.subprotocol == "chepherd-rc-v1"
              else exists i: nat :: LastBrowser(Offered(headers), i) && r.value.subprotocol == Offered(headers)[i]
  {
    var protocols := ParseSecWSProtocol(headers);
    var role, bastionID, negotiated := Scan(protocols, queryRole, queryBastion);
    if role != "client" && role != "daemon" {
      return Err(RoleRequired);
    }
    if bastionID == "" {
      return Err(BastionRequired);
    }
    PlainIsNoBrowser();
    var subprotocol := if negotiated != "" && negotiated != PLAIN then negotiated else PLAIN;
    r := Ok(Upgrade(role, bastionID, subprotocol));
  }
}
