/** strings.Split, strings.Join and strings.TrimSpace, and the laws that relate them. */
module Text {
  /** The pieces between separators; never none. */
  function Split(s: string, sep: char): (parts: seq<string>)
    ensures |parts| > 0
  {
    if s == "" then [""]
    else
      var rest := Split(s[1..], sep);
      if s[0] == sep then [""] + rest else [[s[0]] + rest[0]] + rest[1..]
  }

  function Join(parts: seq<string>, sep: char): string {
    if parts == [] then ""
    else if |parts| == 1 then parts[0]
    else parts[0] + [sep] + Join(parts[1..], sep)
  }

  lemma {:induction false} SplitOne(s: string, sep: char)
    requires sep !in s
    ensures Split(s, sep) == [s]
  {
    if s != "" {
      SplitOne(s[1..], sep);
      assert [s[0]] + s[1..] == s;
    }
  }

  lemma {:induction false} SplitAppend(a: string, b: string, sep: char)
    ensures Split(a + [sep] + b, sep) == Split(a, sep) + Split(b, sep)
  {
    var s := a + [sep] + b;
    if a == "" {
      assert s[1..] == b;
    } else {
      assert s[1..] == a[1..] + [sep] + b;
      SplitAppend(a[1..], b, sep);
    }
  }

  lemma {:induction false} SplitJoin(parts: seq<string>, sep: char)
    requires parts != [] && forall i :: 0 <= i < |parts| ==> sep !in parts[i]
    ensures Split(Join(parts, sep), sep) == parts
  {
    SplitOne(parts[0], sep);
    if |parts| > 1 {
      SplitJoin(parts[1..], sep);
      SplitAppend(parts[0], Join(parts[1..], sep), sep);
    }
  }

  lemma {:induction false} JoinSplit(s: string, sep: char)
    ensures Join(Split(s, sep), sep) == s
    ensures forall i :: 0 <= i < |Split(s, sep)| ==> sep !in Split(s, sep)[i]
  {
    if s != "" {
      JoinSplit(s[1..], sep);
      var rest := Split(s[1..], sep);
      if s[0] == sep {
        assert Join([""] + rest, sep) == "" + [sep] + Join(rest, sep);
      } else if |rest| > 1 {
        assert ([[s[0]] + rest[0]] + rest[1..])[1..] == rest[1..];
      }
    }
  }

  /** The White_Space characters of Unicode. */
  predicate IsSpace(c: char) {
    var n := c as int;
    || 0x09 <= n <= 0x0D || n == 0x20 || n == 0x85 || n == 0xA0 || n == 0x1680
    || 0x2000 <= n <= 0x200A || n == 0x2028 || n == 0x2029 || n == 0x202F || n == 0x205F || n == 0x3000
  }

  predicate Trimmed(s: string) {
    s == "" || (!IsSpace(s[0]) && !IsSpace(s[|s| - 1]))
  }

  function TrimSpace(s: string): (t: string)
    ensures Trimmed(t)
    ensures Trimmed(s) ==> t == s
    ensures forall c :: c in t ==> c in s
  {
    if s == "" then ""
    else if IsSpace(s[0]) then TrimSpace(s[1..])
    else if IsSpace(s[|s| - 1]) then TrimSpace(s[..|s| - 1])
    else s
  }

  /** All but the piece from i to j is white space. */
  ghost predicate SpaceAround(s: string, i: nat, j: nat) {
    i <= j <= |s| && forall k :: 0 <= k < i || j <= k < |s| ==> IsSpace(s[k])
  }

  lemma SpaceBefore(s: string, i: nat, j: nat)
    requires s != "" && IsSpace(s[0]) && SpaceAround(s[1..], i, j)
    ensures SpaceAround(s, i + 1, j + 1) && s[i + 1..j + 1] == s[1..][i..j]
  {
    var t := s[1..];
    forall k | 1 <= k < i + 1 || j + 1 <= k < |s| ensures IsSpace(s[k]) { assert s[k] == t[k - 1]; }
    forall k | 0 <= k < j - i ensures s[i + 1..j + 1][k] == t[i..j][k] {}
  }

  lemma SpaceAfter(s: string, i: nat, j: nat)
    requires s != "" && IsSpace(s[|s| - 1]) && SpaceAround(s[..|s| - 1], i, j)
    ensures SpaceAround(s, i, j) && s[i..j] == s[..|s| - 1][i..j]
  {
    var t := s[..|s| - 1];
    forall k | 0 <= k < i || j <= k < |s| - 1 ensures IsSpace(s[k]) { assert s[k] == t[k]; }
    forall k | 0 <= k < j - i ensures s[i..j][k] == t[i..j][k] {}
  }

  /** Only white space is cut away, and only at the ends. */
  lemma {:induction false} TrimSpaceCuts(s: string) returns (i: nat, j: nat)
    ensures SpaceAround(s, i, j) && TrimSpace(s) == s[i..j]
    decreases |s|
  {
    if s == "" || (!IsSpace(s[0]) && !IsSpace(s[|s| - 1])) {
      i, j := 0, |s|;
    } else if IsSpace(s[0]) {
      var i1, j1 := TrimSpaceCuts(s[1..]);
      SpaceBefore(s, i1, j1);
      i, j := i1 + 1, j1 + 1;
    } else {
      i, j := TrimSpaceCuts(s[..|s| - 1]);
      SpaceAfter(s, i, j);
    }
  }

  predicate HasPrefix(s: string, prefix: string) {
    prefix <= s
  }
}
