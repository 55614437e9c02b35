/** Actor ids as strings: "type/kind/name" with an optional "@address", and their parser. */
module ActorId {

  const DIRECT := "direct"
  const CLUSTER := "cluster"
  const REPLY := "reply"

  datatype Parts = Parts(typ: string, kind: string, name: string, directAddr: string)

  const NO_PARTS := Parts("", "", "", "")

  // ------------------------------------------------------------------ searching and splitting

  /** strings.IndexByte: the first position of c, or -1. */
  function IndexByte(s: string, c: char): (i: int)
    ensures -1 <= i < |s| && (i >= 0 ==> s[i] == c && c !in s[..i]) && (i < 0 <==> c !in s)
  {
    if s == "" then -1
    else if s[0] == c then 0
    else
      var i := IndexByte(s[1..], c);
      assert s == [s[0]] + s[1..];
      assert i >= 0 ==> s[..i + 1] == [s[0]] + s[1..][..i];
      if i < 0 then -1 else i + 1
  }

  /** strings.Split on one character, as the reference for the parser. */
  function Split(s: string, c: char): (parts: seq<string>)
    ensures |parts| >= 1
  {
    if s == "" then [""]
    else
      var rest := Split(s[1..], c);
      if s[0] == c then [""] + rest else [[s[0]] + rest[0]] + rest[1..]
  }

  /** Join with one separator, the inverse of Split. */
  function Join(parts: seq<string>, c: char): string
    requires |parts| >= 1
  {
    if |parts| == 1 then parts[0] else parts[0] + [c] + Join(parts[1..], c)
  }

  lemma {:induction false} SplitPlain(s: string, c: char)
    requires c !in s
    ensures Split(s, c) == [s]
  {
    if s != "" {
      assert s == [s[0]] + s[1..];
      SplitPlain(s[1..], c);
    }
  }

  lemma {:induction false} SplitAt(head: string, c: char, tail: string)
    requires c !in head
    ensures Split(head + [c] + tail, c) == [head] + Split(tail, c)
  {
    var s := head + [c] + tail;
    if head == "" {
      assert s[1..] == tail;
    } else {
      assert s[1..] == head[1..] + [c] + tail;
      SplitAt(head[1..], c, tail);
      assert head == [head[0]] + head[1..];
    }
  }

  /** Split and Join are inverse: the pieces joined give the string back and hold no separator. */
  lemma {:induction false} SplitJoin(s: string, c: char)
    ensures Join(Split(s, c), c) == s
    ensures forall i :: 0 <= i < |Split(s, c)| ==> c !in Split(s, c)[i]
  {
    if s != "" {
      var rest := Split(s[1..], c);
      SplitJoin(s[1..], c);
      assert s == [s[0]] + s[1..];
      if s[0] == c {
        assert ([""] + rest)[1..] == rest;
      } else {
        var parts := [[s[0]] + rest[0]] + rest[1..];
        assert parts[1..] == rest[1..];
        assert forall i :: 1 <= i < |parts| ==> parts[i] == rest[i];
      }
    }
  }

  // ------------------------------------------------------------------ the parser

  /** The last piece of an id: the name, and the address between the first '@' and a second one. */
  function CutName(name: string): (string, string) {
    var k := IndexByte(name, '@');
    if k < 0 then (name, "")
    else
      var addr := name[k + 1..];
      var k2 := IndexByte(addr, '@');
      (name[..k], if k2 >= 0 then addr[..k2] else addr)
  }

  /** The slash searches of parseCache: the three pieces, or none when there are more or fewer. */
  function Pieces(fullPath: string): seq<string> {
    var i := IndexByte(fullPath, '/');
    if i < 0 then [] else PiecesAfter(fullPath[..i], fullPath[i + 1..])
  }

  function PiecesAfter(typ: string, rest: string): (p: seq<string>)
    ensures |p| == 0 || |p| == 3
  {
    var j := IndexByte(rest, '/');
    if j < 0 || IndexByte(rest[j + 1..], '/') >= 0 then [] else [typ, rest[..j], rest[j + 1..]]
  }

  /** parseCache: index searches and substrings only. */
  function Parse(fullPath: string): Parts {
    var p := Pieces(fullPath);
    if p == [] then NO_PARTS else Parts(p[0], p[1], CutName(p[2]).0, CutName(p[2]).1)
  }

  /** The same cut by Split. */
  function CutBySplit(name: string): (string, string) {
    var q := Split(name, '@');
    (q[0], if |q| > 1 then q[1] else "")
  }

  /** The specification: exactly three pieces between slashes, the last one cut at '@'. */
  function ParseBySplit(fullPath: string): Parts {
    var p := Split(fullPath, '/');
    if |p| != 3 then NO_PARTS
    else
      Parts(p[0], p[1], CutBySplit(p[2]).0, CutBySplit(p[2]).1)
  }

  lemma SplitAtIndex(s: string, c: char)
    ensures var i := IndexByte(s, c);
            Split(s, c) == if i < 0 then [s] else [s[..i]] + Split(s[i + 1..], c)
  {
    var i := IndexByte(s, c);
    if i < 0 {
      SplitPlain(s, c);
    } else {
      assert s == s[..i] + [c] + s[i + 1..];
      SplitAt(s[..i], c, s[i + 1..]);
    }
  }

  lemma CutIsSplit(name: string)
    ensures CutName(name) == CutBySplit(name)
  {
    var k := IndexByte(name, '@');
    SplitAtIndex(name, '@');
    if k >= 0 { SplitAtIndex(name[k + 1..], '@'); }
  }

  lemma PieceCount(name: string)
    ensures if IndexByte(name, '/') < 0 then Split(name, '/') == [name] else |Split(name, '/')| >= 2
  {
    SplitAtIndex(name, '/');
  }

  lemma PiecesAfterBySplit(typ: string, rest: string)
    ensures PiecesAfter(typ, rest) == if |Split(rest, '/')| == 2 then [typ] + Split(rest, '/') else []
  {
    var j, q := IndexByte(rest, '/'), Split(rest, '/');
    SplitAtIndex(rest, '/');
    if j < 0 {
      assert |q| == 1;
    } else {
      var name := rest[j + 1..];
      PieceCount(name);
      var r := Split(name, '/');
      assert q == [rest[..j]] + r;
      if IndexByte(name, '/') < 0 {
        assert [typ] + q == [typ, rest[..j], name];
      } else {
        assert |q| >= 3;
      }
    }
  }

  lemma PiecesBySplit(fullPath: string)
    ensures Pieces(fullPath) == if |Split(fullPath, '/')| == 3 then Split(fullPath, '/') else []
  {
    var i := IndexByte(fullPath, '/');
    SplitAtIndex(fullPath, '/');
    if i >= 0 { PiecesAfterBySplit(fullPath[..i], fullPath[i + 1..]); }
  }

  /** The allocation-free parser agrees with the split specification on every string. */
  lemma ParseIsSplit(fullPath: string)
    ensures Parse(fullPath) == ParseBySplit(fullPath)
  {
    PiecesBySplit(fullPath);
    var p := Split(fullPath, '/');
    if |p| == 3 { CutIsSplit(p[2]); }
  }

  // ------------------------------------------------------------------ builders

  function DirectId(kind: string, name: string, addr: string): string {
    DIRECT + "/" + kind + "/" + name + "@" + addr
  }

  function ClusterId(kind: string, name: string): string { CLUSTER + "/" + kind + "/" + name }

  predicate ValidName(name: string) { name != "" && '/' !in name && '@' !in name }

  /** ValidateActorName and validateKindName report no error exactly for valid names. */
  datatype NameError = Fine | Empty | Separator(at: nat)

  function ValidateActorName(name: string): (e: NameError)
    ensures e == Fine <==> ValidName(name)
    ensures e.Separator? ==> e.at < |name| && name[e.at] in "/@" && '/' !in name[..e.at] && '@' !in name[..e.at]
  {
    if name == "" then Empty
    else
      var i, j := IndexByte(name, '/'), IndexByte(name, '@');
      if i < 0 && j < 0 then Fine
      else if j < 0 || 0 <= i < j then Separator(i)
      else Separator(j)
  }

  /** Split of two pieces joined by the separator. */
  lemma SplitOfTwo(a: string, b: string, c: char)
    ensures var p := Split(a + [c] + b, c);
            |p| >= 2 && (c !in a ==> p == [a] + Split(b, c)) && (c in a ==> |p| >= 3 && c !in p[0])
  {
    var i := IndexByte(a, c);
    if i < 0 {
      SplitAt(a, c, b);
    } else {
      var mid := a[i + 1..] + [c] + b;
      assert a + [c] + b == a[..i] + [c] + mid;
      SplitAt(a[..i], c, mid);
      assert mid[|a[i + 1..]|] == c;
      SplitAtIndex(mid, c);
    }
  }

  /** Three pieces between slashes: the split of what the builders print. */
  lemma SplitOfThree(typ: string, kind: string, last: string)
    requires '/' !in typ
    ensures var p := Split(typ + "/" + kind + "/" + last, '/');
            if '/' in kind || '/' in last then |p| > 3 else p == [typ, kind, last]
  {
    var tail := kind + ['/'] + last;
    assert typ + "/" + kind + "/" + last == typ + ['/'] + tail;
    SplitOfTwo(typ, tail, '/');
    SplitOfTwo(kind, last, '/');
    SplitAtIndex(last, '/');
  }

  /** A cluster id parses back exactly when its parts hold no separator that would cut them. */
  lemma ClusterRoundTrip(kind: string, name: string)
    ensures Parse(ClusterId(kind, name)) == Parts(CLUSTER, kind, name, "")
            <==> '/' !in kind && '/' !in name && '@' !in name
  {
    ParseIsSplit(ClusterId(kind, name));
    SplitOfThree(CLUSTER, kind, name);
    SplitAtIndex(name, '@');
    CutIsSplit(name);
  }

  lemma CutOfBuilt(name: string, addr: string)
    ensures CutBySplit(name + "@" + addr) == (name, addr) <==> '@' !in name && '@' !in addr
    ensures '@' !in name ==> CutBySplit(name + "@" + addr).0 == name
  {
    assert name + "@" + addr == name + ['@'] + addr;
    SplitOfTwo(name, addr, '@');
    SplitAtIndex(addr, '@');
  }

  lemma ParseOfDirect(kind: string, last: string)
    ensures Parse(DIRECT + "/" + kind + "/" + last)
            == if '/' in kind || '/' in last then NO_PARTS else Parts(DIRECT, kind, CutBySplit(last).0, CutBySplit(last).1)
  {
    ParseIsSplit(DIRECT + "/" + kind + "/" + last);
    SplitOfThree(DIRECT, kind, last);
  }

  /** A direct id parses back exactly when its parts hold no separator that would cut them. */
  lemma DirectRoundTrip(kind: string, name: string, addr: string)
    ensures Parse(DirectId(kind, name, addr)) == Parts(DIRECT, kind, name, addr)
            <==> '/' !in kind && '/' !in name && '/' !in addr && '@' !in name && '@' !in addr
  {
    var last := name + "@" + addr;
    assert DirectId(kind, name, addr) == DIRECT + "/" + kind + "/" + last;
    ParseOfDirect(kind, last);
    CutOfBuilt(name, addr);
    assert '/' in last <==> '/' in name || '/' in addr;
  }

  /** So for valid names two references are equal only if their parts are. */
  lemma IdsAreInjective(k1: string, n1: string, a1: string, k2: string, n2: string, a2: string)
    requires ValidName(k1) && ValidName(n1) && ValidName(k2) && ValidName(n2)
    requires '/' !in a1 && '@' !in a1 && '/' !in a2 && '@' !in a2
    ensures DirectId(k1, n1, a1) == DirectId(k2, n2, a2) ==> k1 == k2 && n1 == n2 && a1 == a2
    ensures ClusterId(k1, n1) == ClusterId(k2, n2) ==> k1 == k2 && n1 == n2
    ensures DirectId(k1, n1, a1) != ClusterId(k2, n2)
  {
    DirectRoundTrip(k1, n1, a1);
    DirectRoundTrip(k2, n2, a2);
    ClusterRoundTrip(k1, n1);
    ClusterRoundTrip(k2, n2);
  }

  // ------------------------------------------------------------------ correlation ids

  const MAX_UINT64 := 0xffff_ffff_ffff_ffff

  /** strconv.FormatUint in base 10. */
  function FormatUint(n: nat): (s: string)
    ensures s != "" && forall i :: 0 <= i < |s| ==> '0' <= s[i] <= '9'
  {
    if n < 10 then ['0' + n as char] else FormatUint(n / 10) + ['0' + (n % 10) as char]
  }

  /** The digits read so far are `acc`: a range error answers the maximum at once, a syntax error 0. */
  function ParseDigits(s: string, acc: nat): nat {
    if s == "" then acc
    else if !('0' <= s[0] <= '9') then 0
    else
      var next := acc * 10 + (s[0] - '0') as nat;
      if next > MAX_UINT64 then MAX_UINT64 else ParseDigits(s[1..], next)
  }

  /** askSnId: the value of strconv.ParseUint(name, 10, 64) with its error dropped. */
  function AskSnId(name: string): nat { if name == "" then 0 else ParseDigits(name, 0) }

  lemma {:induction false} ParseDigitsSplit(a: string, b: string, acc: nat, n: nat)
    requires ParseDigits(a, acc) == n && forall i :: 0 <= i < |a| ==> '0' <= a[i] <= '9'
    requires acc <= MAX_UINT64 && n < MAX_UINT64
    ensures ParseDigits(a + b, acc) == ParseDigits(b, n)
    decreases |a|
  {
    if a == "" {
      assert a + b == b;
    } else {
      assert (a + b)[1..] == a[1..] + b;
      ParseDigitsSplit(a[1..], b, acc * 10 + (a[0] - '0') as nat, n);
    }
  }

  /** The full 64-bit correlation id survives printing and parsing. */
  lemma {:induction false} FormatParse(n: nat)
    requires n <= MAX_UINT64
    ensures AskSnId(FormatUint(n)) == n
  {
    if n < 10 {
      OneDigit(n, 0);
    } else {
      FormatParse(n / 10);
      ParseDigitsSplit(FormatUint(n / 10), ['0' + (n % 10) as char], 0, n / 10);
      OneDigit(n % 10, n / 10);
    }
  }

  lemma OneDigit(d: nat, acc: nat)
    requires d < 10 && acc * 10 + d <= MAX_UINT64
    ensures ParseDigits(['0' + d as char], acc) == acc * 10 + d
  {
    var c := '0' + d as char;
    assert '0' <= c <= '9' && (c - '0') as nat == d && [c][1..] == "";
  }

  function ReplyId(snId: nat, addr: string): string { DIRECT + "/" + REPLY + "/" + FormatUint(snId) + "@" + addr }

  /** A reply reference that travels as a string comes back as a direct reply reference with its
      address and its whole correlation id, exactly when the address holds no separator. */
  lemma ReplyRoundTrip(snId: nat, addr: string)
    requires snId <= MAX_UINT64
    ensures var p := Parse(ReplyId(snId, addr));
            (p.typ == DIRECT && p.kind == REPLY && p.directAddr == addr && AskSnId(p.name) == snId)
            <==> '/' !in addr && '@' !in addr
  {
    var digits := FormatUint(snId);
    var last := digits + "@" + addr;
    FormatParse(snId);
    assert ReplyId(snId, addr) == DIRECT + "/" + REPLY + "/" + last;
    ParseOfDirect(REPLY, last);
    CutOfBuilt(digits, addr);
    assert '/' in last <==> '/' in addr;
  }
}
