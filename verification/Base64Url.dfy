// The key fragment's coding: the browser's base64url pair over btoa and atob, and
// the backend's decode_key over CPython's lenient decoder (RFC 4648, sections 4 and 5).
module Base64Url {
  import opened Bytes

  const KEY_BYTES := 32

  // --- Alphabets ---

  function StdChar(d: nat): char
    requires d < 64
  {
    if d < 26 then ('A' as int + d) as char
    else if d < 52 then ('a' as int + d - 26) as char
    else if d < 62 then ('0' as int + d - 52) as char
    else if d == 62 then '+' else '/'
  }

  function StdValue(c: char): (r: Option<nat>)
    ensures r.Some? ==> r.value < 64
  {
    if 'A' <= c <= 'Z' then Some(c as int - 'A' as int)
    else if 'a' <= c <= 'z' then Some(c as int - 'a' as int + 26)
    else if '0' <= c <= '9' then Some(c as int - '0' as int + 52)
    else if c == '+' then Some(62)
    else if c == '/' then Some(63)
    else None
  }

  function ToUrl(c: char): char {
    if c == '+' then '-' else if c == '/' then '_' else c
  }

  function FromUrl(c: char): char {
    if c == '-' then '+' else if c == '_' then '/' else c
  }

  function UrlChar(d: nat): char
    requires d < 64
  {
    ToUrl(StdChar(d))
  }

  lemma AlphabetReadsBack(d: nat)
    requires d < 64
    ensures StdValue(StdChar(d)) == Some(d) && FromUrl(UrlChar(d)) == StdChar(d)
    ensures UrlChar(d) != '=' && StdChar(d) != '='
  {}

  // --- Sextets ---

  type sextet = d: int | 0 <= d < 64

  /** Three bytes make four sextets; a tail of one or two makes two or three. */
  function Split(b: bytes): (s: seq<sextet>)
    ensures |s| == (4 * |b| + 2) / 3
  {
    if b == [] then []
    else if |b| == 1 then [b[0] / 4, b[0] % 4 * 16]
    else if |b| == 2 then [b[0] / 4, b[0] % 4 * 16 + b[1] / 16, b[1] % 16 * 4]
    else Quad(b[0], b[1], b[2]) + Split(b[3..])
  }

  function Quad(x: byte, y: byte, z: byte): seq<sextet> {
    [x / 4, x % 4 * 16 + y / 16, y % 16 * 4 + z / 64, z % 64]
  }

  function First(x: int, y: int): (b: int)
    ensures 0 <= x < 64 && 0 <= y < 64 ==> 0 <= b < 256
  {
    x * 4 + y / 16
  }

  function Second(y: int, z: int): (b: int)
    ensures 0 <= y < 64 && 0 <= z < 64 ==> 0 <= b < 256
  {
    y % 16 * 16 + z / 4
  }

  function Third(z: int, v: int): (b: int)
    ensures 0 <= z < 64 && 0 <= v < 64 ==> 0 <= b < 256
  {
    z % 4 * 64 + v
  }

  /** The bytes of a run of sextets; the bits of an unfinished byte are dropped. */
  function Merge(s: seq<sextet>): bytes {
    if |s| < 2 then []
    else if |s| == 2 then [First(s[0], s[1])]
    else if |s| == 3 then [First(s[0], s[1]), Second(s[1], s[2])]
    else [First(s[0], s[1]), Second(s[1], s[2]), Third(s[2], s[3])] + Merge(s[4..])
  }

  lemma BitsMeet(x: byte, y: byte, z: byte)
    ensures First(x / 4, x % 4 * 16 + y / 16) == x
    ensures Second(x % 4 * 16 + y / 16, y % 16 * 4 + z / 64) == y
    ensures Third(y % 16 * 4 + z / 64, z % 64) == z
    ensures First(x / 4, x % 4 * 16) == x && Second(x % 4 * 16 + y / 16, y % 16 * 4) == y
  {}

  lemma MergeQuad(a: sextet, b: sextet, c: sextet, d: sextet, rest: seq<sextet>)
    ensures Merge([a, b, c, d] + rest) == [First(a, b), Second(b, c), Third(c, d)] + Merge(rest)
  {
    assert ([a, b, c, d] + rest)[4..] == rest;
  }

  lemma {:induction false} MergeUndoesSplit(b: bytes)
    ensures Merge(Split(b)) == b
  {
    if |b| == 1 {
      BitsMeet(b[0], 0, 0);
    } else if |b| == 2 {
      BitsMeet(b[0], b[1], 0);
    } else if |b| >= 3 {
      var q := Quad(b[0], b[1], b[2]);
      BitsMeet(b[0], b[1], b[2]);
      MergeUndoesSplit(b[3..]);
      MergeQuad(q[0], q[1], q[2], q[3], Split(b[3..]));
      assert q == [q[0], q[1], q[2], q[3]];
      assert b == [b[0], b[1], b[2]] + b[3..];
    }
  }

  // --- btoa and atob ---

  function StdText(s: seq<sextet>): string {
    seq(|s|, i requires 0 <= i < |s| => StdChar(s[i]))
  }

  function Padding(n: nat): string {
    seq(n, _ => '=')
  }

  /** How many '=' bring a length to a multiple of four. */
  function Missing(n: nat): nat {
    if n % 4 == 0 then 0 else 4 - n % 4
  }

  function Btoa(b: bytes): string {
    StdText(Split(b)) + Padding(Missing(|Split(b)|))
  }

  predicate IsSpace(c: char) {
    c == ' ' || c == '\t' || c == '\n' || c == '\r' || c == 12 as char
  }

  function NoSpaces(s: string): string {
    if s == [] then [] else if IsSpace(s[0]) then NoSpaces(s[1..]) else [s[0]] + NoSpaces(s[1..])
  }

  /** A complete text gives up one or two final '='. */
  function Unpadded(s: string): string {
    if |s| % 4 != 0 || s == [] || s[|s| - 1] != '=' then s
    else if s[|s| - 2] != '=' then s[..|s| - 1]
    else s[..|s| - 2]
  }

  predicate AllStd(s: string) {
    forall i | 0 <= i < |s| :: StdValue(s[i]).Some?
  }

  function Values(s: string): seq<sextet>
    requires AllStd(s)
  {
    seq(|s|, i requires 0 <= i < |s| => StdValue(s[i]).value)
  }

  /** atob: None where it throws. */
  function Atob(s: string): Option<bytes> {
    var t := Unpadded(NoSpaces(s));
    if |t| % 4 == 1 || !AllStd(t) then None else Some(Merge(Values(t)))
  }

  // --- The browser's pair ---

  function ReplacedToUrl(s: string): string {
    seq(|s|, i requires 0 <= i < |s| => ToUrl(s[i]))
  }

  function ReplacedFromUrl(s: string): string {
    seq(|s|, i requires 0 <= i < |s| => FromUrl(s[i]))
  }

  /** replace(/=+$/, ""). */
  function Trimmed(s: string): string {
    if s == [] || s[|s| - 1] != '=' then s else Trimmed(s[..|s| - 1])
  }

  function Encoded(b: bytes): string {
    Trimmed(ReplacedToUrl(Btoa(b)))
  }

  function Decoded(s: string): Option<bytes> {
    Atob(ReplacedFromUrl(s) + Padding(Missing(|s|)))
  }

  /** base64UrlEncode, with its loop over String.fromCharCode. */
  method Base64UrlEncode(b: bytes) returns (s: string)
    ensures s == Encoded(b)
  {
    var bin: string := [];
    for i := 0 to |b|
      invariant |bin| == i && forall j | 0 <= j < i :: bin[j] as int == b[j]
    {
      bin := bin + [b[i] as char];
    }
    var codes: bytes := seq(|bin|, i requires 0 <= i < |bin| => b[i]);
    assert codes == b;
    s := Trimmed(ReplacedToUrl(Btoa(codes)));
  }

  /** base64UrlDecode, with its loop over charCodeAt. */
  method Base64UrlDecode(s: string) returns (r: Option<array<byte>>)
    ensures r.Some? <==> Decoded(s).Some?
    ensures r.Some? ==> fresh(r.value) && r.value[..] == Decoded(s).value
  {
    var bin := Atob(ReplacedFromUrl(s) + Padding(Missing(|s|)));
    if bin.None? {
      return None;
    }
    var out := new byte[|bin.value|];
    for i := 0 to |bin.value|
      invariant out[..i] == bin.value[..i]
    {
      out[i] := bin.value[i];
    }
    assert out[..] == bin.value;
    r := Some(out);
  }

  function UrlText(s: seq<sextet>): string {
    seq(|s|, i requires 0 <= i < |s| => UrlChar(s[i]))
  }

  lemma {:induction false} TrimsPadding(s: string, n: nat)
    requires s == [] || s[|s| - 1] != '='
    ensures Trimmed(s + Padding(n)) == s
  {
    if n == 0 {
      assert s + Padding(0) == s;
    } else {
      assert (s + Padding(n))[..|s| + n - 1] == s + Padding(n - 1);
      TrimsPadding(s, n - 1);
    }
  }

  /** The encoded form is the url-safe alphabet only, without padding. */
  lemma EncodedIsUrlText(b: bytes)
    ensures Encoded(b) == UrlText(Split(b)) && |Encoded(b)| == (4 * |b| + 2) / 3
  {
    var s, n := Split(b), Missing(|Split(b)|);
    assert ReplacedToUrl(Btoa(b)) == UrlText(s) + Padding(n);
    if s != [] { AlphabetReadsBack(s[|s| - 1]); }
    TrimsPadding(UrlText(s), n);
  }

  lemma {:induction false} NoSpacesInside(s: string)
    requires forall i | 0 <= i < |s| :: !IsSpace(s[i])
    ensures NoSpaces(s) == s
  {
    if s != [] { NoSpacesInside(s[1..]); }
  }

  lemma StdCharIsText(d: sextet)
    ensures !IsSpace(StdChar(d)) && StdChar(d) != '=' && StdValue(StdChar(d)) == Some(d)
  {}

  lemma UnpadsWhole(t: string, n: nat)
    requires n <= 2 && (|t| + n) % 4 == 0 && (t == [] || t[|t| - 1] != '=') && (n > 0 ==> t != [])
    ensures Unpadded(t + Padding(n)) == t
  {
    var s := t + Padding(n);
    if n == 0 {
      assert s == t;
    } else if n == 1 {
      assert s[|s| - 1] == '=' && s[|s| - 2] == t[|t| - 1];
      assert s[..|s| - 1] == t;
    } else {
      assert s[|s| - 1] == '=' && s[|s| - 2] == '=';
      assert s[..|s| - 2] == t;
    }
  }

  lemma StdTextReads(s: seq<sextet>)
    ensures AllStd(StdText(s)) && Values(StdText(s)) == s
    ensures forall i | 0 <= i < |s| :: StdText(s)[i] != '=' && !IsSpace(StdText(s)[i])
  {
    forall i | 0 <= i < |s|
      ensures StdValue(StdText(s)[i]) == Some(s[i]) && StdText(s)[i] != '=' && !IsSpace(StdText(s)[i])
    {
      StdCharIsText(s[i]);
    }
  }

  lemma PaddedReads(t: string, n: nat)
    requires n <= 2 && (|t| + n) % 4 == 0 && (n > 0 ==> t != []) && AllStd(t) && |t| % 4 != 1
    requires forall i | 0 <= i < |t| :: t[i] != '=' && !IsSpace(t[i])
    ensures Atob(t + Padding(n)) == Some(Merge(Values(t)))
  {
    var u := t + Padding(n);
    forall i | 0 <= i < |u| ensures !IsSpace(u[i]) {
      if i < |t| { assert u[i] == t[i]; } else { assert u[i] == '='; }
    }
    NoSpacesInside(u);
    UnpadsWhole(t, n);
  }

  lemma AtobReads(s: seq<sextet>)
    requires |s| % 4 != 1
    ensures Atob(StdText(s) + Padding(Missing(|s|))) == Some(Merge(s))
  {
    StdTextReads(s);
    PaddedReads(StdText(s), Missing(|s|));
  }

  lemma FromUrlText(s: seq<sextet>)
    ensures ReplacedFromUrl(UrlText(s)) == StdText(s)
  {
    forall i | 0 <= i < |s| ensures FromUrl(UrlText(s)[i]) == StdText(s)[i] { AlphabetReadsBack(s[i]); }
  }

  lemma BrowserReads(s: seq<sextet>)
    requires |s| % 4 != 1
    ensures Decoded(UrlText(s)) == Some(Merge(s))
  {
    FromUrlText(s);
    AtobReads(s);
  }

  lemma DecodeUndoesEncode(b: bytes)
    ensures Decoded(Encoded(b)) == Some(b)
  {
    EncodedIsUrlText(b);
    BrowserReads(Split(b));
    MergeUndoesSplit(b);
  }

  // --- The backend's decode_key ---

  predicate IsUrlChar(c: char) {
    'A' <= c <= 'Z' || 'a' <= c <= 'z' || '0' <= c <= '9' || c == '-' || c == '_'
  }

  /** A fragment without its final newline, which the pattern's "$" lets pass. */
  function Chomped(s: string): string {
    if s != [] && s[|s| - 1] == '\n' then s[..|s| - 1] else s
  }

  function Body(s: string): string {
    if s == [] || s[|s| - 1] != '=' then s
    else if |s| >= 2 && s[|s| - 2] == '=' then s[..|s| - 2]
    else s[..|s| - 1]
  }

  /** ^[A-Za-z0-9_-]+={0,2}$ */
  predicate FragmentOk(s: string) {
    var body := Body(Chomped(s));
    body != [] && forall i | 0 <= i < |body| :: IsUrlChar(body[i])
  }

  /** binascii.a2b_base64 in its lenient mode: skips what is not in the alphabet, stops at a complete padding. */
  function A2b(s: string, quad: nat, left: nat, pads: nat): Option<bytes>
    requires quad < 4 && left < 64
    decreases s
  {
    if s == [] then (if quad == 0 then Some([]) else None)
    else if s[0] == '=' then
      (if quad >= 2 && quad + pads + 1 >= 4 then Some([])
       else A2b(s[1..], quad, left, if quad >= 2 then pads + 1 else pads))
    else if StdValue(s[0]).None? then A2b(s[1..], quad, left, pads)
    else
      var v := StdValue(s[0]).value;
      match quad
      case 0 => A2b(s[1..], 1, v, 0)
      case 1 => Emitted(First(left, v), A2b(s[1..], 2, v % 16, 0))
      case 2 => Emitted(Second(left, v), A2b(s[1..], 3, v % 4, 0))
      case _ => Emitted(Third(left, v), A2b(s[1..], 0, 0, 0))
  }

  function Emitted(b: int, rest: Option<bytes>): Option<bytes>
    requires 0 <= b < 256
  {
    if rest.Some? then Some([b] + rest.value) else None
  }

  lemma EmittedInOrder(a: byte, b: byte, c: byte, rest: bytes)
    ensures Emitted(a, Some([])) == Some([a]) && Emitted(a, Emitted(b, Some([]))) == Some([a, b])
    ensures Emitted(a, Emitted(b, Emitted(c, Some(rest)))) == Some([a, b, c] + rest)
  {
    assert [a] + [] == [a] && [b] + [] == [b] && [a] + [b] == [a, b];
    assert [a] + ([b] + ([c] + rest)) == [a, b, c] + rest;
  }

  /** decode_key: None where it raises. */
  function DecodeKey(fragment: string): Option<bytes> {
    if !FragmentOk(fragment) then None
    else
      var raw := A2b(ReplacedFromUrl(fragment + Padding(Missing(|fragment|))), 0, 0, 0);
      if raw.None? || |raw.value| != KEY_BYTES then None else raw
  }

  lemma A2bChar(d: sextet, rest: string, quad: nat, left: nat, pads: nat)
    requires quad < 4 && left < 64
    ensures A2b([StdChar(d)] + rest, quad, left, pads) ==
            match quad
            case 0 => A2b(rest, 1, d, 0)
            case 1 => Emitted(First(left, d), A2b(rest, 2, d % 16, 0))
            case 2 => Emitted(Second(left, d), A2b(rest, 3, d % 4, 0))
            case _ => Emitted(Third(left, d), A2b(rest, 0, 0, 0))
  {
    StdCharIsText(d);
    assert ([StdChar(d)] + rest)[1..] == rest;
  }

  lemma HighBitsForgotten(y: sextet, z: sextet)
    ensures Second(y % 16, z) == Second(y, z) && Third(y % 4, z) == Third(y, z)
  {
    assert y % 16 % 16 == y % 16;
    assert y % 4 % 4 == y % 4;
  }

  lemma A2bQuad(a: sextet, b: sextet, c: sextet, d: sextet, rest: string)
    ensures A2b([StdChar(a), StdChar(b), StdChar(c), StdChar(d)] + rest, 0, 0, 0)
            == Emitted(First(a, b), Emitted(Second(b, c), Emitted(Third(c, d), A2b(rest, 0, 0, 0))))
  {
    var t3 := [StdChar(d)] + rest;
    var t2 := [StdChar(c)] + t3;
    var t1 := [StdChar(b)] + t2;
    assert [StdChar(a), StdChar(b), StdChar(c), StdChar(d)] + rest == [StdChar(a)] + t1;
    A2bChar(a, t1, 0, 0, 0);
    A2bChar(b, t2, 1, a, 0);
    A2bChar(c, t3, 2, b % 16, 0);
    A2bChar(d, rest, 3, c % 4, 0);
    HighBitsForgotten(b, c);
    HighBitsForgotten(c, d);
  }

  /** How many '=' a text holds. */
  function Equals(s: string): nat {
    if s == [] then 0 else (if s[0] == '=' then 1 else 0) + Equals(s[1..])
  }

  predicate IsTail(s: string) {
    forall i | 0 <= i < |s| :: s[i] == '=' || s[i] == '\n'
  }

  /** What follows the last character of the alphabet: it must complete the quad, and need not stop there. */
  lemma {:induction false} A2bTail(tail: string, quad: nat, left: nat, pads: nat)
    requires IsTail(tail) && quad < 4 && left < 64 && (quad >= 2 ==> quad + pads < 4)
    ensures A2b(tail, quad, left, pads) ==
            if quad == 0 || (quad >= 2 && quad + pads + Equals(tail) >= 4) then Some([]) else None
  {
    if tail != [] {
      A2bTail(tail[1..], quad, left, pads);
      if tail[0] == '=' && quad >= 2 && quad + pads + 1 < 4 { A2bTail(tail[1..], quad, left, pads + 1); }
    }
  }

  /** Whether so many '=' complete the last quad of a text of so many characters. */
  predicate Completes(n: nat, equals: nat) {
    n % 4 == 0 || (n % 4 >= 2 && n % 4 + equals >= 4)
  }

  lemma A2bOne(a: sextet, tail: string)
    requires IsTail(tail)
    ensures A2b([StdChar(a)] + tail, 0, 0, 0) == None
  {
    A2bChar(a, tail, 0, 0, 0);
    A2bTail(tail, 1, a, 0);
  }

  lemma A2bTwo(a: sextet, b: sextet, tail: string)
    requires IsTail(tail)
    ensures A2b([StdChar(a)] + ([StdChar(b)] + tail), 0, 0, 0)
            == if Equals(tail) >= 2 then Some([First(a, b)]) else None
  {
    A2bChar(a, [StdChar(b)] + tail, 0, 0, 0);
    A2bChar(b, tail, 1, a, 0);
    A2bTail(tail, 2, b % 16, 0);
    EmittedInOrder(First(a, b), 0, 0, []);
  }

  lemma A2bThree(a: sextet, b: sextet, c: sextet, tail: string)
    requires IsTail(tail)
    ensures A2b([StdChar(a)] + ([StdChar(b)] + ([StdChar(c)] + tail)), 0, 0, 0)
            == if Equals(tail) >= 1 then Some([First(a, b), Second(b, c)]) else None
  {
    A2bChar(a, [StdChar(b)] + ([StdChar(c)] + tail), 0, 0, 0);
    A2bChar(b, [StdChar(c)] + tail, 1, a, 0);
    A2bChar(c, tail, 2, b % 16, 0);
    HighBitsForgotten(b, c);
    A2bTail(tail, 3, c % 4, 0);
    EmittedInOrder(First(a, b), Second(b, c), 0, []);
  }

  lemma A2bFew(s: seq<sextet>, tail: string)
    requires IsTail(tail) && |s| < 4
    ensures A2b(StdText(s) + tail, 0, 0, 0) == if Completes(|s|, Equals(tail)) then Some(Merge(s)) else None
  {
    if s == [] {
      assert StdText(s) + tail == tail;
      A2bTail(tail, 0, 0, 0);
    } else if |s| == 1 {
      assert StdText(s) + tail == [StdChar(s[0])] + tail;
      A2bOne(s[0], tail);
    } else if |s| == 2 {
      assert StdText(s) + tail == [StdChar(s[0])] + ([StdChar(s[1])] + tail);
      A2bTwo(s[0], s[1], tail);
    } else {
      assert StdText(s) + tail == [StdChar(s[0])] + ([StdChar(s[1])] + ([StdChar(s[2])] + tail));
      A2bThree(s[0], s[1], s[2], tail);
    }
  }

  lemma TextSplits(s: seq<sextet>, tail: string)
    requires |s| >= 4
    ensures StdText(s) + tail == [StdChar(s[0]), StdChar(s[1]), StdChar(s[2]), StdChar(s[3])] + (StdText(s[4..]) + tail)
  {}

  lemma {:induction false} A2bReads(s: seq<sextet>, tail: string)
    requires IsTail(tail)
    ensures A2b(StdText(s) + tail, 0, 0, 0) == if Completes(|s|, Equals(tail)) then Some(Merge(s)) else None
    decreases |s|
  {
    if |s| < 4 {
      A2bFew(s, tail);
    } else {
      var more := s[4..];
      TextSplits(s, tail);
      A2bQuad(s[0], s[1], s[2], s[3], StdText(more) + tail);
      A2bReads(more, tail);
      EmittedInOrder(First(s[0], s[1]), Second(s[1], s[2]), Third(s[2], s[3]), Merge(more));
      assert Completes(|s|, Equals(tail)) <==> Completes(|more|, Equals(tail));
    }
  }

  lemma {:induction false} MergeSize(s: seq<sextet>)
    ensures |Merge(s)| == |s| * 3 / 4
  {
    if |s| >= 4 { MergeSize(s[4..]); }
  }

  // --- Which fragments decode ---

  predicate IsUrl(s: string) {
    forall i | 0 <= i < |s| :: IsUrlChar(s[i])
  }

  /** The sextets of a text in the url-safe alphabet. */
  function Sextets(s: string): (r: seq<sextet>)
    requires IsUrl(s)
    ensures |r| == |s| && UrlText(r) == s
  {
    seq(|s|, i requires 0 <= i < |s| => StdValue(FromUrl(s[i])).value)
  }

  /** What the pattern lets follow the last character of the alphabet. */
  predicate PatternTail(s: string) {
    s == "" || s == "=" || s == "==" || s == "\n" || s == "=\n" || s == "==\n"
  }

  lemma FragmentParts(s: string)
    requires FragmentOk(s)
    ensures var n := |Body(Chomped(s))|; 0 < n <= |s| && IsUrl(s[..n]) && PatternTail(s[n..])
  {
    var u, n := Chomped(s), |Body(Chomped(s))|;
    assert s[..n] == u[..n] == Body(u);
    assert u[n..] == [] || u[n..] == ['='] || u[n..] == ['=', '='];
    assert s == u || s == u + ['\n'];
    assert s[n..] == u[n..] || s[n..] == u[n..] + ['\n'];
  }

  lemma BodyOfParts(body: string, n: nat)
    requires body != [] && IsUrl(body) && n <= 2
    ensures Body(body + Padding(n)) == body && Chomped(body + Padding(n) + "\n") == body + Padding(n)
    ensures Chomped(body + Padding(n)) == body + Padding(n)
  {
    var t := body + Padding(n);
    assert IsUrlChar(body[|body| - 1]) && t[|body| - 1] == body[|body| - 1];
    assert t[..|body|] == body;
    assert (t + "\n")[..|t|] == t;
    if n > 0 { assert t[|t| - 1] == '='; } else { assert t == body; }
    if n == 2 { assert t[|t| - 2] == '='; }
  }

  lemma PartsFit(body: string, tail: string)
    requires body != [] && IsUrl(body) && PatternTail(tail)
    ensures FragmentOk(body + tail)
  {
    var n := if tail == "" || tail == "\n" then 0 else if tail == "=" || tail == "=\n" then 1 else 2;
    BodyOfParts(body, n);
    assert body + tail == body + Padding(n) || body + tail == body + Padding(n) + "\n";
  }

  lemma {:induction false} EqualsAppended(s: string, n: nat)
    ensures Equals(s + Padding(n)) == Equals(s) + n
  {
    if s != [] {
      assert (s + Padding(n))[1..] == s[1..] + Padding(n);
      EqualsAppended(s[1..], n);
    } else {
      assert [] + Padding(n) == Padding(n);
      if n > 0 {
        assert Padding(n)[1..] == [] + Padding(n - 1);
        EqualsAppended([], n - 1);
      }
    }
  }

  lemma EqualsOfTails()
    ensures Equals("") == 0 && Equals("=") == 1 && Equals("==") == 2
    ensures Equals("\n") == 0 && Equals("=\n") == 1 && Equals("==\n") == 2
  {
    assert "="[1..] == "" && "=="[1..] == "=" && "\n"[1..] == "" && "=\n"[1..] == "\n" && "==\n"[1..] == "=\n";
  }

  /** Only 43 characters give 32 bytes, and a bare newline after them leaves no room for the padding. */
  lemma TailCompletes(m: nat, tail: string)
    requires PatternTail(tail)
    ensures Completes(m, Equals(tail) + Missing(m + |tail|)) && m * 3 / 4 == KEY_BYTES <==> m == 43 && tail != "\n"
  {
    EqualsOfTails();
  }

  lemma PartsDecode(body: string, tail: string)
    requires body != [] && IsUrl(body) && PatternTail(tail)
    ensures DecodeKey(body + tail) == if |body| == 43 && tail != "\n" then Some(Merge(Sextets(body))) else None
  {
    var n := Missing(|body + tail|);
    PartsFit(body, tail);
    PartsReplaced(body, tail, n);
    EqualsAppended(tail, n);
    A2bReads(Sextets(body), tail + Padding(n));
    MergeSize(Sextets(body));
    TailCompletes(|body|, tail);
  }

  lemma PartsReplaced(body: string, tail: string, n: nat)
    requires IsUrl(body) && PatternTail(tail)
    ensures ReplacedFromUrl(body + tail + Padding(n)) == StdText(Sextets(body)) + (tail + Padding(n))
    ensures IsTail(tail + Padding(n))
  {
    FromUrlText(Sextets(body));
    forall i | 0 <= i < |body| ensures FromUrl(body[i]) == StdText(Sextets(body))[i] {
      assert ReplacedFromUrl(body)[i] == FromUrl(body[i]);
    }
  }

  /**
   decode_key's domain, to the character: 43 of the url-safe alphabet, then nothing, or "=" or "==", or either
   with a final newline.
   */
  predicate KeyFragment(s: string) {
    |s| >= 43 && IsUrl(s[..43]) && PatternTail(s[43..]) && s[43..] != "\n"
  }

  /**
   The browser's form and its padded one are accepted, and so are "==", and a newline after either padding;
   nothing else is.
   */
  lemma DecodesExactly(s: string)
    ensures DecodeKey(s).Some? <==> KeyFragment(s)
    ensures KeyFragment(s) ==> DecodeKey(s) == Some(Merge(Sextets(s[..43])))
  {
    if KeyFragment(s) {
      assert s == s[..43] + s[43..];
      PartsDecode(s[..43], s[43..]);
    } else if FragmentOk(s) {
      FragmentParts(s);
      var n := |Body(Chomped(s))|;
      assert s == s[..n] + s[n..];
      PartsDecode(s[..n], s[n..]);
    }
  }

  /**
   Every unpadded fragment of 43 characters, canonical or not, and its padded form
   of 44: the backend recovers the same 32 bytes as the browser.
   */
  lemma BackendAgreesWithBrowser(s: seq<sextet>)
    requires |s| == 43
    ensures DecodeKey(UrlText(s)) == Decoded(UrlText(s)) == Some(Merge(s))
    ensures DecodeKey(UrlText(s) + "=") == Some(Merge(s)) && |Merge(s)| == KEY_BYTES
  {
    var body := UrlText(s);
    UrlTextReads(s);
    assert body + "" == body;
    PartsDecode(body, "");
    PartsDecode(body, "=");
    BrowserReads(s);
    MergeSize(s);
  }

  lemma UrlTextReads(s: seq<sextet>)
    ensures IsUrl(UrlText(s)) && Sextets(UrlText(s)) == s
  {
    forall i | 0 <= i < |s| ensures IsUrlChar(UrlText(s)[i]) && StdValue(FromUrl(UrlText(s)[i])) == Some(s[i]) {
      UrlCharIsUrl(s[i]);
    }
  }

  lemma UrlCharIsUrl(d: sextet)
    ensures IsUrlChar(UrlChar(d)) && StdValue(FromUrl(UrlChar(d))) == Some(d)
  {
    AlphabetReadsBack(d);
  }

  /** decode_key recovers every key from the browser's fragment, padded or not. */
  lemma BackendRecoversEveryKey(key: bytes)
    requires |key| == KEY_BYTES
    ensures |Encoded(key)| == 43 && DecodeKey(Encoded(key)) == Some(key) && DecodeKey(Encoded(key) + "=") == Some(key)
  {
    EncodedIsUrlText(key);
    MergeUndoesSplit(key);
    BackendAgreesWithBrowser(Split(key));
  }
}
