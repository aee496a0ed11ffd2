/** Request paths of the web interface: percent-decoding, then a list of plain
    file names. Paths are bytes, as the request line carries them. */
module WebPath {
  import opened Prelude

  type Byte = b: int | 0 <= b < 256

  const MAX_SEGMENTS: nat := 24
  const MAX_PATH_BYTES: nat := 1024
  const PERCENT: Byte := 0x25
  const DOT: Byte := 0x2E
  const SLASH: Byte := 0x2F
  const COLON: Byte := 0x3A
  const BACKSLASH: Byte := 0x5C

  // ----- percent-decoding -----

  function Hex(b: Byte): (r: Option<nat>)
    ensures r.Some? ==> r.value < 16
  {
    if 0x30 <= b <= 0x39 then Some(b - 0x30)
    else if 0x61 <= b <= 0x66 then Some(b - 0x61 + 10)
    else if 0x41 <= b <= 0x46 then Some(b - 0x41 + 10)
    else None
  }

  /** Hex digits are the sixteen characters of either case, worth their places. */
  lemma HexIsTheDigit(b: Byte, v: nat)
    ensures Hex(b) == Some(v) <==>
      v < 16 && (b == "0123456789abcdef"[v] as int || b == "0123456789ABCDEF"[v] as int)
  {
  }

  predicate IsEscape(s: seq<Byte>)
  {
    |s| >= 3 && s[0] == PERCENT && Hex(s[1]).Some? && Hex(s[2]).Some?
  }

  function Value(s: seq<Byte>): Byte
    requires IsEscape(s)
  {
    Hex(s[1]).value * 16 + Hex(s[2]).value
  }

  function Decode(s: seq<Byte>): Option<seq<Byte>>
    decreases |s|
  {
    if s == [] then Some([])
    else if s[0] != PERCENT then
      match Decode(s[1..]) case None => None case Some(rest) => Some([s[0]] + rest)
    else if !IsEscape(s) then None
    else
      match Decode(s[3..]) case None => None case Some(rest) => Some([Value(s)] + rest)
  }

  function After(out: seq<Byte>, rest: Option<seq<Byte>>): Option<seq<Byte>>
  {
    match rest case None => None case Some(more) => Some(out + more)
  }

  method PercentDecode(raw: seq<Byte>) returns (r: Option<seq<Byte>>)
    ensures r == match Decode(raw) case None => None case Some(out) => if Utf8(out) then Some(out) else None
  {
    var out: seq<Byte> := [];
    var i := 0;
    assert raw[0..] == raw && (Decode(raw).Some? ==> [] + Decode(raw).value == Decode(raw).value);
    while i < |raw|
      invariant 0 <= i <= |raw|
      invariant Decode(raw) == After(out, Decode(raw[i..]))
    {
      if raw[i] == PERCENT {
        if i + 2 >= |raw| || Hex(raw[i + 1]).None? || Hex(raw[i + 2]).None? {
          return None;
        }
        var value: Byte := Hex(raw[i + 1]).value * 16 + Hex(raw[i + 2]).value;
        Resume(out, [value], Decode(raw[i + 3..]));
        assert raw[i..][3..] == raw[i + 3..];
        out := out + [value];
        i := i + 3;
      } else {
        Resume(out, [raw[i]], Decode(raw[i + 1..]));
        assert raw[i..][1..] == raw[i + 1..];
        out := out + [raw[i]];
        i := i + 1;
      }
    }
    assert out + [] == out;
    r := if Utf8(out) then Some(out) else None;
  }

  lemma Resume(out: seq<Byte>, next: seq<Byte>, rest: Option<seq<Byte>>)
    ensures After(out, After(next, rest)) == After(out + next, rest)
  {
    if rest.Some? { assert out + (next + rest.value) == (out + next) + rest.value; }
  }

  /** A character of section 2.1 of RFC 3986: itself, or "%" and two hex digits. */
  datatype Token = Plain(b: Byte) | Escaped(high: Byte, low: Byte)

  predicate Proper(t: Token)
  {
    match t case Plain(b) => b != PERCENT case Escaped(high, low) => Hex(high).Some? && Hex(low).Some?
  }

  function Written(tokens: seq<Token>): seq<Byte>
  {
    if tokens == [] then []
    else (match tokens[0] case Plain(b) => [b] case Escaped(high, low) => [PERCENT, high, low]) + Written(tokens[1..])
  }

  function Meant(tokens: seq<Token>): seq<Byte>
    requires forall t :: t in tokens ==> Proper(t)
  {
    if tokens == [] then []
    else
      assert Proper(tokens[0]);
      [match tokens[0] case Plain(b) => b case Escaped(high, low) => Hex(high).value * 16 + Hex(low).value]
      + Meant(tokens[1..])
  }

  lemma {:induction false} DecodeReads(tokens: seq<Token>)
    requires forall t :: t in tokens ==> Proper(t)
    ensures Decode(Written(tokens)) == Some(Meant(tokens))
    decreases |tokens|
  {
    if tokens != [] {
      DecodeReads(tokens[1..]);
      assert Proper(tokens[0]);
      var s := Written(tokens);
      match tokens[0]
      case Plain(b) => assert s[0] == b && s[1..] == Written(tokens[1..]);
      case Escaped(high, low) =>
        assert s[0] == PERCENT && s[1] == high && s[2] == low && s[3..] == Written(tokens[1..]);
    }
  }

  lemma {:induction false} DecodedIsWritten(s: seq<Byte>) returns (tokens: seq<Token>)
    requires Decode(s).Some?
    ensures (forall t :: t in tokens ==> Proper(t)) && Written(tokens) == s && Meant(tokens) == Decode(s).value
    decreases |s|
  {
    if s == [] {
      tokens := [];
    } else {
      var head := if s[0] != PERCENT then Plain(s[0]) else Escaped(s[1], s[2]);
      var used := if s[0] != PERCENT then 1 else 3;
      var rest := DecodedIsWritten(s[used..]);
      tokens := [head] + rest;
      assert tokens[1..] == rest;
      assert s == s[..used] + s[used..];
    }
  }

  /** Decoding succeeds exactly on percent-encoded text, and gives what it stands for. */
  lemma DecodeIsRfc3986(s: seq<Byte>, out: seq<Byte>)
    ensures Decode(s) == Some(out) <==>
      exists tokens: seq<Token> ::
        (forall t :: t in tokens ==> Proper(t)) && Written(tokens) == s && Meant(tokens) == out
  {
    if Decode(s) == Some(out) {
      var tokens := DecodedIsWritten(s);
    }
    forall tokens: seq<Token> | (forall t :: t in tokens ==> Proper(t)) && Written(tokens) == s && Meant(tokens) == out
      ensures Decode(s) == Some(out)
    {
      DecodeReads(tokens);
    }
  }

  /** Decoding never lengthens, and keeps the length only of text without "%". */
  lemma {:induction false} DecodeShrinks(s: seq<Byte>)
    requires Decode(s).Some?
    ensures |Decode(s).value| <= |s|
    ensures PERCENT in s ==> |Decode(s).value| < |s|
    decreases |s|
  {
    if s != [] { DecodeShrinks(s[if s[0] != PERCENT then 1 else 3..]); }
  }

  lemma {:induction false} PlainDecodesToItself(s: seq<Byte>)
    requires PERCENT !in s
    ensures Decode(s) == Some(s)
    decreases |s|
  {
    if s != [] {
      PlainDecodesToItself(s[1..]);
      assert s == [s[0]] + s[1..];
    }
  }

  // ----- UTF-8 -----

  predicate Continues(s: seq<Byte>, i: nat) { i < |s| && 0x80 <= s[i] <= 0xBF }

  /** Length of the character s starts with, or 0 if it starts with none. */
  function Lead(s: seq<Byte>): (n: nat)
    ensures n <= |s|
  {
    if s == [] then 0
    else if s[0] < 0x80 then 1
    else if 0xC2 <= s[0] <= 0xDF && Continues(s, 1) then 2
    else if 0xE0 <= s[0] <= 0xEF && Continues(s, 1) && Continues(s, 2)
            && (s[0] == 0xE0 ==> s[1] >= 0xA0) && (s[0] == 0xED ==> s[1] <= 0x9F) then 3
    else if 0xF0 <= s[0] <= 0xF4 && Continues(s, 1) && Continues(s, 2) && Continues(s, 3)
            && (s[0] == 0xF0 ==> s[1] >= 0x90) && (s[0] == 0xF4 ==> s[1] <= 0x8F) then 4
    else 0
  }

  predicate Utf8(s: seq<Byte>)
    decreases |s|
  {
    s == [] || (Lead(s) > 0 && Utf8(s[Lead(s)..]))
  }

  lemma {:induction false} Utf8Joins(a: seq<Byte>, b: seq<Byte>)
    requires Utf8(a) && Utf8(b)
    ensures Utf8(a + b)
    decreases |a|
  {
    if a == [] {
      assert a + b == b;
    } else {
      assert Lead(a + b) == Lead(a);
      Utf8Joins(a[Lead(a)..], b);
      assert (a + b)[Lead(a)..] == a[Lead(a)..] + b;
    }
  }

  lemma {:induction false} Utf8Cuts(a: seq<Byte>, ascii: Byte, b: seq<Byte>)
    requires ascii < 0x80 && Utf8(a + [ascii] + b)
    ensures Utf8(a) && Utf8(b)
    decreases |a|
  {
    var s := a + [ascii] + b;
    if a == [] {
      assert s[1..] == b;
    } else {
      assert s[|a|] == ascii && Lead(s) <= |a| && Lead(a) == Lead(s);
      assert s[Lead(s)..] == a[Lead(a)..] + [ascii] + b;
      Utf8Cuts(a[Lead(a)..], ascii, b);
    }
  }

  /** A Unicode scalar value. */
  predicate Scalar(c: nat) { c <= 0xD7FF || 0xE000 <= c <= 0x10FFFF }

  /** Its bytes (section 3 of RFC 3629). */
  function Encoded(c: nat): (r: seq<Byte>)
    requires Scalar(c)
    ensures r != []
  {
    if c < 0x80 then [c]
    else if c < 0x800 then [0xC0 + c / 64, 0x80 + c % 64]
    else if c < 0x1_0000 then [0xE0 + c / 4096, 0x80 + c / 64 % 64, 0x80 + c % 64]
    else [0xF0 + c / 262144, 0x80 + c / 4096 % 64, 0x80 + c / 64 % 64, 0x80 + c % 64]
  }

  function EncodedAll(text: seq<nat>): seq<Byte>
    requires forall c :: c in text ==> Scalar(c)
  {
    if text == [] then []
    else
      assert text[0] in text;
      Encoded(text[0]) + EncodedAll(text[1..])
  }

  lemma LeadOfEncoded(c: nat, rest: seq<Byte>)
    requires Scalar(c)
    ensures Lead(Encoded(c) + rest) == |Encoded(c)|
  {
  }

  /** The character a byte sequence starts with. */
  function First(s: seq<Byte>): nat
    requires Lead(s) > 0
  {
    var lead, tail := s[0] as int, (i: int) requires 0 <= i < |s| => s[i] as int - 0x80;
    match Lead(s)
    case 1 => lead
    case 2 => (lead - 0xC0) * 64 + tail(1)
    case 3 => (lead - 0xE0) * 4096 + tail(1) * 64 + tail(2)
    case _ => (lead - 0xF0) * 262144 + tail(1) * 4096 + tail(2) * 64 + tail(3)
  }

  lemma Place(q: nat, r: nat, d: nat)
    requires r < d
    ensures (q * d + r) / d == q && (q * d + r) % d == r
  {
    var n := q * d + r;
    assert n == d * (n / d) + n % d;
    MultipleOfTurn(d, n / d - q);
    assert d * (n / d - q) == r - n % d;
  }

  lemma Digits2(x: nat, y: nat)
    requires y < 64
    ensures (x * 64 + y) / 64 == x && (x * 64 + y) % 64 == y
  {
    Place(x, y, 64);
  }

  lemma Digits3(x: nat, y: nat, z: nat)
    requires y < 64 && z < 64
    ensures var c := x * 4096 + y * 64 + z; c / 4096 == x && c / 64 % 64 == y && c % 64 == z
  {
    Place(x, y * 64 + z, 4096);
    Place(x * 64 + y, z, 64);
    Place(x, y, 64);
  }

  lemma Digits4(x: nat, y: nat, z: nat, w: nat)
    requires y < 64 && z < 64 && w < 64
    ensures var c := x * 262144 + y * 4096 + z * 64 + w;
            c / 262144 == x && c / 4096 % 64 == y && c / 64 % 64 == z && c % 64 == w
  {
    Place(x, y * 4096 + z * 64 + w, 262144);
    Place(x * 64 + y, z * 64 + w, 4096);
    Place(x * 4096 + y * 64 + z, w, 64);
    Place(x, y, 64);
    Place(x * 64 + y, z, 64);
  }

  lemma FirstIsEncoded(s: seq<Byte>)
    requires Lead(s) > 0
    ensures Scalar(First(s)) && Encoded(First(s)) == s[..Lead(s)]
  {
    if Lead(s) == 2 { FirstOfTwo(s); }
    if Lead(s) == 3 { FirstOfThree(s); }
    if Lead(s) == 4 { FirstOfFour(s); }
  }

  lemma FirstOfTwo(s: seq<Byte>)
    requires Lead(s) == 2
    ensures Scalar(First(s)) && Encoded(First(s)) == s[..2]
  {
    Digits2(s[0] as int - 0xC0, s[1] as int - 0x80);
  }

  lemma FirstOfThree(s: seq<Byte>)
    requires Lead(s) == 3
    ensures Scalar(First(s)) && Encoded(First(s)) == s[..3]
  {
    Digits3(s[0] as int - 0xE0, s[1] as int - 0x80, s[2] as int - 0x80);
  }

  lemma FirstOfFour(s: seq<Byte>)
    requires Lead(s) == 4
    ensures Scalar(First(s)) && Encoded(First(s)) == s[..4]
  {
    Digits4(s[0] as int - 0xF0, s[1] as int - 0x80, s[2] as int - 0x80, s[3] as int - 0x80);
  }

  lemma {:induction false} Utf8Decodes(s: seq<Byte>) returns (text: seq<nat>)
    requires Utf8(s)
    ensures (forall c :: c in text ==> Scalar(c)) && EncodedAll(text) == s
    decreases |s|
  {
    if s == [] {
      text := [];
    } else {
      FirstIsEncoded(s);
      var rest := Utf8Decodes(s[Lead(s)..]);
      text := [First(s)] + rest;
      assert text[1..] == rest && s == s[..Lead(s)] + s[Lead(s)..];
    }
  }

  lemma {:induction false} EncodedIsUtf8(text: seq<nat>)
    requires forall c :: c in text ==> Scalar(c)
    ensures Utf8(EncodedAll(text))
    decreases |text|
  {
    if text != [] {
      var rest := EncodedAll(text[1..]);
      assert text[0] in text;
      EncodedIsUtf8(text[1..]);
      LeadOfEncoded(text[0], rest);
      assert (Encoded(text[0]) + rest)[|Encoded(text[0])|..] == rest;
    }
  }

  /** The byte check accepts exactly the encodings of sequences of scalar values, so
      no surrogates, overlong forms or values beyond 10FFFF. */
  lemma Utf8IsRfc3629(s: seq<Byte>)
    ensures Utf8(s) <==> exists text: seq<nat> :: (forall c :: c in text ==> Scalar(c)) && EncodedAll(text) == s
  {
    if Utf8(s) { var text := Utf8Decodes(s); }
    forall text: seq<nat> | (forall c :: c in text ==> Scalar(c)) && EncodedAll(text) == s ensures Utf8(s) {
      EncodedIsUtf8(text);
    }
  }

  // ----- separators -----

  function Unify(s: seq<Byte>): (r: seq<Byte>)
    ensures |r| == |s| && BACKSLASH !in r
    ensures forall i :: 0 <= i < |s| ==> r[i] == if s[i] == BACKSLASH then SLASH else s[i]
  {
    seq(|s|, i requires 0 <= i < |s| => if s[i] == BACKSLASH then SLASH else s[i])
  }

  lemma {:induction false} UnifyKeepsUtf8(s: seq<Byte>)
    requires Utf8(s)
    ensures Utf8(Unify(s))
    decreases |s|
  {
    if s != [] {
      assert Lead(Unify(s)) == Lead(s);
      UnifyKeepsUtf8(s[Lead(s)..]);
      assert Unify(s)[Lead(s)..] == Unify(s[Lead(s)..]);
    }
  }

  function Split(s: seq<Byte>): (r: seq<seq<Byte>>)
    ensures |r| > 0
  {
    if s == [] then [[]]
    else
      var q, last := Split(s[..|s| - 1]), s[|s| - 1];
      if last == SLASH then q + [[]] else q[..|q| - 1] + [q[|q| - 1] + [last]]
  }

  function Join(parts: seq<seq<Byte>>): seq<Byte>
  {
    if |parts| == 0 then []
    else if |parts| == 1 then parts[0]
    else Join(parts[..|parts| - 1]) + [SLASH] + parts[|parts| - 1]
  }

  function Kept(parts: seq<seq<Byte>>): seq<seq<Byte>>
  {
    if parts == [] then []
    else Kept(parts[..|parts| - 1]) + (if parts[|parts| - 1] == [] then [] else [parts[|parts| - 1]])
  }

  ghost predicate SlashFree(parts: seq<seq<Byte>>)
  {
    forall i :: 0 <= i < |parts| ==> SLASH !in parts[i]
  }

  lemma {:induction false} SplitIsSlashFree(s: seq<Byte>)
    ensures SlashFree(Split(s)) && Join(Split(s)) == s
  {
    if s != [] {
      var init, last := s[..|s| - 1], s[|s| - 1];
      SplitIsSlashFree(init);
      var q, r := Split(init), Split(s);
      assert s == init + [last];
      if last == SLASH {
        assert r[..|r| - 1] == q;
      } else {
        assert r[..|r| - 1] == q[..|q| - 1];
        if |q| > 1 {
          assert Join(r) == Join(q[..|q| - 1]) + [SLASH] + (q[|q| - 1] + [last]);
        }
      }
    }
  }

  lemma {:induction false} SplitPlain(s: seq<Byte>)
    requires SLASH !in s
    ensures Split(s) == [s]
  {
    if s != [] {
      SplitPlain(s[..|s| - 1]);
      assert s == s[..|s| - 1] + [s[|s| - 1]];
    }
  }

  lemma {:induction false} SplitLast(s: seq<Byte>, part: seq<Byte>)
    requires SLASH !in part
    ensures Split(s + [SLASH] + part) == Split(s) + [part]
    decreases |part|
  {
    var all := s + [SLASH] + part;
    if part == [] {
      assert all[..|all| - 1] == s;
    } else {
      var init := part[..|part| - 1];
      SplitLast(s, init);
      assert all[..|all| - 1] == s + [SLASH] + init && part == init + [part[|part| - 1]];
    }
  }

  lemma {:induction false} SplitJoins(parts: seq<seq<Byte>>)
    requires |parts| > 0 && SlashFree(parts)
    ensures Split(Join(parts)) == parts
    decreases |parts|
  {
    hide Split;
    var init, last := parts[..|parts| - 1], parts[|parts| - 1];
    assert parts == init + [last];
    if |parts| == 1 {
      SplitPlain(last);
    } else {
      SplitJoins(init);
      SplitLast(Join(init), last);
    }
  }

  lemma JoinLength(parts: seq<seq<Byte>>, last: seq<Byte>)
    ensures |Join(parts + [last])| == if parts == [] then |last| else |Join(parts)| + 1 + |last|
  {
  }

  lemma {:induction false} KeptIsPart(parts: seq<seq<Byte>>)
    ensures forall p :: p in Kept(parts) <==> p in parts && p != []
    decreases |parts|
  {
    if parts != [] {
      var init, last := parts[..|parts| - 1], parts[|parts| - 1];
      KeptIsPart(init);
      assert parts == init + [last];
    }
  }

  lemma {:induction false} KeptIsShorter(parts: seq<seq<Byte>>)
    ensures |Join(Kept(parts))| <= |Join(parts)|
    decreases |parts|
  {
    if parts != [] {
      hide Join;
      var init, last := parts[..|parts| - 1], parts[|parts| - 1];
      KeptIsShorter(init);
      assert parts == init + [last];
      JoinLength(init, last);
      if last == [] {
        assert Kept(parts) == Kept(init);
        EmptyJoin(init);
      } else {
        assert Kept(parts) == Kept(init) + [last];
        JoinLength(Kept(init), last);
      }
    }
  }

  lemma EmptyJoin(parts: seq<seq<Byte>>)
    ensures parts == [] ==> Join(parts) == []
  {
  }

  lemma {:induction false} KeptKeepsAll(parts: seq<seq<Byte>>)
    requires forall i :: 0 <= i < |parts| ==> parts[i] != []
    ensures Kept(parts) == parts
    decreases |parts|
  {
    if parts != [] {
      KeptKeepsAll(parts[..|parts| - 1]);
      assert parts == parts[..|parts| - 1] + [parts[|parts| - 1]];
    }
  }

  lemma Utf8Pair(a: seq<Byte>, b: seq<Byte>)
    ensures Utf8(a + [SLASH] + b) <==> Utf8(a) && Utf8(b)
  {
    if Utf8(a + [SLASH] + b) { Utf8Cuts(a, SLASH, b); }
    if Utf8(a) && Utf8(b) {
      assert Utf8([SLASH]) by { assert [SLASH][1..] == []; }
      Utf8Joins(a, [SLASH]);
      Utf8Joins(a + [SLASH], b);
    }
  }

  lemma {:induction false} JoinIsUtf8(parts: seq<seq<Byte>>)
    ensures Utf8(Join(parts)) <==> forall i :: 0 <= i < |parts| ==> Utf8(parts[i])
    decreases |parts|
  {
    hide Utf8;
    if |parts| == 0 {
      assert Utf8([]) by { EmptyIsUtf8(); }
    } else if |parts| > 1 {
      var init, last := parts[..|parts| - 1], parts[|parts| - 1];
      JoinIsUtf8(init);
      Utf8Pair(Join(init), last);
      assert forall i :: 0 <= i < |init| ==> init[i] == parts[i];
    }
  }

  lemma EmptyIsUtf8()
    ensures Utf8([])
  {
  }

  function WithoutSlashes(s: seq<Byte>): seq<Byte>
  {
    if s == [] then [] else WithoutSlashes(s[..|s| - 1]) + (if s[|s| - 1] == SLASH then [] else [s[|s| - 1]])
  }

  function Concat(parts: seq<seq<Byte>>): seq<Byte>
  {
    if parts == [] then [] else Concat(parts[..|parts| - 1]) + parts[|parts| - 1]
  }

  lemma {:induction false} SplitKeepsBytes(s: seq<Byte>)
    ensures Concat(Split(s)) == WithoutSlashes(s)
  {
    if s == [] {
      assert Split(s)[..0] == [];
    } else {
      var init, last := s[..|s| - 1], s[|s| - 1];
      SplitKeepsBytes(init);
      var q, r := Split(init), Split(s);
      if last == SLASH {
        assert r[..|r| - 1] == q;
      } else {
        assert r[..|r| - 1] == q[..|q| - 1];
      }
    }
  }

  lemma {:induction false} KeptKeepsBytes(parts: seq<seq<Byte>>)
    ensures Concat(Kept(parts)) == Concat(parts)
    decreases |parts|
  {
    if parts != [] {
      var init, last := parts[..|parts| - 1], parts[|parts| - 1];
      KeptKeepsBytes(init);
      if last == [] {
        assert Kept(parts) == Kept(init) && Concat(init) + [] == Concat(init);
      } else {
        assert Kept(parts)[..|Kept(parts)| - 1] == Kept(init);
      }
    }
  }

  // ----- the gate -----

  /** One plain file name: not ".", not "..", and no drive prefix on Windows. */
  predicate PlainName(seg: seq<Byte>, windows: bool)
  {
    && seg != [DOT] && seg != [DOT, DOT]
    && !(windows && |seg| >= 2 && seg[1] == COLON && (0x41 <= seg[0] <= 0x5A || 0x61 <= seg[0] <= 0x7A))
  }

  function Text(path: seq<Byte>): Option<seq<Byte>>
  {
    match Decode(path)
    case None => None
    case Some(out) => if |path| > MAX_PATH_BYTES || !Utf8(out) || 0 in out then None else Some(Unify(out))
  }

  function Sanitized(path: seq<Byte>, windows: bool): Option<seq<seq<Byte>>>
  {
    match Text(path)
    case None => None
    case Some(text) => Names(Split(text), windows)
  }

  function Names(parts: seq<seq<Byte>>, windows: bool): Option<seq<seq<Byte>>>
  {
    var segs := Kept(parts);
    if |segs| <= MAX_SEGMENTS && forall i :: 0 <= i < |segs| ==> PlainName(segs[i], windows) then Some(segs) else None
  }

  method SplitText(s: seq<Byte>) returns (parts: seq<seq<Byte>>)
    ensures parts == Split(s)
  {
    parts := [[]];
    var i := 0;
    while i < |s|
      invariant 0 <= i <= |s| && parts == Split(s[..i])
    {
      assert s[..i + 1][..i] == s[..i];
      parts := if s[i] == SLASH then parts + [[]] else parts[..|parts| - 1] + [parts[|parts| - 1] + [s[i]]];
      i := i + 1;
    }
    assert s[..i] == s;
  }

  lemma {:induction false} KeptGrows(parts: seq<seq<Byte>>, n: nat)
    requires n <= |parts|
    ensures Kept(parts[..n]) <= Kept(parts)
    decreases |parts|
  {
    if n < |parts| {
      KeptGrows(parts[..|parts| - 1], n);
      assert parts[..|parts| - 1][..n] == parts[..n];
    } else {
      assert parts[..n] == parts;
    }
  }

  /** The names among the parts, or nothing at the first that is no plain name. */
  method CollectNames(parts: seq<seq<Byte>>, windows: bool) returns (r: Option<seq<seq<Byte>>>)
    ensures r == Names(parts, windows)
  {
    hide PlainName;
    var out: seq<seq<Byte>> := [];
    var i := 0;
    while i < |parts|
      invariant 0 <= i <= |parts| && out == Kept(parts[..i]) && |out| <= MAX_SEGMENTS
      invariant forall k :: 0 <= k < |out| ==> PlainName(out[k], windows)
    {
      assert parts[..i + 1][..i] == parts[..i];
      KeptGrows(parts, i + 1);
      if parts[i] != [] {
        assert Kept(parts)[|out|] == parts[i];
        if !PlainName(parts[i], windows) {
          return None;
        }
        out := out + [parts[i]];
        if |out| > MAX_SEGMENTS {
          return None;
        }
      }
      i := i + 1;
    }
    assert parts[..i] == parts;
    r := Some(out);
  }

  method Sanitize(path: seq<Byte>, windows: bool) returns (r: Option<seq<seq<Byte>>>)
    ensures r == Sanitized(path, windows)
  {
    hide Decode, Utf8, Split, Names;
    if |path| > MAX_PATH_BYTES {
      return None;
    }
    var decoded := PercentDecode(path);
    if decoded.None? || 0 in decoded.value {
      return None;
    }
    var parts := SplitText(Unify(decoded.value));
    r := CollectNames(parts, windows);
  }

  /** Every accepted path is at most 24 non-empty names without separator, NUL, "."
      or ".."; together they are the decoded path without its separators. */
  lemma AcceptedIsClean(path: seq<Byte>, windows: bool)
    requires Sanitized(path, windows).Some?
    ensures
      var segs := Sanitized(path, windows).value;
      && |segs| <= 24 && |Join(segs)| <= |path| <= 1024
      && (forall i :: 0 <= i < |segs| ==>
            && segs[i] != [] && SLASH !in segs[i] && BACKSLASH !in segs[i] && 0 !in segs[i]
            && segs[i] != [DOT] && segs[i] != [DOT, DOT] && Utf8(segs[i]))
      && Text(path).Some? && Concat(segs) == WithoutSlashes(Text(path).value)
  {
    hide Utf8, Lead, PlainName, Kept, Split, Decode, Join, Concat, WithoutSlashes;
    var segs, text := Sanitized(path, windows).value, Text(path).value;
    var parts := Split(text);
    DecodeShrinks(path);
    SplitIsSlashFree(text);
    KeptIsPart(parts);
    KeptIsShorter(parts);
    SplitKeepsBytes(text);
    KeptKeepsBytes(parts);
    UnifyKeepsUtf8(Decode(path).value);
    JoinIsUtf8(parts);
    forall i | 0 <= i < |segs|
      ensures segs[i] != [] && SLASH !in segs[i] && BACKSLASH !in segs[i] && 0 !in segs[i] && Utf8(segs[i])
      ensures segs[i] != [DOT] && segs[i] != [DOT, DOT]
    {
      assert segs[i] in Kept(parts);
      PartIsBytes(parts, segs[i]);
      NoDots(segs[i], windows);
    }
  }

  lemma NoDots(seg: seq<Byte>, windows: bool)
    requires PlainName(seg, windows)
    ensures seg != [DOT] && seg != [DOT, DOT]
  {
  }

  lemma {:induction false} PartIsBytes(parts: seq<seq<Byte>>, part: seq<Byte>)
    requires part in parts
    ensures forall b :: b in part ==> b in Join(parts)
    decreases |parts|
  {
    if |parts| > 1 && part != parts[|parts| - 1] {
      PartIsBytes(parts[..|parts| - 1], part);
    }
  }

  lemma {:induction false} JoinBytes(parts: seq<seq<Byte>>, b: Byte)
    requires b != SLASH && forall p :: p in parts ==> b !in p
    ensures b !in Join(parts)
    decreases |parts|
  {
    if |parts| > 1 { JoinBytes(parts[..|parts| - 1], b); }
  }

  /** A name no list may hold: empty, one or two dots, with a separator or NUL, or on
      Windows beginning with a drive letter and a colon. */
  predicate BadName(seg: seq<Byte>, windows: bool)
  {
    || (|seg| <= 2 && forall b :: b in seg ==> b == 0x2E)
    || 0x2F in seg || 0x5C in seg || 0 in seg
    || (windows && |seg| >= 2 && seg[1] == 0x3A && ('a' <= seg[0] as char <= 'z' || 'A' <= seg[0] as char <= 'Z'))
  }

  lemma OnlyBadNamesAreRefused(seg: seq<Byte>, windows: bool)
    requires seg != [] && 0x2F !in seg && 0x5C !in seg && 0 !in seg
    ensures PlainName(seg, windows) <==> !BadName(seg, windows)
  {
    if |seg| <= 2 && forall b :: b in seg ==> b == 0x2E {
      assert seg[0] in seg && (|seg| == 2 ==> seg[1] in seg);
      assert seg == [DOT] || seg == [DOT, DOT];
    }
  }

  /** Every list of at most 24 names, none of them bad, is accepted and read back as it
      is from any percent-encoding of at most 1024 bytes, as long as it is UTF-8. */
  lemma GoodListsAreAccepted(segs: seq<seq<Byte>>, tokens: seq<Token>, windows: bool)
    requires |segs| <= 24 && forall i :: 0 <= i < |segs| ==> !BadName(segs[i], windows)
    requires (forall t :: t in tokens ==> Proper(t)) && Meant(tokens) == Join(segs)
    requires |Written(tokens)| <= 1024 && Utf8(Join(segs))
    ensures Sanitized(Written(tokens), windows) == Some(segs)
  {
    hide Utf8, Lead, PlainName, Kept, Split, BadName;
    forall i | 0 <= i < |segs|
      ensures segs[i] != [] && SLASH !in segs[i] && BACKSLASH !in segs[i] && 0 !in segs[i]
      ensures PlainName(segs[i], windows)
    {
      GoodNameIsPlain(segs[i], windows);
    }
    DecodeReads(tokens);
    JoinBytes(segs, 0);
    JoinBytes(segs, BACKSLASH);
    assert Unify(Join(segs)) == Join(segs);
    RejoinSplits(segs);
  }

  lemma GoodNameIsPlain(seg: seq<Byte>, windows: bool)
    requires !BadName(seg, windows)
    ensures seg != [] && SLASH !in seg && BACKSLASH !in seg && 0 !in seg && PlainName(seg, windows)
  {
    if seg != [] { OnlyBadNamesAreRefused(seg, windows); }
  }

  /** Nothing that is refused holds only good names: a path without an answer is too
      long, not percent-encoded UTF-8, contains NUL, or has more than 24 names or a
      bad one among its parts. */
  lemma RefusalsHaveReasons(path: seq<Byte>, windows: bool)
    ensures Sanitized(path, windows).None? <==>
      || |path| > 1024 || Decode(path).None? || !Utf8(Decode(path).value) || 0 in Decode(path).value
      || |Kept(Split(Unify(Decode(path).value)))| > 24
      || exists seg :: seg in Kept(Split(Unify(Decode(path).value))) && BadName(seg, windows)
  {
    hide Utf8, Lead, PlainName, Kept, Split, BadName, Decode;
    if Text(path).Some? {
      var segs := Kept(Split(Text(path).value));
      forall i | 0 <= i < |segs| ensures PlainName(segs[i], windows) <==> !BadName(segs[i], windows) {
        PartsAreWhole(path, segs[i]);
        OnlyBadNamesAreRefused(segs[i], windows);
      }
    }
  }

  lemma PartsAreWhole(path: seq<Byte>, seg: seq<Byte>)
    requires Text(path).Some? && seg in Kept(Split(Text(path).value))
    ensures seg != [] && 0x2F !in seg && 0x5C !in seg && 0 !in seg
  {
    hide Utf8, Lead, PlainName, Kept, Split, Decode, Join;
    var parts := Split(Text(path).value);
    SplitIsSlashFree(Text(path).value);
    KeptIsPart(parts);
    PartIsBytes(parts, seg);
  }

  /** The list is a normal form: written out again it is read back as itself,
      exactly when no "%" is left in it. */
  lemma SanitizeIsNormal(path: seq<Byte>, windows: bool)
    requires Sanitized(path, windows).Some?
    ensures
      var segs := Sanitized(path, windows).value;
      Sanitized(Join(segs), windows) == Some(segs) <==> PERCENT !in Join(segs)
  {
    hide Utf8, Lead, PlainName, Kept, Split;
    var segs := Sanitized(path, windows).value;
    var again := Join(segs);
    AcceptedIsClean(path, windows);
    if PERCENT in again {
      if Sanitized(again, windows).Some? {
        var other := Sanitized(again, windows).value;
        RereadIsShorter(again, windows);
      }
    } else {
      PlainDecodesToItself(again);
      JoinIsUtf8(segs);
      JoinBytes(segs, 0);
      JoinBytes(segs, BACKSLASH);
      assert Unify(again) == again;
      RejoinSplits(segs);
    }
  }

  lemma RereadIsShorter(again: seq<Byte>, windows: bool)
    requires PERCENT in again && Sanitized(again, windows).Some?
    ensures |Join(Sanitized(again, windows).value)| < |again|
  {
    hide Utf8, Lead, PlainName;
    var text := Text(again).value;
    DecodeShrinks(again);
    SplitIsSlashFree(text);
    KeptIsShorter(Split(text));
  }

  lemma RejoinSplits(segs: seq<seq<Byte>>)
    requires SlashFree(segs) && forall i :: 0 <= i < |segs| ==> segs[i] != []
    ensures Kept(Split(Join(segs))) == segs
  {
    if segs == [] {
      var blank: seq<seq<Byte>> := [[]];
      assert Join(segs) == [] && Split([]) == blank && blank[..0] == [] && Kept(blank) == [];
    } else {
      SplitJoins(segs);
      KeptKeepsAll(segs);
    }
  }
}
