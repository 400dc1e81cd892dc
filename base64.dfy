/** The "base64" encoding of section 4 of RFC 4648 (standard alphabet, with
    '=' padding), as produced by Go's `base64.StdEncoding.EncodeToString`.

    The encoding is written in two layers: octets are cut into 6-bit symbols
    (`Symbols`, pure arithmetic), and each symbol is rendered as one character
    of Table 1 or as the pad character (`Render`). `Decode` is the matching
    strict decoder; the two are proved mutually inverse, so the encoding
    loses nothing and each octet string has exactly one encoding. */
module Base64 {
  import opened Wrappers
  import opened Octets

  /** A 6-bit group, the value one output character stands for. */
  type Sextet = i: int | 0 <= i < 64

  /** One output position: a 6-bit value or the pad character '='. */
  datatype Symbol = Value(v: Sextet) | Padding

  const Pad: char := '='

  predicate IsAlphabetChar(c: char) {
    ('A' <= c <= 'Z') || ('a' <= c <= 'z') || ('0' <= c <= '9') || c == '+' || c == '/'
  }

  /** Table 1 of RFC 4648: value 0..25 is 'A'..'Z', 26..51 is 'a'..'z',
      52..61 is '0'..'9', 62 is '+' and 63 is '/'. */
  function Alphabet(i: Sextet): (c: char)
    ensures IsAlphabetChar(c) && c != Pad
  {
    if i < 26 then (65 + i) as char
    else if i < 52 then (97 + (i - 26)) as char
    else if i < 62 then (48 + (i - 52)) as char
    else if i == 62 then '+'
    else '/'
  }

  /** The inverse of Table 1. */
  function IndexOf(c: char): (i: Sextet)
    requires IsAlphabetChar(c)
    ensures Alphabet(i) == c
  {
    if 'A' <= c <= 'Z' then c as int - 65
    else if 'a' <= c <= 'z' then c as int - 97 + 26
    else if '0' <= c <= '9' then c as int - 48 + 52
    else if c == '+' then 62
    else 63
  }

  function ToChar(x: Symbol): char {
    match x
    case Value(v) => Alphabet(v)
    case Padding => Pad
  }

  function FromChar(c: char): Option<Symbol> {
    if c == Pad then Some(Padding)
    else if IsAlphabetChar(c) then Some(Value(IndexOf(c)))
    else None
  }

  lemma FromToChar(x: Symbol)
    ensures FromChar(ToChar(x)) == Some(x)
  {
  }

  lemma ToFromChar(c: char)
    requires FromChar(c).Some?
    ensures ToChar(FromChar(c).value) == c
  {
  }

  /** Three octets become four 6-bit values (a full 24-bit group). */
  function Group(b0: Byte, b1: Byte, b2: Byte): seq<Symbol> {
    [Value(b0 / 4), Value(b0 % 4 * 16 + b1 / 16), Value(b1 % 16 * 4 + b2 / 64), Value(b2 % 64)]
  }

  /** A final group of one octet: two values and two pads. */
  function GroupOne(b0: Byte): seq<Symbol> {
    [Value(b0 / 4), Value(b0 % 4 * 16), Padding, Padding]
  }

  /** A final group of two octets: three values and one pad. */
  function GroupTwo(b0: Byte, b1: Byte): seq<Symbol> {
    [Value(b0 / 4), Value(b0 % 4 * 16 + b1 / 16), Value(b1 % 16 * 4), Padding]
  }

  function Symbols(b: seq<Byte>): (t: seq<Symbol>)
    decreases |b|
  {
    if |b| == 0 then []
    else if |b| == 1 then GroupOne(b[0])
    else if |b| == 2 then GroupTwo(b[0], b[1])
    else Group(b[0], b[1], b[2]) + Symbols(b[3..])
  }

  function Render(t: seq<Symbol>): (s: string)
    ensures |s| == |t|
  {
    if t == [] then [] else [ToChar(t[0])] + Render(t[1..])
  }

  function Lex(s: string): (r: Option<seq<Symbol>>)
  {
    if s == [] then Some([])
    else match (FromChar(s[0]), Lex(s[1..]))
      case (Some(x), Some(t)) => Some([x] + t)
      case _ => None
  }

  /** The encoding Go's `EncodeToString` returns. */
  function Encode(b: seq<Byte>): (s: string)
  {
    Render(Symbols(b))
  }

  /** Every started group of three octets costs four characters. */
  lemma {:induction false} EncodedLength(b: seq<Byte>)
    ensures |Encode(b)| == 4 * ((|b| + 2) / 3)
    decreases |b|
  {
    if |b| >= 3 {
      EncodedLength(b[3..]);
      assert Symbols(b) == Group(b[0], b[1], b[2]) + Symbols(b[3..]);
    }
  }

  /** Four values back to three octets. */
  function Ungroup(x0: Symbol, x1: Symbol, x2: Symbol, x3: Symbol): Option<seq<Byte>> {
    if x0.Value? && x1.Value? && x2.Value? && x3.Value? then
      var i0, i1, i2, i3 := x0.v, x1.v, x2.v, x3.v;
      Some([i0 * 4 + i1 / 16, i1 % 16 * 16 + i2 / 4, i2 % 4 * 64 + i3])
    else None
  }

  /** The last group, which may carry one or two pads. The bits that padding
      leaves over must be zero (section 3.5 of RFC 4648, canonical encoding). */
  function UngroupLast(x0: Symbol, x1: Symbol, x2: Symbol, x3: Symbol): Option<seq<Byte>> {
    if x2.Padding? && x3.Padding? then
      if x0.Value? && x1.Value? && x1.v % 16 == 0 then Some([x0.v * 4 + x1.v / 16]) else None
    else if x3.Padding? then
      if x0.Value? && x1.Value? && x2.Value? && x2.v % 4 == 0 then
        Some([x0.v * 4 + x1.v / 16, x1.v % 16 * 16 + x2.v / 4])
      else None
    else Ungroup(x0, x1, x2, x3)
  }

  function Unsymbols(t: seq<Symbol>): Option<seq<Byte>>
    decreases |t|
  {
    if |t| == 0 then Some([])
    else if |t| < 4 then None
    else if |t| == 4 then UngroupLast(t[0], t[1], t[2], t[3])
    else
      match (Ungroup(t[0], t[1], t[2], t[3]), Unsymbols(t[4..]))
      case (Some(head), Some(tail)) => Some(head + tail)
      case _ => None
  }

  /** The strict decoder: characters to symbols, then symbols to octets. */
  function Decode(s: string): Option<seq<Byte>> {
    match Lex(s)
    case None => None
    case Some(t) => Unsymbols(t)
  }

  // ---- character layer

  lemma {:induction false} LexRender(t: seq<Symbol>)
    ensures Lex(Render(t)) == Some(t)
  {
    if t != [] {
      LexRender(t[1..]);
      FromToChar(t[0]);
      assert Render(t)[1..] == Render(t[1..]);
      assert [t[0]] + t[1..] == t;
    }
  }

  lemma {:induction false} RenderLex(s: string)
    requires Lex(s).Some?
    ensures Render(Lex(s).value) == s
  {
    if s != [] {
      RenderLex(s[1..]);
      ToFromChar(s[0]);
      var t := Lex(s).value;
      assert t[1..] == Lex(s[1..]).value;
      assert s == [s[0]] + s[1..];
    }
  }

  // ---- arithmetic layer

  lemma QuotRem4(q: int, r: int)
    requires 0 <= r < 4
    ensures (q * 4 + r) / 4 == q && (q * 4 + r) % 4 == r
  {
  }

  lemma QuotRem16(q: int, r: int)
    requires 0 <= r < 16
    ensures (q * 16 + r) / 16 == q && (q * 16 + r) % 16 == r
  {
  }

  /** Joining the four 6-bit slices of three octets gives the octets back. */
  lemma OctetsRoundTrip(b0: Byte, b1: Byte, b2: Byte)
    ensures var i0, i1, i2, i3 := b0 / 4, b0 % 4 * 16 + b1 / 16, b1 % 16 * 4 + b2 / 64, b2 % 64;
      i0 * 4 + i1 / 16 == b0 && i1 % 16 * 16 + i2 / 4 == b1 && i2 % 4 * 64 + i3 == b2
  {
    QuotRem16(b0 % 4, b1 / 16);
    QuotRem4(b1 % 16, b2 / 64);
  }

  /** Re-slicing the three octets a group decodes to gives back its sextets. */
  lemma SextetsRoundTrip(i0: Sextet, i1: Sextet, i2: Sextet, i3: Sextet)
    ensures var b0, b1, b2 := i0 * 4 + i1 / 16, i1 % 16 * 16 + i2 / 4, i2 % 4 * 64 + i3;
      b0 / 4 == i0 && b0 % 4 * 16 + b1 / 16 == i1 && b1 % 16 * 4 + b2 / 64 == i2 && b2 % 64 == i3
  {
    QuotRem4(i0, i1 / 16);
    QuotRem16(i1 % 16, i2 / 4);
    QuotRem64(i2 % 4, i3);
  }

  lemma {:induction false} UnsymbolsSymbols(b: seq<Byte>)
    ensures Unsymbols(Symbols(b)) == Some(b)
    decreases |b|
  {
    if |b| == 1 {
      OctetsRoundTrip(b[0], 0, 0);
      assert b == [b[0]];
    } else if |b| == 2 {
      OctetsRoundTrip(b[0], b[1], 0);
      assert b == [b[0], b[1]];
    } else if |b| >= 3 {
      if |b| > 3 {
        UnsymbolsSymbols(b[3..]);
      }
      UnsymbolsAfterGroup(b);
    }
  }

  /** The inductive step of `UnsymbolsSymbols`: one full group, then the rest. */
  lemma UnsymbolsAfterGroup(b: seq<Byte>)
    requires |b| >= 3
    requires |b| > 3 ==> Unsymbols(Symbols(b[3..])) == Some(b[3..])
    ensures Unsymbols(Symbols(b)) == Some(b)
  {
    SplitGroup(b);
    var g := Group(b[0], b[1], b[2]);
    GroupRoundTrip(b[0], b[1], b[2]);
    if |b| == 3 {
      assert Symbols(b) == g + Symbols([]);
      assert g == [g[0], g[1], g[2], g[3]];
      assert b == [b[0], b[1], b[2]];
    } else {
      var u := Symbols(b[3..]);
      assert Symbols(b) == g + u;
      SymbolsNonEmpty(b[3..]);
      UnsymbolsCons(g, u);
    }
  }

  lemma SplitGroup(b: seq<Byte>)
    requires |b| >= 3
    ensures b == [b[0], b[1], b[2]] + b[3..]
  {
  }

  /** Decoding a full group followed by more symbols. */
  lemma UnsymbolsCons(g: seq<Symbol>, u: seq<Symbol>)
    requires |g| == 4 && |u| > 0
    ensures Unsymbols(g + u) ==
      match (Ungroup(g[0], g[1], g[2], g[3]), Unsymbols(u))
      case (Some(head), Some(tail)) => Some(head + tail)
      case _ => None
  {
    var t := g + u;
    assert t[4..] == u;
    assert t[0] == g[0] && t[1] == g[1] && t[2] == g[2] && t[3] == g[3];
  }

  lemma SymbolsNonEmpty(b: seq<Byte>)
    requires |b| > 0
    ensures |Symbols(b)| >= 4
  {
  }

  lemma GroupRoundTrip(b0: Byte, b1: Byte, b2: Byte)
    ensures var g := Group(b0, b1, b2);
      Ungroup(g[0], g[1], g[2], g[3]) == Some([b0, b1, b2]) && UngroupLast(g[0], g[1], g[2], g[3]) == Some([b0, b1, b2])
  {
    OctetsRoundTrip(b0, b1, b2);
  }

  lemma SymbolsAfterGroup(head: seq<Byte>, tail: seq<Byte>)
    requires |head| == 3
    ensures Symbols(head + tail) == Group(head[0], head[1], head[2]) + Symbols(tail)
  {
    assert (head + tail)[3..] == tail;
  }

  lemma LastCanonical(x0: Symbol, x1: Symbol, x2: Symbol, x3: Symbol)
    requires UngroupLast(x0, x1, x2, x3).Some?
    ensures Symbols(UngroupLast(x0, x1, x2, x3).value) == [x0, x1, x2, x3]
  {
    var b := UngroupLast(x0, x1, x2, x3).value;
    if x2.Padding? && x3.Padding? {
      SextetsRoundTrip(x0.v, x1.v, 0, 0);
    } else if x3.Padding? {
      SextetsRoundTrip(x0.v, x1.v, x2.v, 0);
    } else {
      SextetsRoundTrip(x0.v, x1.v, x2.v, x3.v);
      SymbolsAfterGroup(b, []);
    }
  }

  lemma {:induction false} SymbolsUnsymbols(t: seq<Symbol>)
    requires Unsymbols(t).Some?
    ensures Symbols(Unsymbols(t).value) == t
    decreases |t|
  {
    if |t| == 4 {
      LastCanonical(t[0], t[1], t[2], t[3]);
      assert t == [t[0], t[1], t[2], t[3]];
    } else if |t| > 4 {
      var head := Ungroup(t[0], t[1], t[2], t[3]).value;
      var tail := Unsymbols(t[4..]).value;
      SymbolsUnsymbols(t[4..]);
      SextetsRoundTrip(t[0].v, t[1].v, t[2].v, t[3].v);
      SymbolsAfterGroup(head, tail);
      assert t == t[..4] + t[4..];
    }
  }

  // ---- the two round trips

  /** Decoding undoes encoding: no octet string is lost or altered. */
  lemma DecodeEncode(b: seq<Byte>)
    ensures Decode(Encode(b)) == Some(b)
  {
    LexRender(Symbols(b));
    UnsymbolsSymbols(b);
  }

  /** Encoding undoes decoding: every string the strict decoder accepts is
      the encoding of what it decodes to, so the encoding is canonical. */
  lemma EncodeDecode(s: string)
    requires Decode(s).Some?
    ensures Encode(Decode(s).value) == s
  {
    RenderLex(s);
    SymbolsUnsymbols(Lex(s).value);
  }

  /** Pads only ever stand in the last two positions of an encoding. */
  lemma {:induction false} SymbolsPadOnlyAtEnd(b: seq<Byte>)
    ensures forall k :: 0 <= k < |Symbols(b)| && Symbols(b)[k].Padding? ==> k >= |Symbols(b)| - 2
    decreases |b|
  {
    if |b| >= 3 {
      SymbolsPadOnlyAtEnd(b[3..]);
      var t := Symbols(b);
      var u := Symbols(b[3..]);
      assert t == Group(b[0], b[1], b[2]) + u;
      assert |t| == |u| + 4;
      forall k | 0 <= k < |t| && t[k].Padding? ensures k >= |t| - 2 {
        if k >= 4 {
          assert t[k] == u[k - 4];
        }
      }
    }
  }
}
