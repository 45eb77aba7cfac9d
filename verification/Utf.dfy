// Strings as sequences of UTF-16 code units, and their size and form in UTF-8 (section 3 of RFC 3629).
module Utf {
  import opened Wrappers

  type CodeUnit = u: int | 0 <= u < 0x1_0000

  type Text = seq<CodeUnit>

  type Byte = b: int | 0 <= b < 256

  predicate High(u: CodeUnit) {
    0xD800 <= u <= 0xDBFF
  }

  predicate Low(u: CodeUnit) {
    0xDC00 <= u <= 0xDFFF
  }

  lemma Assoc(a: Text, b: Text, c: Text)
    ensures (a + b) + c == a + (b + c)
  {
  }

  lemma Suffix(a: Text, b: Text)
    ensures (a + b)[|a|..] == b
  {
  }

  // The code units of the first character: a surrogate pair, or a single unit (also a lone surrogate).
  function CharLength(t: Text): (n: nat)
    requires t != []
    ensures 1 <= n <= |t|
  {
    if High(t[0]) && |t| > 1 && Low(t[1]) then 2 else 1
  }

  // A lone surrogate is encoded as U+FFFD.
  function CodePoint(t: Text): nat
    requires t != []
  {
    if CharLength(t) == 2 then 0x1_0000 + ((t[0] as int) - 0xD800) * 0x400 + ((t[1] as int) - 0xDC00)
    else if High(t[0]) || Low(t[0]) then 0xFFFD
    else t[0]
  }

  function CharSize(t: Text): (n: nat)
    requires t != []
    ensures 1 <= n <= 4
  {
    if CharLength(t) == 2 then 4 else if t[0] < 0x80 then 1 else if t[0] < 0x800 then 2 else 3
  }

  function ByteLength(t: Text): nat {
    if t == [] then 0 else CharSize(t) + ByteLength(t[CharLength(t)..])
  }

  function EncodeChar(c: nat): seq<Byte>
    requires c < 0x11_0000
  {
    if c < 0x80 then [c]
    else if c < 0x800 then [0xC0 + c / 0x40, 0x80 + c % 0x40]
    else if c < 0x1_0000 then [0xE0 + c / 0x1000, 0x80 + c / 0x40 % 0x40, 0x80 + c % 0x40]
    else [0xF0 + c / 0x4_0000, 0x80 + c / 0x1000 % 0x40, 0x80 + c / 0x40 % 0x40, 0x80 + c % 0x40]
  }

  function Encode(t: Text): seq<Byte> {
    if t == [] then [] else EncodeChar(CodePoint(t)) + Encode(t[CharLength(t)..])
  }

  // The size computed without encoding is the size of the encoding.
  lemma {:induction false} ByteLengthIsEncodedLength(t: Text)
    ensures |Encode(t)| == ByteLength(t)
  {
    if t != [] {
      ByteLengthIsEncodedLength(t[CharLength(t)..]);
    }
  }

  // i lies between two characters.
  predicate Boundary(t: Text, i: nat)
    decreases |t|
  {
    i == 0 || (t != [] && CharLength(t) <= i && Boundary(t[CharLength(t)..], i - CharLength(t)))
  }

  lemma {:induction false} BoundaryWithin(t: Text, i: nat)
    requires Boundary(t, i)
    ensures i <= |t|
    decreases |t|
  {
    if i > 0 { BoundaryWithin(t[CharLength(t)..], i - CharLength(t)); }
  }

  // The first character of a text is that of any prefix cut after it.
  lemma FirstChar(t: Text, i: nat)
    requires t != [] && CharLength(t) <= i <= |t|
    ensures CharLength(t[..i]) == CharLength(t) && CodePoint(t[..i]) == CodePoint(t) && CharSize(t[..i]) == CharSize(t)
    ensures t[..i][CharLength(t)..] == t[CharLength(t)..][..i - CharLength(t)]
    ensures t[CharLength(t)..][i - CharLength(t)..] == t[i..]
  {
  }

  // Cutting between characters cuts the encoding.
  lemma {:induction false} CutAtBoundary(t: Text, i: nat)
    requires Boundary(t, i) && i <= |t|
    ensures Encode(t[..i]) + Encode(t[i..]) == Encode(t)
    decreases |t|
  {
    if i == 0 {
      assert t[..0] == [] && t[0..] == t;
    } else {
      var n := CharLength(t);
      FirstChar(t, i);
      BoundaryWithin(t[n..], i - n);
      CutAtBoundary(t[n..], i - n);
    }
  }

  lemma BytesAtBoundary(t: Text, i: nat)
    requires Boundary(t, i) && i <= |t|
    ensures ByteLength(t[..i]) + ByteLength(t[i..]) == ByteLength(t)
  {
    CutAtBoundary(t, i);
    ByteLengthIsEncodedLength(t);
    ByteLengthIsEncodedLength(t[..i]);
    ByteLengthIsEncodedLength(t[i..]);
  }

  // A cut of what follows a cut is a cut of the whole.
  lemma {:induction false} BoundaryCompose(t: Text, i: nat, j: nat)
    requires Boundary(t, i) && i <= |t| && Boundary(t[i..], j)
    ensures Boundary(t, i + j)
    decreases |t|
  {
    if i == 0 {
      assert t[0..] == t;
    } else {
      var n := CharLength(t);
      BoundaryWithin(t[n..], i - n);
      assert t[n..][i - n..] == t[i..];
      BoundaryCompose(t[n..], i - n, j);
    }
  }

  // A cut of the whole is a cut of any longer prefix.
  lemma {:induction false} BoundaryOfPrefix(t: Text, i: nat, j: nat)
    requires Boundary(t, i) && i <= j <= |t|
    ensures Boundary(t[..j], i)
    decreases |t|
  {
    if i > 0 {
      var n := CharLength(t);
      FirstChar(t, j);
      BoundaryOfPrefix(t[n..], i - n, j - n);
    }
  }

  lemma {:induction false} BoundaryEnd(t: Text)
    ensures Boundary(t, |t|)
    decreases |t|
  {
    if t != [] { BoundaryEnd(t[CharLength(t)..]); }
  }

  // The longest run of whole characters within a byte budget.
  function Cut(t: Text, budget: nat): nat
    decreases |t|
  {
    if t == [] || CharSize(t) > budget then 0
    else CharLength(t) + Cut(t[CharLength(t)..], budget - CharSize(t))
  }

  lemma {:induction false} CutLongest(t: Text, budget: nat)
    ensures Cut(t, budget) <= |t| && Boundary(t, Cut(t, budget))
    ensures ByteLength(t[..Cut(t, budget)]) <= budget
    ensures Cut(t, budget) < |t| ==> ByteLength(t[..Cut(t, budget)]) + CharSize(t[Cut(t, budget)..]) > budget
    ensures Cut(t, budget) == |t| <==> ByteLength(t) <= budget
    decreases |t|
  {
    if t == [] {
    } else if CharSize(t) > budget {
      assert t[..0] == [] && t[0..] == t;
    } else {
      var n := CharLength(t);
      var rest, i := t[n..], Cut(t[n..], budget - CharSize(t));
      CutLongest(rest, budget - CharSize(t));
      FirstChar(t, n + i);
    }
  }

  // The loop of splitUtf8: None when not even one character fits.
  method SplitUtf8(content: Text, maxBytes: nat) returns (r: Option<(Text, Text)>)
    ensures ByteLength(content) <= maxBytes ==> r == Some((content, []))
    ensures ByteLength(content) > maxBytes && Cut(content, maxBytes) == 0 ==> r == None
    ensures ByteLength(content) > maxBytes && Cut(content, maxBytes) > 0 ==>
              Cut(content, maxBytes) <= |content|
              && r == Some((content[..Cut(content, maxBytes)], content[Cut(content, maxBytes)..]))
  {
    if ByteLength(content) <= maxBytes { return Some((content, [])); }
    CutLongest(content, maxBytes);
    var bytes, index := 0, 0;
    assert content[0..] == content;
    while index < |content|
      invariant 0 <= index <= |content| && bytes <= maxBytes
      invariant Cut(content, maxBytes) == index + Cut(content[index..], maxBytes - bytes)
    {
      var rest := content[index..];
      var size, length := CharSize(rest), CharLength(rest);
      if bytes + size > maxBytes { break; }
      assert rest[length..] == content[index + length..];
      assert Cut(rest, maxBytes - bytes) == length + Cut(rest[length..], maxBytes - bytes - size);
      bytes := bytes + size;
      index := index + length;
    }
    if index == 0 { return None; }
    return Some((content[..index], content[index..]));
  }
}
