/** Plain string comparisons: what the parser's recognisers are meant to compute. */
module HttpText {
  import opened HttpTypes

  /** ASCII lower case. */
  function LowerCase(c: Byte): Byte { if 65 <= c <= 90 then c + 32 else c }

  function LowerAll(s: seq<Byte>): (t: seq<Byte>)
    ensures |t| == |s|
    ensures forall i :: 0 <= i < |s| ==> t[i] == LowerCase(s[i])
  {
    seq(|s|, i requires 0 <= i < |s| => LowerCase(s[i]))
  }

  /** `v` is `word` in any case, then spaces. */
  predicate IsWordAndSpaces(v: seq<Byte>, word: seq<Byte>) {
    && |v| >= |word|
    && LowerAll(v)[..|word|] == word
    && forall i :: |word| <= i < |v| ==> v[i] == SP
  }

  predicate IsName(name: seq<Byte>, word: seq<Byte>) { LowerAll(name) == word }

  predicate IsConnectionName(name: seq<Byte>) { IsName(name, W_CONNECTION) || IsName(name, W_PROXY_CONNECTION) }

  /** The number that the digits of `v` spell, blanks ignored. */
  function DecValue(v: seq<Byte>): nat {
    if |v| == 0 then 0
    else
      var c := v[|v| - 1];
      if IsNum(c) then DecValue(v[..|v| - 1]) * 10 + (c - 48) else DecValue(v[..|v| - 1])
  }

  /** The number that `v` spells with the parser's hexadecimal table. */
  function HexValue(v: seq<Byte>): nat {
    if |v| == 0 then 0
    else
      var d := Unhex(v[|v| - 1]);
      HexValue(v[..|v| - 1]) * 16 + (if d < 0 then 0 else d)
  }

  /** The table accepts more than the hexadecimal digits: exactly the bytes from 128 up, which count as zero. */
  lemma UnhexTable(c: Byte)
    ensures Unhex(c) != -1 <==> IsHex(c) || c >= 128
    ensures c >= 128 ==> Unhex(c) == 0
  {}

  lemma LowerSnoc(s: seq<Byte>, c: Byte)
    ensures LowerAll(s + [c]) == LowerAll(s) + [LowerCase(c)]
  {}

  /** Extending a prefix of a word by one letter. */
  lemma PrefixSnoc(s: seq<Byte>, c: Byte, w: seq<Byte>)
    ensures s + [c] <= w <==> |s| < |w| && s <= w && c == w[|s|]
  {
    if s + [c] <= w {
      assert w[..|s|] == (s + [c])[..|s|] == s;
    }
  }

  lemma DecSnoc(v: seq<Byte>, c: Byte)
    ensures DecValue(v + [c]) == if IsNum(c) then DecValue(v) * 10 + (c - 48) else DecValue(v)
  {
    assert (v + [c])[..|v + [c]| - 1] == v;
  }

  lemma HexSnoc(v: seq<Byte>, c: Byte)
    requires Unhex(c) != -1
    ensures HexValue(v + [c]) == HexValue(v) * 16 + Unhex(c)
  {
    assert (v + [c])[..|v + [c]| - 1] == v;
  }

  /** On tokens the token table is ASCII lower case. */
  lemma TokenLowers(c: Byte)
    requires Token(c) != 0
    ensures Token(c) == LowerCase(c) && c != SP
  {}

  /** Setting bit 0x20 compares like ASCII lower case with letters and, line ends aside, with '-'. */
  lemma LowerLowers(c: Byte, w: Byte)
    requires 97 <= w <= 122 || (w == 45 && c != CR)
    ensures Lower(c) == w <==> LowerCase(c) == w
  {}
}
