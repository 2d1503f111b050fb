/** The parts of Python's text and bytes behaviour that the assembler
    (C16_assembler.py) relies on: `str.split()` with no argument,
    `str.lstrip` with a one-character argument, `str.replace`,
    `bytes.fromhex` and `hex()` of a non-negative int. */
module PyText {

  import opened Word
  import opened Wrappers

  // ----- str.split() -----

  /** `str.isspace()` for one character: the separators of `str.split()`. */
  predicate IsSpace(c: char) {
    var n := c as int;
    (0x09 <= n <= 0x0D) || (0x1C <= n <= 0x20) || n == 0x85 || n == 0xA0 ||
    n == 0x1680 || (0x2000 <= n <= 0x200A) || n == 0x2028 || n == 0x2029 ||
    n == 0x202F || n == 0x205F || n == 0x3000
  }

  /** `s` holds no separator. */
  predicate NoSpace(s: string) {
    forall i :: 0 <= i < |s| ==> !IsSpace(s[i])
  }

  /** `s` without its leading separators. */
  function DropSpaces(s: string): (t: string)
    ensures |t| <= |s| && t == s[|s| - |t|..]
    ensures |t| > 0 ==> !IsSpace(t[0])
  {
    if |s| > 0 && IsSpace(s[0]) then DropSpaces(s[1..]) else s
  }

  /** The length of the run of non-separators that begins `s`. */
  function WordLength(s: string): (n: nat)
    ensures n <= |s|
    ensures forall i :: 0 <= i < n ==> !IsSpace(s[i])
    ensures n < |s| ==> IsSpace(s[n])
  {
    if |s| > 0 && !IsSpace(s[0]) then 1 + WordLength(s[1..]) else 0
  }

  /** Words fit for splitting: non-empty and free of separators. */
  predicate Words(ws: seq<string>) {
    forall i :: 0 <= i < |ws| ==> |ws[i]| > 0 && NoSpace(ws[i])
  }

  /** `s.split()`: the maximal runs of non-separators, in order. Every
      token is non-empty and holds no separator. */
  function Split(s: string): (ts: seq<string>)
    ensures Words(ts)
    decreases |s|
  {
    var t := DropSpaces(s);
    if |t| == 0 then []
    else
      var n := WordLength(t);
      PrefixNoSpace(t, n);
      var rest := Split(t[n..]);
      ConsWords(t[..n], rest);
      [t[..n]] + rest
  }

  /** The first word of a string that starts with a non-separator is
      non-empty and holds no separator. */
  lemma PrefixNoSpace(t: string, n: nat)
    requires |t| > 0 && !IsSpace(t[0]) && n == WordLength(t)
    ensures 0 < n <= |t| && NoSpace(t[..n])
  {
  }

  /** A word in front of words gives words. */
  lemma ConsWords(w: string, ws: seq<string>)
    requires |w| > 0 && NoSpace(w) && Words(ws)
    ensures Words([w] + ws)
  {
    forall i | 0 <= i < |[w] + ws|
      ensures |([w] + ws)[i]| > 0 && NoSpace(([w] + ws)[i])
    {
      if i > 0 {
        assert ([w] + ws)[i] == ws[i - 1];
      }
    }
  }

  /** The words `ws` joined by single spaces, as `" ".join(ws)`. */
  function Join(ws: seq<string>): string {
    if |ws| == 0 then ""
    else if |ws| == 1 then ws[0]
    else ws[0] + " " + Join(ws[1..])
  }

  /** A leading separator does not change the split. */
  lemma SplitSpace(c: char, s: string)
    requires IsSpace(c)
    ensures Split([c] + s) == Split(s)
  {
    assert ([c] + s)[1..] == s;
  }

  /** A word followed by nothing or by a separator splits off as the first
      token. */
  lemma SplitWord(w: string, rest: string)
    requires |w| > 0 && NoSpace(w)
    requires |rest| > 0 ==> IsSpace(rest[0])
    ensures Split(w + rest) == [w] + Split(rest)
  {
    var s := w + rest;
    assert DropSpaces(s) == s;
    WordLengthOf(w, rest);
    assert s[..|w|] == w && s[|w|..] == rest;
  }

  lemma {:induction false} WordLengthOf(w: string, rest: string)
    requires NoSpace(w)
    requires |rest| > 0 ==> IsSpace(rest[0])
    ensures WordLength(w + rest) == |w|
    decreases |w|
  {
    if |w| > 0 {
      assert (w + rest)[1..] == w[1..] + rest;
      WordLengthOf(w[1..], rest);
    } else {
      assert w + rest == rest;
    }
  }

  /** Splitting undoes joining with single spaces: `" ".join(ws).split()`
      gives back `ws` for words without separators. */
  lemma {:induction false} SplitJoin(ws: seq<string>)
    requires Words(ws)
    ensures Split(Join(ws)) == ws
    decreases |ws|, 1
  {
    if |ws| == 0 {
    } else if |ws| == 1 {
      SplitJoinOne(ws[0]);
      assert [ws[0]] == ws;
    } else {
      SplitJoinMore(ws);
    }
  }

  /** The inductive step of SplitJoin: two or more words. */
  lemma {:induction false} SplitJoinMore(ws: seq<string>)
    requires |ws| > 1 && Words(ws)
    ensures Split(Join(ws)) == ws
    decreases |ws|, 0
  {
    WordsTail(ws);
    SplitJoin(ws[1..]);
    SplitJoinCons(ws[0], ws[1..]);
    assert [ws[0]] + ws[1..] == ws;
  }

  /** A single word splits back from its join. */
  lemma SplitJoinOne(w: string)
    requires |w| > 0 && NoSpace(w)
    ensures Split(Join([w])) == [w]
  {
    SplitWord(w, "");
    assert w + "" == w;
  }

  /** A word in front of words that split back from their join splits back too. */
  lemma SplitJoinCons(w: string, ws: seq<string>)
    requires |w| > 0 && NoSpace(w) && |ws| > 0 && Split(Join(ws)) == ws
    ensures Split(Join([w] + ws)) == [w] + ws
  {
    assert ([w] + ws)[1..] == ws;
    assert Join([w] + ws) == w + " " + Join(ws);
    SplitAfterWord(w, Join(ws));
  }

  /** A word and a space in front of a string split off as the first token. */
  lemma SplitAfterWord(w: string, rest: string)
    requires |w| > 0 && NoSpace(w)
    ensures Split(w + " " + rest) == [w] + Split(rest)
  {
    assert w + " " + rest == w + ([' '] + rest);
    SplitWord(w, [' '] + rest);
    SplitSpace(' ', rest);
  }

  /** The words after the first are words. */
  lemma WordsTail(ws: seq<string>)
    requires |ws| > 0 && Words(ws)
    ensures Words(ws[1..])
  {
    forall i | 0 <= i < |ws| - 1
      ensures |ws[1..][i]| > 0 && NoSpace(ws[1..][i])
    {
      assert ws[1..][i] == ws[i + 1];
    }
  }

  // ----- str.lstrip(c) -----

  /** `s.lstrip(c)` for a one-character argument: `s` without its leading
      copies of `c`. */
  function LStrip(s: string, c: char): (t: string)
    ensures |t| <= |s| && t == s[|s| - |t|..]
    ensures |t| > 0 ==> t[0] != c
    ensures forall i :: 0 <= i < |s| - |t| ==> s[i] == c
  {
    if |s| > 0 && s[0] == c then
      var t := LStrip(s[1..], c);
      assert s[1..][|s| - 1 - |t|..] == s[|s| - |t|..];
      assert forall i :: 1 <= i < |s| - |t| ==> s[i] == s[1..][i - 1];
      t
    else s
  }

  /** Stripping `c` from `[c] + s` strips it from `s`; a string that
      starts with another character is left alone. */
  lemma LStripStep(s: string, c: char)
    ensures LStrip([c] + s, c) == LStrip(s, c)
    ensures |s| > 0 && s[0] != c ==> LStrip(s, c) == s
  {
    assert ([c] + s)[1..] == s;
  }

  /** A suffix of a string without separators has none either. */
  lemma SuffixNoSpace(s: string, k: nat)
    requires NoSpace(s) && k <= |s|
    ensures NoSpace(s[k..])
  {
    forall i | 0 <= i < |s| - k
      ensures !IsSpace(s[k..][i])
    {
      assert s[k..][i] == s[k + i];
    }
  }

  // ----- bytes.fromhex -----

  /** The separators `bytes.fromhex` skips between digit pairs (ASCII
      whitespace only). */
  predicate IsAsciiSpace(c: char) {
    c == ' ' || (0x09 <= c as int <= 0x0D)
  }

  /** The value of a hexadecimal digit of either case. */
  function HexDigitValue(c: char): (v: Option<nat>)
    ensures v.Some? ==> v.value < 16
  {
    if '0' <= c <= '9' then Some(c as int - '0' as int)
    else if 'a' <= c <= 'f' then Some(c as int - 'a' as int + 10)
    else if 'A' <= c <= 'F' then Some(c as int - 'A' as int + 10)
    else None
  }

  /** `bytes.fromhex(s)`: one byte per pair of hexadecimal digits, high
      digit first; whitespace may separate pairs; anything else, including
      a digit without a partner, is a ValueError (None). */
  function FromHex(s: string): Option<seq<u8>>
    decreases |s|
  {
    if |s| == 0 then Some([])
    else if IsAsciiSpace(s[0]) then FromHex(s[1..])
    else if |s| < 2 || HexDigitValue(s[0]).None? || HexDigitValue(s[1]).None? then None
    else
      match FromHex(s[2..])
      case None => None
      case Some(rest) =>
        Some([16 * HexDigitValue(s[0]).value + HexDigitValue(s[1]).value] + rest)
  }

  /** Without whitespace, a decodable string has two digits per byte, so
      an odd number of digits never decodes. */
  lemma {:induction false} FromHexLength(s: string)
    requires NoSpace(s)
    ensures FromHex(s).Some? ==> |s| == 2 * |FromHex(s).value|
    ensures |s| % 2 == 1 ==> FromHex(s).None?
    decreases |s|
  {
    if |s| >= 2 && HexDigitValue(s[0]).Some? && HexDigitValue(s[1]).Some? {
      assert !IsAsciiSpace(s[0]);
      FromHexLength(s[2..]);
    } else if |s| > 0 {
      assert !IsAsciiSpace(s[0]);
    }
  }

  // ----- hex() -----

  /** The lower-case hexadecimal digit for `v`. */
  function HexDigit(v: nat): (c: char)
    requires v < 16
    ensures HexDigitValue(c) == Some(v)
    ensures !IsSpace(c) && c != 'x' && (v > 0 ==> c != '0')
  {
    if v < 10 then ('0' as int + v) as char else ('a' as int + v - 10) as char
  }

  /** The digits of `hex(n)`, without leading zeros ("0" for zero). */
  function HexDigits(n: nat): (s: string)
    ensures |s| > 0 && NoSpace(s)
    ensures forall i :: 0 <= i < |s| ==> s[i] != 'x' && HexDigitValue(s[i]).Some?
    decreases n
  {
    if n < 16 then [HexDigit(n)] else HexDigits(n / 16) + [HexDigit(n % 16)]
  }

  /** `hex(n)` for `n >= 0`: "0x" and the digits. */
  function Hex(n: nat): string {
    "0x" + HexDigits(n)
  }

  /** Two lower-case digits for a byte, high digit first. */
  function HexPair(b: u8): string {
    [HexDigit(b / 16), HexDigit(b % 16)]
  }

  /** The digits of `hex(n)` decode back to `n`, most significant first,
      and there is no leading zero. */
  lemma {:induction false} HexDigitsValue(n: nat)
    ensures HexDigits(n)[0] != '0' || n == 0
    ensures DigitsValue(HexDigits(n)) == Some(n)
    decreases n
  {
    if n >= 16 {
      HexDigitsValue(n / 16);
      DigitsValueSnoc(HexDigits(n / 16), HexDigit(n % 16));
    }
  }

  /** The number a string of hexadecimal digits denotes, most significant
      first. */
  function DigitsValue(s: string): Option<nat> {
    if |s| == 0 then Some(0)
    else
      match (DigitsValue(s[..|s| - 1]), HexDigitValue(s[|s| - 1]))
      case (Some(h), Some(l)) => Some(16 * h + l)
      case _ => None
  }

  lemma DigitsValueSnoc(s: string, c: char)
    ensures DigitsValue(s + [c]) ==
      match (DigitsValue(s), HexDigitValue(c))
      case (Some(h), Some(l)) => Some(16 * h + l)
      case _ => None
  {
    assert (s + [c])[..|s|] == s;
  }

  /** The number of digits of `hex(n)`: one below 16, two below 256, three
      below 4096 and four below 65536. */
  lemma HexDigitCount(n: nat)
    ensures n < 16 ==> |HexDigits(n)| == 1
    ensures 16 <= n < 0x100 ==> |HexDigits(n)| == 2
    ensures 0x100 <= n < 0x1000 ==> |HexDigits(n)| == 3
    ensures 0x1000 <= n < 0x1_0000 ==> |HexDigits(n)| == 4
  {
    if n >= 16 {
      HexDigitCount(n / 16);
    }
  }

  /** From 256 on, the last two digits of `hex(n)` are the pair of the low
      byte and the digits before them are those of the rest. */
  lemma HexDigitsSplit(n: nat)
    requires n >= 0x100
    ensures HexDigits(n) == HexDigits(n / 0x100) + HexPair(n % 0x100)
  {
    var q, r := n / 0x100, n % 0x100;
    assert n / 16 == 16 * q + r / 16;
    assert (n / 16) / 16 == q && (n / 16) % 16 == r / 16 && n % 16 == r % 16;
    assert HexDigits(n / 16) == HexDigits(q) + [HexDigit(r / 16)];
  }

  /** An even number of hexadecimal digits always decodes, to half as
      many bytes. */
  lemma {:induction false} EvenDigitsDecode(s: string)
    requires |s| % 2 == 0
    requires forall i :: 0 <= i < |s| ==> HexDigitValue(s[i]).Some?
    ensures FromHex(s).Some? && 2 * |FromHex(s).value| == |s|
    decreases |s|
  {
    if |s| > 0 {
      assert !IsAsciiSpace(s[0]) by {
        assert HexDigitValue(s[0]).Some?;
      }
      assert forall i :: 0 <= i < |s| - 2 ==> s[2..][i] == s[i + 2];
      EvenDigitsDecode(s[2..]);
    }
  }

  /** Two digits decode to the byte they spell. */
  lemma FromHexPair(b: u8, rest: string)
    ensures FromHex(HexPair(b) + rest) ==
      match FromHex(rest)
      case None => None
      case Some(r) => Some([b] + r)
  {
    var s := HexPair(b) + rest;
    assert s[2..] == rest;
  }

  /** The two digits of a byte decode to that byte. */
  lemma PairDecode(b: u8)
    ensures FromHex(HexPair(b)) == Some([b])
  {
    FromHexPair(b, "");
    assert HexPair(b) + "" == HexPair(b);
    assert FromHex("") == Some([]);
    assert [b] + [] == [b];
  }

  // ----- str.replace -----

  /** `s.replace(pat, rep)`: every occurrence of `pat`, scanning left to
      right without overlaps, replaced by `rep`. */
  function Replace(s: string, pat: string, rep: string): string
    requires |pat| > 0
    decreases |s|
  {
    if |s| < |pat| then s
    else if s[..|pat|] == pat then rep + Replace(s[|pat|..], pat, rep)
    else [s[0]] + Replace(s[1..], pat, rep)
  }

  /** `pat` occurs in `s` starting at `i`. */
  predicate OccursAt(s: string, pat: string, i: int) {
    0 <= i && i + |pat| <= |s| && s[i..i + |pat|] == pat
  }

  /** When `pat` occurs in `p + pat` only as that suffix, replacing it
      rewrites only the suffix. */
  lemma {:induction false} ReplaceSuffix(p: string, pat: string, rep: string)
    requires |pat| > 0
    requires forall i :: 0 <= i < |p| ==> !OccursAt(p + pat, pat, i)
    ensures Replace(p + pat, pat, rep) == p + rep
    decreases |p|
  {
    var s := p + pat;
    if |p| == 0 {
      assert s == pat && s[..|pat|] == pat && s[|pat|..] == "";
    } else {
      assert !OccursAt(s, pat, 0);
      assert s[1..] == p[1..] + pat;
      forall i | 0 <= i < |p[1..]|
        ensures !OccursAt(p[1..] + pat, pat, i)
      {
        assert !OccursAt(s, pat, i + 1);
        assert (p[1..] + pat)[i..i + |pat|] == s[i + 1..i + 1 + |pat|];
      }
      ReplaceSuffix(p[1..], pat, rep);
      assert [s[0]] + (p[1..] + rep) == p + rep;
    }
  }
}
