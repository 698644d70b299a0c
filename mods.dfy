/**
 * Mod bitmasks (MOD_CONSTANTS) and their parsing from two-letter abbreviations
 * such as "HDDT". JavaScript's bitwise operators work on 32-bit integers, so a
 * mask is a `bv32`.
 */
module Mods {
  import opened Wrappers

  type Mask = bv32

  const NOMOD: Mask := 0
  const NF: Mask := 1        // 1 << 0
  const EZ: Mask := 2        // 1 << 1
  const TD: Mask := 4        // 1 << 2 (touch device, also legacy no-video)
  const HD: Mask := 8        // 1 << 3
  const HR: Mask := 16       // 1 << 4
  const DT: Mask := 64       // 1 << 6
  const HT: Mask := 256      // 1 << 8
  const NC: Mask := 512      // 1 << 9
  const FL: Mask := 1024     // 1 << 10
  const SO: Mask := 4096     // 1 << 12

  const SpeedChanging: Mask := DT | HT | NC
  const MapChanging: Mask := HR | EZ | SpeedChanging

  /** Every bit that some entry of the table owns. */
  const AllMods: Mask := NF | EZ | TD | HD | HR | DT | HT | NC | FL | SO

  /** True when `m` sets only bits owned by the table. */
  predicate OnlyTableBits(m: Mask)
  {
    m & !AllMods == 0
  }

  /** `MOD_CONSTANTS[abbrev] || 0` for a two-character chunk. */
  function AbbrevBits(a: string): (r: Mask)
    ensures OnlyTableBits(r)
    ensures r != 0 <==> a in {"NF", "EZ", "TD", "HD", "HR", "DT", "HT", "NC", "FL", "SO"}
  {
    if a == "NF" then NF
    else if a == "EZ" then EZ
    else if a == "TD" then TD
    else if a == "HD" then HD
    else if a == "HR" then HR
    else if a == "DT" then DT
    else if a == "HT" then HT
    else if a == "NC" then NC
    else if a == "FL" then FL
    else if a == "SO" then SO
    else 0
  }

  /** `\w` of a JavaScript regular expression without the `u` flag. */
  predicate IsWordChar(c: char)
  {
    ('A' <= c <= 'Z') || ('a' <= c <= 'z') || ('0' <= c <= '9') || c == '_'
  }

  /**
   * The characters other than a to z whose upper-case form, under
   * String.prototype.toUpperCase, holds an ASCII letter.
   */
  const Wide: set<char> := {
    '\U{00DF}', '\U{017F}', '\U{0131}', '\U{0149}', '\U{01F0}', '\U{1E96}', '\U{1E97}', '\U{1E98}',
    '\U{1E99}', '\U{1E9A}', '\U{FB00}', '\U{FB01}', '\U{FB02}', '\U{FB03}', '\U{FB04}', '\U{FB05}',
    '\U{FB06}'
  }

  /** A character that upper-casing leaves as it is. */
  predicate IsUpper(c: char)
  {
    !('a' <= c <= 'z') && c !in Wide
  }

  /**
   * String.prototype.toUpperCase on one character, as far as it can matter
   * here: a to z and the characters of `Wide` are mapped, any other
   * character is kept as it is (its upper-case form, if it has another,
   * holds no ASCII character).
   */
  function UpperChar(c: char): (r: string)
    ensures 1 <= |r| <= 3
    ensures forall d | d in r :: IsUpper(d)
    ensures IsUpper(c) <==> r == [c]
  {
    if 'a' <= c <= 'z' then [(c as int - 32) as char]
    else if c == '\U{00DF}' then "SS"                     // sharp s
    else if c == '\U{017F}' then "S"                      // long s
    else if c == '\U{0131}' then "I"                      // dotless i
    else if c == '\U{0149}' then ['\U{02BC}', 'N']        // n preceded by apostrophe
    else if c == '\U{01F0}' then ['J', '\U{030C}']        // j with caron
    else if c == '\U{1E96}' then ['H', '\U{0331}']        // h with line below
    else if c == '\U{1E97}' then ['T', '\U{0308}']        // t with diaeresis
    else if c == '\U{1E98}' then ['W', '\U{030A}']        // w with ring above
    else if c == '\U{1E99}' then ['Y', '\U{030A}']        // y with ring above
    else if c == '\U{1E9A}' then ['A', '\U{02BE}']        // a with right half ring
    else if c == '\U{FB00}' then "FF"
    else if c == '\U{FB01}' then "FI"
    else if c == '\U{FB02}' then "FL"
    else if c == '\U{FB03}' then "FFI"
    else if c == '\U{FB04}' then "FFL"
    else if c == '\U{FB05}' || c == '\U{FB06}' then "ST"
    else [c]
  }

  /**
   * `str.toUpperCase()`: every character of the result is already upper
   * case, a string whose characters all are is returned unchanged, and no
   * character grows into more than three.
   */
  function Upper(s: string): (r: string)
    ensures forall c | c in r :: IsUpper(c)
    ensures (forall c | c in s :: IsUpper(c)) ==> r == s
    ensures |s| <= |r| <= 3 * |s|
  {
    if s == [] then []
    else
      assert s == [s[0]] + s[1..] && s[0] in s;
      assert forall c | c in s[1..] :: c in s;
      UpperChar(s[0]) + Upper(s[1..])
  }

  /** An ASCII capital letter is its own upper case. */
  lemma CapitalIsUpper(c: char)
    requires 'A' <= c <= 'Z'
    ensures IsUpper(c)
  {
  }

  /** The mod abbreviations are already upper case. */
  lemma AbbreviationUpper(a: string)
    requires IsAbbreviation(a)
    ensures Upper(a) == a
  {
    assert |a| == 2 && 'A' <= a[0] <= 'Z' && 'A' <= a[1] <= 'Z';
    CapitalIsUpper(a[0]);
    CapitalIsUpper(a[1]);
    assert forall c | c in a :: c == a[0] || c == a[1];
  }

  /** Upper-casing works character by character: it distributes over concatenation. */
  lemma {:induction false} UpperAppend(a: string, b: string)
    ensures Upper(a + b) == Upper(a) + Upper(b)
  {
    if a != [] {
      assert (a + b)[0] == a[0] && (a + b)[1..] == a[1..] + b;
      UpperAppend(a[1..], b);
      calc {
        Upper(a + b);
        UpperChar(a[0]) + Upper(a[1..] + b);
        UpperChar(a[0]) + (Upper(a[1..]) + Upper(b));
        (UpperChar(a[0]) + Upper(a[1..])) + Upper(b);
        Upper(a) + Upper(b);
      }
    } else {
      assert a + b == b;
    }
  }

  /**
   * The matches of the global regular expression /(\w{2})/g: scanning from the
   * left, two word characters form a chunk, anything else is skipped one
   * character at a time.
   */
  function Chunks(s: string): (r: seq<string>)
    ensures forall k :: 0 <= k < |r| ==> |r[k]| == 2 && IsWordChar(r[k][0]) && IsWordChar(r[k][1])
    ensures |s| < 2 ==> r == []
    decreases |s|
  {
    if |s| < 2 then []
    else if IsWordChar(s[0]) && IsWordChar(s[1]) then [s[..2]] + Chunks(s[2..])
    else Chunks(s[1..])
  }

  /** The reduce step: OR of the table bits of every chunk. */
  function OrAll(chunks: seq<string>): (r: Mask)
    ensures OnlyTableBits(r)
    ensures forall k :: 0 <= k < |chunks| ==> r & AbbrevBits(chunks[k]) == AbbrevBits(chunks[k])
  {
    if chunks == [] then 0 else AbbrevBits(chunks[0]) | OrAll(chunks[1..])
  }

  /**
   * The reduce sets no bit beyond the chunks' own: a mask that holds the bits
   * of every chunk holds the result.
   */
  lemma {:induction false} OrAllBelow(chunks: seq<string>, m: Mask)
    requires forall k :: 0 <= k < |chunks| ==> AbbrevBits(chunks[k]) & !m == 0
    ensures OrAll(chunks) & !m == 0
  {
    if chunks != [] {
      var rest := chunks[1..];
      assert forall k :: 0 <= k < |rest| ==> rest[k] == chunks[k + 1];
      OrAllBelow(rest, m);
      OrBelow(AbbrevBits(chunks[0]), OrAll(rest), m);
    }
  }

  /** A union lies within m exactly when both of its parts do. */
  lemma OrBelow(a: Mask, b: Mask, m: Mask)
    ensures (a | b) & !m == 0 <==> a & !m == 0 && b & !m == 0
  {
    OrDistributes(a, b, m);
    OrZero(a & !m, b & !m);
  }

  lemma OrDistributes(a: Mask, b: Mask, m: Mask)
    ensures (a | b) & !m == (a & !m) | (b & !m)
  {
  }

  lemma OrZero(x: Mask, y: Mask)
    ensures x | y == 0 <==> x == 0 && y == 0
  {
  }

  datatype ModsError =
    | NoChunk   // `match` returned null and `reduce` threw a TypeError

  /** MOD_CONSTANTS.fromString */
  function FromString(s: string): (r: Result<Mask, ModsError>)
    ensures Upper(s) == "NOMOD" ==> r == Success(NOMOD)
    ensures Upper(s) != "NOMOD" && Chunks(Upper(s)) == [] ==> r == Failure(NoChunk)
    ensures r.Success? ==> OnlyTableBits(r.value)
  {
    var u := Upper(s);
    if u == "NOMOD" then Success(NOMOD)
    else
      var chunks := Chunks(u);
      if chunks == [] then Failure(NoChunk) else Success(OrAll(chunks))
  }

  /** The concatenation of a list of strings. */
  function Concat(parts: seq<string>): string
  {
    if parts == [] then "" else parts[0] + Concat(parts[1..])
  }

  predicate IsAbbreviation(a: string)
  {
    a in {"NF", "EZ", "TD", "HD", "HR", "DT", "HT", "NC", "FL", "SO"}
  }

  lemma UpperChunkIdempotent(s: string)
    ensures Upper(Upper(s)) == Upper(s)
  {
  }

  /** Letter case does not matter: parsing a string and its upper-cased form agree. */
  lemma FromStringIgnoresCase(s: string)
    ensures FromString(s) == FromString(Upper(s))
  {
    UpperChunkIdempotent(s);
  }

  lemma {:induction false} ChunksOfAbbreviations(abbrevs: seq<string>)
    requires forall k :: 0 <= k < |abbrevs| ==> IsAbbreviation(abbrevs[k])
    ensures Chunks(Concat(abbrevs)) == abbrevs
    ensures |Concat(abbrevs)| == 2 * |abbrevs|
  {
    if abbrevs != [] {
      var a, rest := abbrevs[0], abbrevs[1..];
      ChunksOfAbbreviations(rest);
      var s := Concat(abbrevs);
      assert s == a + Concat(rest);
      assert s[..2] == a;
      assert s[2..] == Concat(rest);
    }
  }

  lemma {:induction false} UpperOfAbbreviations(abbrevs: seq<string>)
    requires forall k :: 0 <= k < |abbrevs| ==> IsAbbreviation(abbrevs[k])
    ensures Upper(Concat(abbrevs)) == Concat(abbrevs)
  {
    if abbrevs != [] {
      UpperOfAbbreviations(abbrevs[1..]);
      UpperAppend(abbrevs[0], Concat(abbrevs[1..]));
      AbbreviationUpper(abbrevs[0]);
    }
  }

  /** Upper-casing a string of one or two characters maps each. */
  lemma UpperShort(a: char, b: char)
    ensures Upper([a]) == UpperChar(a)
    ensures Upper([a, b]) == UpperChar(a) + UpperChar(b)
  {
    assert [a, b] == [a] + [b];
    UpperAppend([a], [b]);
    assert Upper([b]) == UpperChar(b) + Upper([]);
    assert Upper([a]) == UpperChar(a) + Upper([]);
  }

  /** A string whose upper-cased form is not "NOMOD" and holds chunks gives the OR of their bits. */
  lemma FromStringOfChunks(s: string, u: string)
    requires Upper(s) == u && u != "NOMOD" && Chunks(u) != []
    ensures FromString(s) == Success(OrAll(Chunks(u)))
  {
  }

  /**
   * The mask of a chunked string is the least mask holding every chunk's bits:
   * it holds each of them, and any mask that holds them all holds it.
   */
  lemma FromStringLeast(s: string, chunks: seq<string>, m: Mask)
    requires Upper(s) != "NOMOD" && Chunks(Upper(s)) == chunks && chunks != []
    ensures FromString(s).Success?
    ensures forall k :: 0 <= k < |chunks| ==> FromString(s).value & AbbrevBits(chunks[k]) == AbbrevBits(chunks[k])
    ensures (forall k :: 0 <= k < |chunks| ==> AbbrevBits(chunks[k]) & !m == 0) ==> FromString(s).value & !m == 0
  {
    FromStringOfChunks(s, Upper(s));
    OrAllLeast(chunks, m);
  }

  /** OrAll holds every chunk's bits, and a mask that holds them all holds OrAll. */
  lemma OrAllLeast(chunks: seq<string>, m: Mask)
    ensures forall k :: 0 <= k < |chunks| ==> OrAll(chunks) & AbbrevBits(chunks[k]) == AbbrevBits(chunks[k])
    ensures (forall k :: 0 <= k < |chunks| ==> AbbrevBits(chunks[k]) & !m == 0) ==> OrAll(chunks) & !m == 0
  {
    if forall k :: 0 <= k < |chunks| ==> AbbrevBits(chunks[k]) & !m == 0 {
      OrAllBelow(chunks, m);
    }
  }

  /** A long s followed by "o" reads as SO. */
  lemma FromStringOfLongS()
    ensures FromString("\U{017F}o") == Success(SO)
  {
    UpperShort('\U{017F}', 'o');
    assert "\U{017F}o" == ['\U{017F}', 'o'];
    assert UpperChar('\U{017F}') == "S" && UpperChar('o') == "O";
    assert "SO"[..2] == "SO";
    assert Chunks("SO") == ["SO"];
    FromStringOfChunks("\U{017F}o", "SO");
  }

  lemma UpperOfHd()
    ensures Upper("hd") == "HD"
  {
    UpperShort('h', 'd');
    assert "hd" == ['h', 'd'];
    assert UpperChar('h') == "H" && UpperChar('d') == "D";
  }

  lemma UpperOfLigature()
    ensures Upper("hd\U{FB02}") == "HDFL"
  {
    UpperOfHd();
    UpperShort('\U{FB02}', 'x');
    assert UpperChar('\U{FB02}') == "FL";
    assert "hd\U{FB02}" == "hd" + ['\U{FB02}'];
    UpperAppend("hd", ['\U{FB02}']);
  }

  lemma ChunksOfHdFl()
    ensures Chunks("HDFL") == ["HD", "FL"]
    ensures OrAll(["HD", "FL"]) == HD | FL
  {
    assert "HDFL"[..2] == "HD" && "HDFL"[2..] == "FL" && "FL"[..2] == "FL";
    assert Chunks("FL") == ["FL"] + Chunks([]);
    assert ["HD", "FL"][1..] == ["FL"];
    assert OrAll(["FL"]) == FL | OrAll([]);
  }

  /** The "fl" ligature reads as FL. */
  lemma FromStringOfLigature()
    ensures FromString("hd\U{FB02}") == Success(HD | FL)
  {
    UpperOfLigature();
    ChunksOfHdFl();
    FromStringOfChunks("hd\U{FB02}", "HDFL");
  }

  /** A sharp s upper-cases to "SS", a chunk that names no mod. */
  lemma FromStringOfSharpS()
    ensures FromString("\U{00DF}") == Success(NOMOD)
  {
    UpperShort('\U{00DF}', 'x');
    assert "\U{00DF}" == ['\U{00DF}'];
    assert UpperChar('\U{00DF}') == "SS";
    assert "SS"[..2] == "SS";
    assert Chunks("SS") == ["SS"];
    FromStringOfChunks("\U{00DF}", "SS");
  }

  /**
   * Parsing a concatenation of known abbreviations, in any letter case, gives
   * the OR of their bits.
   */
  lemma FromStringOfAbbreviations(abbrevs: seq<string>, s: string)
    requires abbrevs != []
    requires forall k :: 0 <= k < |abbrevs| ==> IsAbbreviation(abbrevs[k])
    requires Upper(s) == Concat(abbrevs)
    ensures FromString(s) == Success(OrAll(abbrevs))
  {
    ChunksOfAbbreviations(abbrevs);
    UpperOfAbbreviations(abbrevs);
    assert |Upper(s)| != |"NOMOD"|;
  }
}
