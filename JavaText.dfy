/** The parts of java.lang that the graph encoder and `Attribute.hashCode`
    depend on, written out: `Boolean.valueOf(String)`, `Integer.valueOf` and
    `Long.valueOf` in radix 10, `String.split(",")` and `String.hashCode`. */
module JavaText {
  import opened Common

  // ---------------------------------------------------------------------
  // Boolean.valueOf(String): true exactly for "true" in any letter case
  // ---------------------------------------------------------------------

  function ToLowerAscii(c: char): char {
    if 'A' <= c <= 'Z' then (c as int + 32) as char else c
  }

  function LowerAscii(s: string): (r: string)
    ensures |r| == |s|
    ensures forall i :: 0 <= i < |s| ==> r[i] == ToLowerAscii(s[i])
  {
    if s == [] then [] else [ToLowerAscii(s[0])] + LowerAscii(s[1..])
  }

  /** `Boolean.valueOf(s)`: `s != null && s.equalsIgnoreCase("true")`. No
      character outside ASCII folds onto one of the letters of "true", so an
      ASCII fold decides it. */
  function BooleanValueOf(s: Option<string>): (b: bool)
    ensures b <==> s.Some? && LowerAscii(s.value) == "true"
  {
    s.Some? && |s.value| == 4 &&
    ToLowerAscii(s.value[0]) == 't' && ToLowerAscii(s.value[1]) == 'r' &&
    ToLowerAscii(s.value[2]) == 'u' && ToLowerAscii(s.value[3]) == 'e'
  }

  lemma BooleanValueOfExamples()
    ensures BooleanValueOf(Some("true")) && BooleanValueOf(Some("TRUE")) && BooleanValueOf(Some("tRuE"))
    ensures !BooleanValueOf(None) && !BooleanValueOf(Some("yes")) && !BooleanValueOf(Some("1"))
    ensures !BooleanValueOf(Some("true ")) && !BooleanValueOf(Some(""))
  {
  }

  // ---------------------------------------------------------------------
  // Integer.valueOf / Long.valueOf in radix 10
  // ---------------------------------------------------------------------

  predicate IsDigit(c: char) { '0' <= c <= '9' }

  predicate AllDigits(s: string) {
    forall i :: 0 <= i < |s| ==> IsDigit(s[i])
  }

  /** The value of a string of decimal digits, most significant first. */
  function DigitsValue(s: string): nat
    requires AllDigits(s)
  {
    if s == [] then 0 else 10 * DigitsValue(s[..|s| - 1]) + DigitValue(s[|s| - 1])
  }

  function DigitValue(c: char): nat
    requires IsDigit(c)
  {
    c as int - '0' as int
  }

  /** `Integer.parseInt(s)` / `Long.parseLong(s)` for a range [lo, hi]: an
      optional '-' or '+', then one or more digits, the value within range.
      Null, an empty string, a lone sign, any other character and a value out
      of range all throw NumberFormatException carrying the input. */
  function ParseSigned(s: Option<string>, lo: int, hi: int): (r: Result<int, Exception>)
    ensures r.Success? ==> lo <= r.value <= hi
    ensures r.Failure? ==> r.error == NumberFormat(s)
    ensures r.Success? ==> s.Some? && s.value != [] && s.value != "-" && s.value != "+"
  {
    if s.None? then Failure(NumberFormat(s))
    else
      var t := s.value;
      var signed := |t| > 0 && (t[0] == '-' || t[0] == '+');
      var digits := if signed then t[1..] else t;
      if digits == [] || !AllDigits(digits) then Failure(NumberFormat(s))
      else
        var v: int := if signed && t[0] == '-' then -(DigitsValue(digits) as int) else DigitsValue(digits);
        if lo <= v <= hi then Success(v) else Failure(NumberFormat(s))
  }

  /** `Integer.valueOf(String)`. */
  function ParseInt(s: Option<string>): (r: Result<int32, Exception>)
    ensures r.Success? <==> ParseSigned(s, -0x8000_0000, 0x7fff_ffff).Success?
    ensures r.Success? ==> r.value as int == ParseSigned(s, -0x8000_0000, 0x7fff_ffff).value
  {
    match ParseSigned(s, -0x8000_0000, 0x7fff_ffff)
    case Success(v) => Success(v as int32)
    case Failure(e) => Failure(e)
  }

  /** `Long.valueOf(String)`. */
  function ParseLong(s: Option<string>): (r: Result<int64, Exception>)
    ensures r.Success? <==> ParseSigned(s, -0x8000_0000_0000_0000, 0x7fff_ffff_ffff_ffff).Success?
    ensures r.Success? ==> r.value as int == ParseSigned(s, -0x8000_0000_0000_0000, 0x7fff_ffff_ffff_ffff).value
  {
    match ParseSigned(s, -0x8000_0000_0000_0000, 0x7fff_ffff_ffff_ffff)
    case Success(v) => Success(v as int64)
    case Failure(e) => Failure(e)
  }

  /** Decimal digits of a natural number, as `Integer.toString` prints them. */
  function NatDigits(n: nat): string
    decreases n
  {
    var d := [('0' as int + n % 10) as char];
    if n < 10 then d else NatDigits(n / 10) + d
  }

  /** `Integer.toString(n)` / `Long.toString(n)`. */
  function ToDecimal(n: int): string {
    if n < 0 then "-" + NatDigits(-n) else NatDigits(n)
  }

  lemma {:induction false} NatDigitsValue(n: nat)
    ensures NatDigits(n) != [] && AllDigits(NatDigits(n))
    ensures DigitsValue(NatDigits(n)) == n
    decreases n
  {
    var s := NatDigits(n);
    if n >= 10 {
      NatDigitsValue(n / 10);
      assert s[..|s| - 1] == NatDigits(n / 10);
    } else {
      assert s[..|s| - 1] == [];
    }
  }

  /** Parsing inverts printing: every value in range is read back exactly. */
  lemma ParseRoundTrip(n: int, lo: int, hi: int)
    requires lo <= n <= hi
    ensures ParseSigned(Some(ToDecimal(n)), lo, hi) == Success(n)
  {
    if n < 0 {
      NatDigitsValue(-n);
      assert ToDecimal(n)[1..] == NatDigits(-n);
    } else {
      NatDigitsValue(n);
      assert IsDigit(NatDigits(n)[0]);
    }
  }

  lemma ParseIntRoundTrip(n: int32)
    ensures ParseInt(Some(ToDecimal(n as int))) == Success(n)
  {
    ParseRoundTrip(n as int, -0x8000_0000, 0x7fff_ffff);
  }

  // ---------------------------------------------------------------------
  // String.split(",")
  // ---------------------------------------------------------------------

  /** Every piece between commas, empty ones included: one more than there
      are commas. */
  function Pieces(s: string): (r: seq<string>)
    ensures |r| >= 1
  {
    if s == [] then [""]
    else
      var rest := Pieces(s[1..]);
      if s[0] == ',' then [""] + rest else [[s[0]] + rest[0]] + rest[1..]
  }

  /** `String.join(",", pieces)`. */
  function Join(pieces: seq<string>): string
    requires |pieces| >= 1
  {
    if |pieces| == 1 then pieces[0] else pieces[0] + "," + Join(pieces[1..])
  }

  function CommaCount(s: string): nat {
    if s == [] then 0 else (if s[0] == ',' then 1 else 0) + CommaCount(s[1..])
  }

  /** Splitting loses nothing: joining the pieces back gives the input, and
      no piece holds a comma. */
  lemma {:induction false} JoinPieces(s: string)
    ensures Join(Pieces(s)) == s
    ensures forall k :: 0 <= k < |Pieces(s)| ==> ',' !in Pieces(s)[k]
  {
    if s != [] {
      JoinPieces(s[1..]);
      var rest := Pieces(s[1..]);
      if s[0] == ',' {
        assert Pieces(s)[1..] == rest;
      } else if |rest| == 1 {
        assert Join(Pieces(s)) == [s[0]] + rest[0];
      } else {
        assert Pieces(s)[1..] == rest[1..];
        assert Join(rest) == rest[0] + "," + Join(rest[1..]);
      }
    }
  }

  lemma {:induction false} PiecesCount(s: string)
    ensures |Pieces(s)| == CommaCount(s) + 1
  {
    if s != [] {
      PiecesCount(s[1..]);
    }
  }

  /** The last piece is empty exactly when the text is empty or ends in a
      comma. */
  lemma {:induction false} LastPieceEmpty(s: string)
    ensures Pieces(s)[|Pieces(s)| - 1] == "" <==> s == [] || s[|s| - 1] == ','
  {
    if s != [] {
      LastPieceEmpty(s[1..]);
      var rest := Pieces(s[1..]);
      if s[0] != ',' && |rest| == 1 {
        PiecesCount(s[1..]);
        CommaCountOfLast(s[1..]);
      }
    }
  }

  lemma {:induction false} CommaCountOfLast(s: string)
    ensures s != [] && s[|s| - 1] == ',' ==> CommaCount(s) >= 1
  {
    if s != [] && s[0] != ',' {
      CommaCountOfLast(s[1..]);
    }
  }

  /** Removes trailing empty strings, as `String.split` does with its
      default limit of zero. */
  function DropTrailingEmpty(p: seq<string>): (r: seq<string>)
    ensures |r| <= |p| && r == p[..|r|]
    ensures r == [] || r[|r| - 1] != ""
    ensures forall k :: |r| <= k < |p| ==> p[k] == ""
  {
    if p != [] && p[|p| - 1] == "" then DropTrailingEmpty(p[..|p| - 1]) else p
  }

  /** `s.split(",")`: without a comma the whole input (even when empty);
      otherwise the pieces without the trailing empty ones. */
  function Split(s: string): (r: seq<string>)
  {
    if ',' !in s then [s] else DropTrailingEmpty(Pieces(s))
  }

  /** A non-empty text that does not end in a comma splits into exactly its
      pieces: one more than its commas. */
  lemma SplitWithoutTrailingComma(s: string)
    requires s != [] && s[|s| - 1] != ','
    ensures Split(s) == Pieces(s)
    ensures |Split(s)| == CommaCount(s) + 1
  {
    LastPieceEmpty(s);
    PiecesCount(s);
    if ',' !in s {
      NoCommaOnePiece(s);
    }
  }

  lemma {:induction false} NoCommaOnePiece(s: string)
    requires ',' !in s
    ensures Pieces(s) == [s]
  {
    if s != [] {
      assert ',' !in s[1..];
      NoCommaOnePiece(s[1..]);
      assert [s[0]] + s[1..] == s;
    }
  }

  /** A text of commas only splits into nothing. */
  lemma {:induction false} SplitOfCommasOnly(s: string)
    requires s != [] && forall i :: 0 <= i < |s| ==> s[i] == ','
    ensures Split(s) == []
  {
    assert s[0] == ',';
    AllPiecesEmpty(s);
  }

  lemma {:induction false} AllPiecesEmpty(s: string)
    requires forall i :: 0 <= i < |s| ==> s[i] == ','
    ensures forall k :: 0 <= k < |Pieces(s)| ==> Pieces(s)[k] == ""
  {
    if s != [] {
      AllPiecesEmpty(s[1..]);
    }
  }

  /** The example of a three-element reference list: three pieces. */
  lemma SplitThreeIds()
    ensures Split("1,2,3") == ["1", "2", "3"]
  {
    assert "1,2,3"[1..] == ",2,3" && ",2,3"[1..] == "2,3" && "2,3"[1..] == ",3";
    assert ",3"[1..] == "3" && "3"[1..] == "";
    assert "1,2,3"[0] == '1' && ",2,3"[0] == ',' && "2,3"[0] == '2' && ",3"[0] == ',' && "3"[0] == '3';
    assert ['3'] + "" == "3" && ['2'] + "" == "2" && ['1'] + "" == "1";
    assert Pieces("3") == ["3"];
    assert Pieces(",3") == ["", "3"];
    assert Pieces("2,3") == ["2", "3"];
    assert Pieces(",2,3") == ["", "2", "3"];
    assert Pieces("1,2,3") == ["1", "2", "3"];
    assert "1,2,3"[1] == ',';
  }

  /** Inner empty pieces stay; trailing ones go. */
  lemma SplitDropsOnlyTrailingEmpty()
    ensures Split("a,,b,,") == ["a", "", "b"]
  {
    var p := Pieces("a,,b,,");
    assert p == ["a", "", "b", "", ""] by {
      assert "a,,b,,"[1..] == ",,b,," && ",,b,,"[1..] == ",b,," && ",b,,"[1..] == "b,,";
      assert "b,,"[1..] == ",," && ",,"[1..] == "," && ","[1..] == "";
      assert "a,,b,,"[0] == 'a' && ",,b,,"[0] == ',' && ",b,,"[0] == ',' && "b,,"[0] == 'b';
      assert ",,"[0] == ',' && ","[0] == ',';
      assert ['a'] + "" == "a" && ['b'] + "" == "b";
      assert Pieces(",") == ["", ""];
      assert Pieces(",,") == ["", "", ""];
      assert Pieces("b,,") == ["b", "", ""];
      assert Pieces(",b,,") == ["", "b", "", ""];
      assert Pieces(",,b,,") == ["", "", "b", "", ""];
    }
    assert "a,,b,,"[1] == ',';
    assert DropTrailingEmpty(p) == DropTrailingEmpty(p[..4]) == DropTrailingEmpty(p[..3]);
    assert p[..3] == ["a", "", "b"];
  }

  /** A leading empty piece stays, and a text without a comma is returned
      whole, even when it is empty. */
  lemma SplitKeepsLeadingEmpty()
    ensures Split(",a") == ["", "a"]
    ensures Split("") == [""]
  {
    assert ",a"[1..] == "a" && "a"[1..] == "";
    assert ",a"[0] == ',' && "a"[0] == 'a' && ['a'] + "" == "a";
    assert Pieces("a") == ["a"];
    assert Pieces(",a") == ["", "a"];
    assert ",a"[0] == ',';
  }

  // ---------------------------------------------------------------------
  // String.hashCode and Objects.hashCode
  // ---------------------------------------------------------------------

  /** `s.hashCode()`: s[0]*31^(n-1) + ... + s[n-1] in 32-bit arithmetic. */
  function StringHashCode(s: string): int32 {
    if s == [] then 0
    else Wrap32(31 * StringHashCode(s[..|s| - 1]) as int + s[|s| - 1] as int)
  }

  /** `Objects.hashCode(o)`: 0 for null. */
  function ObjectsHashCode(o: Option<string>): int32 {
    match o
    case None => 0
    case Some(s) => StringHashCode(s)
  }
}
