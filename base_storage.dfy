/**
  `BaseStorage.buildRange`: a single `bytes=a-b` range against a file entry,
  giving the offsets to stream and the 206 headers (a small subset of
  RFC 9110 section 14.1.2, byte ranges, and section 14.4, Content-Range).
  There is no validation and no error path.
 */
module BaseStorage {
  import opened Wrappers
  import opened Js
  import opened StorageTypes

  /** The value `buildRange` returns: `{ start, end, headers }`. */
  datatype ByteRange = ByteRange(start: Num, end: Num, headers: Header206)

  /** `range.replace(/bytes=/, '').split('-')`. */
  function RangePieces(range: string): (pieces: seq<string>)
    ensures |pieces| >= 1
  {
    Split(ReplaceFirst(range, "bytes=", ""), '-')
  }

  /** `parts[1]`; when it is missing, `parseInt` reads `String(undefined)`. */
  function SecondPiece(pieces: seq<string>): string
    requires |pieces| >= 1
  {
    if |pieces| >= 2 then pieces[1] else "undefined"
  }

  predicate IsPositive(n: Num) {
    n.Int? && n.value > 0
  }

  function BuildRange(range: string, file: IFile): (r: ByteRange)
    // the headers always agree with the offsets that are returned
    ensures r.headers.contentLength == NumToString(Add(Sub(r.end, r.start), Int(1)))
    ensures r.headers.contentRange
         == "bytes " + NumToString(r.start) + "-" + NumToString(r.end) + "/" + IntToString(file.size)
    ensures r.headers.contentType == file.mimeType.GetOr("")
    ensures r.headers.contentDisposition == "attachment"
    // a positive second piece is the end; anything else means the last byte
    ensures !IsPositive(ParseIntNoRadix(SecondPiece(RangePieces(range)))) ==> r.end == Int(file.size - 1)
  {
    var parts := RangePieces(range);
    var start := ParseInt10(parts[0]);
    var end := if IsPositive(ParseIntNoRadix(SecondPiece(parts))) then ParseInt10(SecondPiece(parts))
               else Int(file.size - 1);
    var chunkSize := Add(Sub(end, start), Int(1));
    var headers := Header206(
      file.mimeType.GetOr(""),
      "attachment",
      NumToString(chunkSize),
      "bytes " + NumToString(start) + "-" + NumToString(end) + "/" + IntToString(file.size));
    ByteRange(start, end, headers)
  }

  // ---------------------------------------------------------------------
  // Properties
  // ---------------------------------------------------------------------

  lemma NoDashInNatToString(n: nat)
    ensures forall k :: 0 <= k < |NatToString(n)| ==> NatToString(n)[k] != '-'
  {
    NatToStringIsDigits(n);
  }

  lemma StripBytesPrefix(rest: string)
    ensures ReplaceFirst("bytes=" + rest, "bytes=", "") == rest
  {
    var s := "bytes=" + rest;
    assert s[..6] == "bytes=";
    assert s[6..] == rest;
  }

  /** `bytes=a-b` is cut into exactly the two decimal pieces. */
  lemma PiecesOfTwoNumbers(a: nat, b: string)
    requires forall k :: 0 <= k < |b| ==> b[k] != '-'
    ensures RangePieces("bytes=" + NatToString(a) + "-" + b) == [NatToString(a), b]
  {
    var rest := NatToString(a) + "-" + b;
    assert "bytes=" + NatToString(a) + "-" + b == "bytes=" + rest;
    StripBytesPrefix(rest);
    NoDashInNatToString(a);
    SplitAfterPiece(NatToString(a), '-', b);
    assert rest == NatToString(a) + ['-'] + b;
    SplitNoSeparator(b, '-');
  }

  /** The offsets in terms of the two pieces of the range. */
  lemma RangeOffsets(range: string, file: IFile, first: string, second: string)
    requires RangePieces(range)[0] == first && SecondPiece(RangePieces(range)) == second
    ensures BuildRange(range, file).start == ParseInt10(first)
    ensures BuildRange(range, file).end
         == if IsPositive(ParseIntNoRadix(second)) then ParseInt10(second) else Int(file.size - 1)
  {
  }

  /** For `bytes=a-b` with a positive `b`, the offsets are `a` and `b`, the chunk is
      `b - a + 1` and Content-Range is `bytes a-b/size`, whatever `a`, `b` and the
      size are: nothing checks `a <= b` or `b < size`. */
  lemma {:induction false} ClosedRange(a: nat, b: nat, file: IFile)
    requires b > 0
    ensures var r := BuildRange("bytes=" + NatToString(a) + "-" + NatToString(b), file);
      && r.start == Int(a)
      && r.end == Int(b)
      && r.headers.contentLength == IntToString(b - a + 1)
      && r.headers.contentRange
         == "bytes " + NatToString(a) + "-" + NatToString(b) + "/" + IntToString(file.size)
  {
    var range := "bytes=" + NatToString(a) + "-" + NatToString(b);
    NoDashInNatToString(b);
    PiecesOfTwoNumbers(a, NatToString(b));
    ParseNatToString(a);
    ParseNatToString(b);
    RangeOffsets(range, file, NatToString(a), NatToString(b));
  }

  /** `bytes=a-` runs to the last byte of the entry. */
  lemma {:induction false} OpenEndedRange(a: nat, file: IFile)
    ensures var r := BuildRange("bytes=" + NatToString(a) + "-", file);
      r.start == Int(a) && r.end == Int(file.size - 1)
      && r.headers.contentLength == IntToString(file.size - a)
  {
    var r := BuildRange("bytes=" + NatToString(a) + "-", file);
    OpenEndedOffsets(a, file);
    var chunk := Add(Sub(r.end, r.start), Int(1));
    assert chunk.value == file.size - a;
    assert chunk == Int(file.size - a);
  }

  lemma OpenEndedOffsets(a: nat, file: IFile)
    ensures var r := BuildRange("bytes=" + NatToString(a) + "-", file);
      r.start == Int(a) && r.end == Int(file.size - 1)
  {
    var range := "bytes=" + NatToString(a) + "-";
    OpenEndedPieces(a);
    EmptyIsNaN();
    ParseNatToString(a);
    RangeOffsets(range, file, NatToString(a), "");
  }

  lemma OpenEndedPieces(a: nat)
    ensures RangePieces("bytes=" + NatToString(a) + "-") == [NatToString(a), ""]
  {
    PiecesOfTwoNumbers(a, "");
    assert "bytes=" + NatToString(a) + "-" + "" == "bytes=" + NatToString(a) + "-";
  }

  /** An end of `0` is not positive, so `bytes=a-0` also runs to the last byte. */
  lemma {:induction false} ZeroEndRange(a: nat, file: IFile)
    ensures var r := BuildRange("bytes=" + NatToString(a) + "-0", file);
      r.start == Int(a) && r.end == Int(file.size - 1)
  {
    var range := "bytes=" + NatToString(a) + "-0";
    assert RangePieces(range) == [NatToString(a), "0"] by {
      PiecesOfTwoNumbers(a, "0");
      assert "bytes=" + NatToString(a) + "-" + "0" == range;
    }
    assert NatToString(0) == "0";
    ParseNatToString(a);
    ParseNatToString(0);
    RangeOffsets(range, file, NatToString(a), "0");
  }

  /** Without any `-`, the missing second piece reads as NaN and the range runs to the last byte. */
  lemma {:induction false} StartOnlyRange(a: nat, file: IFile)
    ensures var r := BuildRange("bytes=" + NatToString(a), file);
      r.start == Int(a) && r.end == Int(file.size - 1)
  {
    var range := "bytes=" + NatToString(a);
    assert RangePieces(range) == [NatToString(a)] by {
      StripBytesPrefix(NatToString(a));
      NoDashInNatToString(a);
      SplitNoSeparator(NatToString(a), '-');
    }
    UndefinedIsNaN();
    ParseNatToString(a);
    RangeOffsets(range, file, NatToString(a), "undefined");
  }

  /** `parseInt(undefined)` reads the text "undefined", which has no digits. */
  lemma UndefinedIsNaN()
    ensures ParseIntNoRadix("undefined") == NaN
  {
    UndefinedIsTrimmed();
    UndefinedHasNoDigits();
  }

  lemma UndefinedIsTrimmed()
    ensures TrimStart("undefined") == "undefined"
  {
    var s := "undefined";
    assert s[0] == 'u';
    TrimStartKeeps(s);
  }

  lemma UndefinedHasNoDigits()
    ensures ParseMagnitude("undefined", true) == NaN
  {
    assert DigitPrefix("undefined", 10) == [];
  }

  lemma EmptyIsNaN()
    ensures ParseInt10("") == NaN
    ensures ParseIntNoRadix("") == NaN
  {
  }

  lemma PiecesOfSuffix(n: nat)
    ensures RangePieces("bytes=-" + NatToString(n)) == ["", NatToString(n)]
  {
    var b := NatToString(n);
    var rest := "-" + b;
    assert "bytes=-" + b == "bytes=" + rest;
    StripBytesPrefix(rest);
    NoDashInNatToString(n);
    SplitAfterPiece("", '-', b);
    assert rest == "" + ['-'] + b;
    SplitNoSeparator(b, '-');
  }

  /** A suffix range `bytes=-n` (section 14.1.2 of RFC 9110) is not understood:
      the first piece is empty, so the start and the length are NaN. */
  lemma {:induction false} SuffixRangeHasNaNStart(n: nat, file: IFile)
    requires n > 0
    ensures var r := BuildRange("bytes=-" + NatToString(n), file);
      r.start == NaN && r.end == Int(n) && r.headers.contentLength == "NaN"
      && r.headers.contentRange == "bytes NaN-" + NatToString(n) + "/" + IntToString(file.size)
  {
    PiecesOfSuffix(n);
    ParseNatToString(n);
    EmptyIsNaN();
  }

  /** The positivity test reads the end without a radix but the value with radix 10:
      a hexadecimal end `0x10` passes the test as 16 and is then read as 0. */
  lemma HexEndReadsAsZero(file: IFile)
    ensures BuildRange("bytes=0-0x10", file).end == Int(0)
  {
    PiecesOfTwoNumbers(0, "0x10");
    assert "bytes=" + NatToString(0) + "-" + "0x10" == "bytes=0-0x10";
    assert RangePieces("bytes=0-0x10") == ["0", "0x10"];
    HexTextReadsBothWays();
  }

  lemma HexTextReadsBothWays()
    ensures ParseIntNoRadix("0x10") == Int(16)
    ensures ParseInt10("0x10") == Int(0)
  {
    HexTextIsTrimmed();
    HexTextAsHex();
    HexTextAsDecimal();
  }

  lemma HexTextIsTrimmed()
    ensures TrimStart("0x10") == "0x10"
  {
    var s := "0x10";
    assert s[0] == '0';
    TrimStartKeeps(s);
  }

  lemma HexTextAsHex()
    ensures ParseMagnitude("0x10", true) == Int(16)
  {
    assert "0x10"[2..] == "10";
    assert DigitPrefix("10", 16) == "10";
    assert DigitsValue("10", 16) == 16;
  }

  lemma HexTextAsDecimal()
    ensures ParseMagnitude("0x10", false) == Int(0)
  {
    assert DigitPrefix("0x10", 10) == "0";
    assert DigitsValue("0", 10) == 0;
  }
}
