/** Single byte ranges of RFC 9110 (sections 14.1.2 and 14.2), as parseRange reads them. */
module RangeHeaders {
  import opened Bytes
  import opened Decimals

  const MAX_SAFE_INTEGER := 9007199254740991

  /** Both ends included, as in Content-Range. */
  datatype ByteRange = ByteRange(start: nat, end: nat)

  /** What String.prototype.trim removes. */
  predicate IsJsSpace(c: char) {
    || '\U{0009}' <= c <= '\U{000D}'
    || c in [' ', '\U{00A0}', '\U{1680}', '\U{2028}', '\U{2029}', '\U{202F}', '\U{205F}', '\U{3000}', '\U{FEFF}']
    || '\U{2000}' <= c <= '\U{200A}'
  }

  function TrimStart(s: string): string {
    if s != "" && IsJsSpace(s[0]) then TrimStart(s[1..]) else s
  }

  function TrimEnd(s: string): string {
    if s != "" && IsJsSpace(s[|s| - 1]) then TrimEnd(s[..|s| - 1]) else s
  }

  function Trim(s: string): string {
    TrimEnd(TrimStart(s))
  }

  /** Length of the longest run of digits at the front. */
  function DigitSpan(s: string): (n: nat)
    ensures n <= |s| && AllDigits(s[..n])
    ensures n < |s| ==> !IsDigit(s[n])
  {
    if s != "" && IsDigit(s[0]) then
      var n := 1 + DigitSpan(s[1..]);
      assert forall i :: 0 < i < n ==> s[..n][i] == s[1..][..n - 1][i - 1];
      n
    else 0
  }

  /** parseRange; the header is None when absent. */
  function ParseRange(header: Option<string>, size: nat): Option<ByteRange> {
    if header == None || header.value == "" then None
    else
      var h := Trim(header.value);
      if |h| < 6 || h[..6] != "bytes=" then None
      else
        var n := DigitSpan(h[6..]);
        if n == 0 || |h| <= 6 + n || h[6 + n] != '-' || !AllDigits(h[7 + n..]) then None
        else
          var start := DigitsValue(h[6..][..n]);
          var last := h[7 + n..];
          var end := if last == "" || size - 1 <= DigitsValue(last) then size - 1 else DigitsValue(last);
          if start > MAX_SAFE_INTEGER || start >= size || end < start then None
          else Some(ByteRange(start, end))
  }

  /** The header asks for first-last, or for first- to the end. */
  predicate Asks(header: string, first: string, last: string) {
    && first != "" && AllDigits(first) && AllDigits(last)
    && Trim(header) == "bytes=" + first + "-" + last
  }

  /** The answer the standard gives: clamped to the file, and only if it selects a byte. */
  predicate Selects(first: string, last: string, size: nat, r: ByteRange)
    requires AllDigits(first) && AllDigits(last)
  {
    && r.start == DigitsValue(first) <= MAX_SAFE_INTEGER
    && r.start <= r.end < size
    && (last == "" ==> r.end == size - 1)
    && (last != "" ==> r.end == if DigitsValue(last) < size - 1 then DigitsValue(last) else size - 1)
  }

  lemma {:induction false} DigitSpanStops(first: string, last: string)
    requires AllDigits(first)
    ensures DigitSpan(first + "-" + last) == |first|
  {
    var s := first + "-" + last;
    if first != "" {
      assert s[0] == first[0];
      assert s[1..] == first[1..] + "-" + last;
      DigitSpanStops(first[1..], last);
    }
  }

  lemma AskedIsParsed(header: string, size: nat, first: string, last: string, r: ByteRange)
    requires Asks(header, first, last) && Selects(first, last, size, r)
    ensures ParseRange(Some(header), size) == Some(r)
  {
    var h := Trim(header);
    assert Trim("") == "";
    DigitSpanStops(first, last);
    assert h[..6] == "bytes=" && h[6..] == first + "-" + last;
    assert h[6..][..|first|] == first && h[6 + |first|] == '-' && h[7 + |first|..] == last;
  }

  lemma ParsedWasAsked(header: string, size: nat) returns (first: string, last: string)
    requires ParseRange(Some(header), size).Some?
    ensures Asks(header, first, last) && Selects(first, last, size, ParseRange(Some(header), size).value)
  {
    var h := Trim(header);
    var n := DigitSpan(h[6..]);
    first, last := h[6..][..n], h[7 + n..];
    assert h == h[..6] + h[6..6 + n] + h[6 + n..7 + n] + h[7 + n..];
    assert h[6..6 + n] == first && h[6 + n..7 + n] == "-";
  }

  /** A range is accepted if and only if the trimmed header has that one form and the range selects a byte. */
  lemma ParseRangeExactly(header: string, size: nat, r: ByteRange)
    ensures ParseRange(Some(header), size) == Some(r) <==>
              exists first, last :: Asks(header, first, last) && Selects(first, last, size, r)
  {
    if first, last :| Asks(header, first, last) && Selects(first, last, size, r) {
      AskedIsParsed(header, size, first, last, r);
    } else if ParseRange(Some(header), size) == Some(r) {
      var first, last := ParsedWasAsked(header, size);
    }
  }

  lemma NothingToTrim(s: string)
    requires s == "" || (!IsJsSpace(s[0]) && !IsJsSpace(s[|s| - 1]))
    ensures Trim(s) == s
  {}

  predicate AllSpaces(s: string) {
    forall i :: 0 <= i < |s| ==> IsJsSpace(s[i])
  }

  lemma {:induction false} TrimStartDrops(before: string, s: string)
    requires AllSpaces(before) && s != "" && !IsJsSpace(s[0])
    ensures TrimStart(before + s) == s
  {
    if before == "" {
      assert before + s == s;
    } else {
      assert (before + s)[1..] == before[1..] + s;
      TrimStartDrops(before[1..], s);
    }
  }

  lemma {:induction false} TrimEndDrops(s: string, after: string)
    requires AllSpaces(after) && s != "" && !IsJsSpace(s[|s| - 1])
    ensures TrimEnd(s + after) == s
  {
    if after == "" {
      assert s + after == s;
    } else {
      assert (s + after)[..|s + after| - 1] == s + after[..|after| - 1];
      TrimEndDrops(s, after[..|after| - 1]);
    }
  }

  /** White space around a header does not matter: bytes=first-last is read the same inside any. */
  lemma PaddingIsIgnored(before: string, first: string, last: string, after: string, size: nat, r: ByteRange)
    requires AllSpaces(before) && AllSpaces(after)
    requires first != "" && AllDigits(first) && AllDigits(last) && Selects(first, last, size, r)
    ensures ParseRange(Some(before + "bytes=" + first + "-" + last + after), size) == Some(r)
  {
    var header, asked := before + "bytes=" + first + "-" + last + after, "bytes=" + first + "-" + last;
    assert header == before + (asked + after);
    TrimStartDrops(before, asked + after);
    TrimEndDrops(asked, after);
    AskedIsParsed(header, size, first, last, r);
  }

  /** The header a download manager sends to continue after got bytes is read as the rest of the file. */
  lemma ResumeHeaderReadsBack(got: nat, size: nat)
    requires got < size && got <= MAX_SAFE_INTEGER
    ensures ParseRange(Some("bytes=" + Decimal(got) + "-"), size) == Some(ByteRange(got, size - 1))
  {
    var h := "bytes=" + Decimal(got) + "-";
    NothingToTrim(h);
    DecimalReadsBack(got);
    assert h == "bytes=" + Decimal(got) + "-" + "";
    AskedIsParsed(h, size, Decimal(got), "", ByteRange(got, size - 1));
  }

  /** A closed range comes back with its end clamped to the last byte. */
  lemma ClosedHeaderReadsBack(start: nat, end: nat, size: nat)
    requires start <= end && start < size && start <= MAX_SAFE_INTEGER
    ensures ParseRange(Some("bytes=" + Decimal(start) + "-" + Decimal(end)), size)
         == Some(ByteRange(start, if end < size then end else size - 1))
  {
    var h := "bytes=" + Decimal(start) + "-" + Decimal(end);
    NothingToTrim(h);
    DecimalReadsBack(start);
    DecimalReadsBack(end);
    var r := ByteRange(start, if end < size then end else size - 1);
    AskedIsParsed(h, size, Decimal(start), Decimal(end), r);
  }
}
