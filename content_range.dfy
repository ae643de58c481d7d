/** The Content-Range check used to accept an HTTP 206 response
    (`hasValidContentRangeHeader`). A header value is accepted when it is
    exactly `bytes <first>-<last>/<length>` with three runs of decimal digits
    (a `byte-content-range` of section 4.2 of RFC 7233 whose
    `byte-range-resp` has a complete length, not the `*` alternatives) and the range covers the whole resource. */
module ContentRange {
  import opened Wrappers
  import opened Digits

  const Prefix: string := "bytes "

  /** The three groups captured by `^bytes (\d+)-(\d+)\/(\d+)$`. */
  datatype RangeFields = RangeFields(first: string, last: string, length: string)

  predicate WellFormed(f: RangeFields) {
    |f.first| > 0 && IsDigits(f.first) &&
    |f.last| > 0 && IsDigits(f.last) &&
    |f.length| > 0 && IsDigits(f.length)
  }

  /** The header text whose groups are f. */
  function Render(f: RangeFields): string {
    Prefix + f.first + "-" + f.last + "/" + f.length
  }

  /** The header text for three numbers written in canonical decimal. */
  function RangeHeader(first: nat, last: nat, length: nat): string {
    Render(RangeFields(Decimal(first), Decimal(last), Decimal(length)))
  }

  /** The range starts at byte 0 and ends at the last byte of the resource. */
  predicate IsWholeResource(f: RangeFields)
    requires WellFormed(f)
  {
    Value(f.first) == 0 && Value(f.last) + 1 == Value(f.length)
  }

  /** The specification: the header is present and is some well-formed range
      that covers the whole resource. */
  ghost predicate DescribesWholeResource(header: Option<string>) {
    exists f :: WellFormed(f) && header == Some(Render(f)) && IsWholeResource(f)
  }

  /** Splits off the longest prefix of digits (greedy `\d*`). */
  function SpanDigits(s: string): (p: (string, string))
    ensures p.0 + p.1 == s && IsDigits(p.0)
    ensures p.1 == [] || !IsDigit(p.1[0])
  {
    if s != [] && IsDigit(s[0]) then
      var (d, r) := SpanDigits(s[1..]);
      assert [s[0]] + (d + r) == s;
      ([s[0]] + d, r)
    else
      ([], s)
  }

  /** The greedy split is the only split into digits followed by a non-digit
      (or nothing), so the regular expression cannot match any other way. */
  lemma {:induction false} SpanDigitsUnique(d: string, r: string)
    requires IsDigits(d) && (r == [] || !IsDigit(r[0]))
    ensures SpanDigits(d + r) == (d, r)
  {
    if d == [] {
      assert d + r == r;
    } else {
      assert (d + r)[1..] == d[1..] + r;
      SpanDigitsUnique(d[1..], r);
      assert [d[0]] + d[1..] == d;
    }
  }

  /** Anchored match of the header against `^bytes (\d+)-(\d+)\/(\d+)$`;
      a match yields the three groups, and their rendering is the input. */
  function Match(s: string): (m: Option<RangeFields>)
    ensures m.Some? ==> WellFormed(m.value) && s == Render(m.value)
  {
    if |s| < |Prefix| || s[..|Prefix|] != Prefix then None
    else
      var (first, r1) := SpanDigits(s[|Prefix|..]);
      if first == [] || r1 == [] || r1[0] != '-' then None
      else
        var (last, r2) := SpanDigits(r1[1..]);
        if last == [] || r2 == [] || r2[0] != '/' then None
        else
          var (length, r3) := SpanDigits(r2[1..]);
          if length == [] || r3 != [] then None
          else
            assert r2 == "/" + length;
            assert r1 == "-" + last + "/" + length;
            assert s == s[..|Prefix|] + s[|Prefix|..];
            Some(RangeFields(first, last, length))
  }

  /** Every well-formed range header is matched, with its own groups. */
  lemma MatchRender(f: RangeFields)
    requires WellFormed(f)
    ensures Match(Render(f)) == Some(f)
  {
    var s := Render(f);
    var tail2 := "/" + f.length;
    var tail1 := "-" + f.last + tail2;
    assert s == Prefix + (f.first + tail1);
    assert s[..|Prefix|] == Prefix;
    assert s[|Prefix|..] == f.first + tail1;
    SpanDigitsUnique(f.first, tail1);
    assert tail1[1..] == f.last + tail2;
    SpanDigitsUnique(f.last, tail2);
    assert tail2[1..] == f.length + [];
    SpanDigitsUnique(f.length, []);
  }

  lemma MatchRenderAll()
    ensures forall f :: WellFormed(f) ==> Match(Render(f)) == Some(f)
  {
    forall f | WellFormed(f) ensures Match(Render(f)) == Some(f) {
      MatchRender(f);
    }
  }

  /** `hasValidContentRangeHeader`: an absent or empty header, a header that
      does not match, and a range that misses a byte at either end are all
      rejected; exactly the whole-resource ranges are accepted. */
  function HasValidContentRange(header: Option<string>): (ok: bool)
    ensures ok <==> DescribesWholeResource(header)
  {
    MatchRenderAll();
    match header
    case None => false
    case Some(h) =>
      if h == "" then false
      else
        match Match(h)
        case None => false
        case Some(f) => Value(f.first) == 0 && Value(f.last) + 1 == Value(f.length)
  }

  /** `bytes 0-<n-1>/<n>` is accepted for every non-empty resource. */
  lemma AcceptsWholeResource(length: nat)
    requires length > 0
    ensures HasValidContentRange(Some(RangeHeader(0, length - 1, length)))
  {
    var f := RangeFields(Decimal(0), Decimal(length - 1), Decimal(length));
    ValueOfDecimal(0);
    ValueOfDecimal(length - 1);
    ValueOfDecimal(length);
    assert WellFormed(f) && IsWholeResource(f);
  }

  /** A range that starts after byte 0, or whose end is not the last byte, is
      rejected, whatever the numbers. */
  lemma RejectsPartialRange(first: nat, last: nat, length: nat)
    requires first != 0 || last + 1 != length
    ensures !HasValidContentRange(Some(RangeHeader(first, last, length)))
  {
    var f := RangeFields(Decimal(first), Decimal(last), Decimal(length));
    MatchRender(f);
    ValueOfDecimal(first);
    ValueOfDecimal(last);
    ValueOfDecimal(length);
  }

  /** The example of issue 491: the whole 1000-byte resource is accepted. */
  lemma WholeResourceExample()
    ensures HasValidContentRange(Some("bytes 0-999/1000"))
  {
    DecimalExamples();
    AcceptsWholeResource(1000);
  }

  /** The range that starts at byte 100 of the same resource is not. */
  lemma OffsetRangeExample()
    ensures !HasValidContentRange(Some("bytes 100-999/1000"))
  {
    DecimalExamples();
    RejectsPartialRange(100, 999, 1000);
  }

  /** Neither is a missing, an empty, an unsatisfied (`*`) or a differently
      spelled header. */
  lemma MalformedExamples()
    ensures !HasValidContentRange(None)
    ensures !HasValidContentRange(Some(""))
    ensures !HasValidContentRange(Some("bytes */1000"))
    ensures !HasValidContentRange(Some("bytes=0-999/1000"))
  {
    var star := "bytes */1000";
    assert star[..|Prefix|] == Prefix;
    assert !IsDigit(star[|Prefix|..][0]);
    var eq := "bytes=0-999/1000";
    assert eq[..|Prefix|] != Prefix by { assert eq[5] != Prefix[5]; }
  }

  lemma DecimalExamples()
    ensures RangeHeader(0, 999, 1000) == "bytes 0-999/1000"
    ensures RangeHeader(100, 999, 1000) == "bytes 100-999/1000"
  {
    assert Decimal(0) == "0";
    assert Decimal(1) == "1";
    assert Decimal(9) == "9";
    assert Decimal(10) == "10";
    assert Decimal(99) == "99";
    assert Decimal(100) == "100";
    assert Decimal(999) == "999";
    assert Decimal(1000) == "1000";
  }
}
