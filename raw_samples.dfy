/** The raw I/Q text dump of the Sense2GoL radar board and its parser
    `txt_extract`. The dump is a sequence of lines as `readline` returns them
    (each keeps its line break, none is empty); reading past the last line
    yields the empty line, which is how the parser notices the end of file. */
module RawSamples {
  import opened Arith


  /** The header line that opens the I channel block. */
  const I_HEADER: string := "  ------------- I raw samples ------------- \n"
  /** The header line that opens the Q channel block. */
  const Q_HEADER: string := "  ------------- Q raw samples ------------- \n"

  /** What `readline` returns for line index `k`: the empty line past the end. */
  function Line(lines: seq<string>, k: nat): string
  {
    if k < |lines| then lines[k] else ""
  }

  /** The index of the following `readline`; at end of file it stays put,
      since every later read yields the empty line again. */
  function Advance(lines: seq<string>, k: nat): nat
  {
    if k < |lines| then k + 1 else k
  }

  /** Lines as `readline` produces them: none is empty. */
  predicate WellFormed(lines: seq<string>)
  {
    forall k :: 0 <= k < |lines| ==> lines[k] != ""
  }

  // ---------------------------------------------------------------------------
  // Digit runs: `re.findall(r'\d+', line)` mapped through `int`

  predicate IsDigit(c: char)
  {
    '0' <= c <= '9'
  }

  /** Number of leading ASCII digits of `s`. */
  function LeadingDigits(s: string): (k: nat)
    ensures k <= |s|
    ensures forall i :: 0 <= i < k ==> IsDigit(s[i])
    ensures k < |s| ==> !IsDigit(s[k])
  {
    if s == [] || !IsDigit(s[0]) then 0 else 1 + LeadingDigits(s[1..])
  }

  /** The value of a string of decimal digits, most significant first. */
  function DecimalValue(d: string): nat
    requires forall i :: 0 <= i < |d| ==> IsDigit(d[i])
  {
    if d == [] then 0
    else
      assert IsDigit(d[|d| - 1]);
      DecimalValue(d[..|d| - 1]) * 10 + (d[|d| - 1] as int - '0' as int)
  }

  /** The maximal runs of ASCII digits of a line, each read as an unsigned
      decimal number, left to right. Signs and decimal points separate runs. */
  function DigitRuns(s: string): seq<nat>
    decreases |s|
  {
    if s == [] then []
    else if !IsDigit(s[0]) then DigitRuns(s[1..])
    else
      var k := LeadingDigits(s);
      [DecimalValue(s[..k])] + DigitRuns(s[k..])
  }

  /** The digit runs of a block of lines, concatenated in order. */
  function BlockSamples(block: seq<string>): seq<nat>
  {
    if block == [] then [] else DigitRuns(block[0]) + BlockSamples(block[1..])
  }

  /** The decimal rendering of a natural number. */
  function Render(n: nat): (s: string)
    ensures |s| >= 1
    ensures forall i :: 0 <= i < |s| ==> IsDigit(s[i])
  {
    var last := ('0' as int + n % 10) as char;
    if n < 10 then [last] else Render(n / 10) + [last]
  }

  lemma {:induction false} DecimalValueOfRender(n: nat)
    ensures DecimalValue(Render(n)) == n
  {
    var s := Render(n);
    if n >= 10 {
      DecimalValueOfRender(n / 10);
      assert s[..|s| - 1] == Render(n / 10);
    }
  }

  lemma {:induction false} LeadingDigitsOfDigitsThenOther(d: string, rest: string)
    requires forall i :: 0 <= i < |d| ==> IsDigit(d[i])
    requires rest == [] || !IsDigit(rest[0])
    ensures LeadingDigits(d + rest) == |d|
  {
    if d != [] {
      assert (d + rest)[1..] == d[1..] + rest;
      LeadingDigitsOfDigitsThenOther(d[1..], rest);
    }
  }

  /** A number written in decimal and followed by a separator (or nothing)
      is read back as that number. */
  lemma RenderedNumberReadBack(n: nat, rest: string)
    requires rest == [] || !IsDigit(rest[0])
    ensures DigitRuns(Render(n) + rest) == [n] + DigitRuns(rest)
  {
    var s := Render(n) + rest;
    LeadingDigitsOfDigitsThenOther(Render(n), rest);
    assert s[..|Render(n)|] == Render(n);
    assert s[|Render(n)|..] == rest;
    DecimalValueOfRender(n);
  }

  /** A sample line as the board writes it: each number followed by a space. */
  function SampleLine(samples: seq<nat>): string
  {
    if samples == [] then "\n" else Render(samples[0]) + " " + SampleLine(samples[1..])
  }

  /** Writing samples out as a line and extracting its digit runs gives the
      samples back. */
  lemma {:induction false} SampleLineRoundTrip(samples: seq<nat>)
    ensures DigitRuns(SampleLine(samples)) == samples
  {
    if samples == [] {
      assert DigitRuns("\n") == DigitRuns(""[..]);
    } else {
      var rest := " " + SampleLine(samples[1..]);
      assert Render(samples[0]) + " " + SampleLine(samples[1..]) == Render(samples[0]) + rest;
      RenderedNumberReadBack(samples[0], rest);
      assert rest[1..] == SampleLine(samples[1..]);
      SampleLineRoundTrip(samples[1..]);
    }
  }

  /** Only unsigned runs are taken: a minus sign and a decimal point are separators. */
  lemma SignAndPointAreSeparators()
    ensures DigitRuns("-12\n") == [12]
    ensures DigitRuns("3.5\n") == [3, 5]
  {
    assert "-12\n"[1..] == "12\n";
    assert LeadingDigits("12\n") == 2;
    assert "12\n"[..2] == "12" && "12\n"[2..] == "\n";
    assert DecimalValue("12") == 12 by {
      assert "12"[..1] == "1";
      assert "1"[..0] == "";
    }
    assert DigitRuns("\n") == [] by {
      assert "\n"[1..] == "";
    }
    assert LeadingDigits("3.5\n") == 1;
    assert "3.5\n"[..1] == "3" && "3.5\n"[1..] == ".5\n";
    assert ".5\n"[1..] == "5\n";
    assert LeadingDigits("5\n") == 1;
    assert "5\n"[..1] == "5" && "5\n"[1..] == "\n";
    assert "3"[..0] == "" && "5"[..0] == "";
  }

  // ---------------------------------------------------------------------------
  // The parser as a line-by-line state machine

  /** Where the parser stands: inside the I block, on the line right after the
      Q header (read as Q data without a header test), or inside the Q block. */
  datatype Mode = InI | AfterQHeader | InQ

  /** The two sample lists collected so far, I first. */
  datatype Samples = Samples(i: seq<nat>, q: seq<nat>)

  /** The samples collected from line `k` on, in mode `mode`, starting from `acc`.
      The empty line (end of file) ends the parse in every mode. In the I block
      the Q header switches to the Q block; in the Q block the I header switches
      back to the I block; any other line adds its digit runs to the current
      block. */
  function Parse(lines: seq<string>, k: nat, mode: Mode, acc: Samples): Samples
    requires k <= |lines|
    decreases |lines| - k
  {
    var line := Line(lines, k);
    if line == "" then acc
    else match mode
      case InI =>
        if line == Q_HEADER then Parse(lines, k + 1, AfterQHeader, acc)
        else Parse(lines, k + 1, InI, Samples(acc.i + DigitRuns(line), acc.q))
      case AfterQHeader =>
        Parse(lines, k + 1, InQ, Samples(acc.i, acc.q + DigitRuns(line)))
      case InQ =>
        if line == I_HEADER then Parse(lines, k + 1, InI, acc)
        else Parse(lines, k + 1, InQ, Samples(acc.i, acc.q + DigitRuns(line)))
  }

  /** Samples are only ever appended: what was collected before line `k` is a
      prefix of both final lists, and the parse from the end of the file
      collects nothing more. */
  lemma {:induction false} ParseExtends(lines: seq<string>, k: nat, mode: Mode, acc: Samples)
    requires k <= |lines|
    ensures acc.i <= Parse(lines, k, mode, acc).i && acc.q <= Parse(lines, k, mode, acc).q
    ensures k == |lines| ==> Parse(lines, k, mode, acc) == acc
    decreases |lines| - k
  {
    var line := Line(lines, k);
    if line != "" {
      match mode
      case InI =>
        if line == Q_HEADER {
          ParseExtends(lines, k + 1, AfterQHeader, acc);
        } else {
          ParseExtends(lines, k + 1, InI, Samples(acc.i + DigitRuns(line), acc.q));
        }
      case AfterQHeader =>
        ParseExtends(lines, k + 1, InQ, Samples(acc.i, acc.q + DigitRuns(line)));
      case InQ =>
        if line == I_HEADER {
          ParseExtends(lines, k + 1, InI, acc);
        } else {
          ParseExtends(lines, k + 1, InQ, Samples(acc.i, acc.q + DigitRuns(line)));
        }
    }
  }

  /** The index of the first I header at or after line `from`. */
  function HeaderIndex(lines: seq<string>, from: nat): (h: nat)
    requires exists k :: from <= k < |lines| && lines[k] == I_HEADER
    ensures from <= h < |lines| && lines[h] == I_HEADER
    ensures forall k :: from <= k < h ==> lines[k] != I_HEADER
    decreases |lines| - from
  {
    if lines[from] == I_HEADER then from else HeaderIndex(lines, from + 1)
  }

  /** The dump contains an I header after its first line; without one the
      search for it never ends. */
  predicate HasIHeader(lines: seq<string>)
  {
    exists k :: 1 <= k < |lines| && lines[k] == I_HEADER
  }

  /** Everything `txt_extract` collects: the first line is skipped, nothing is
      read before the first I header, and parsing runs from the line after it. */
  function Sections(lines: seq<string>): Samples
    requires HasIHeader(lines)
  {
    Parse(lines, HeaderIndex(lines, 1) + 1, InI, Samples([], []))
  }

  /** A block of data lines: none is empty and none equals `header`. */
  predicate DataBlock(block: seq<string>, header: string)
  {
    forall j :: 0 <= j < |block| ==> block[j] != "" && block[j] != header
  }

  /** Every line of an I block up to the Q header adds its digit runs to I;
      after the Q header the Q block adds its digit runs to Q. */
  lemma {:induction false} IBlockCollected(lines: seq<string>, k: nat, block: seq<string>, qBlock: seq<string>, acc: Samples)
    requires k <= |lines| && lines[k..] == block + [Q_HEADER] + qBlock
    requires DataBlock(block, Q_HEADER)
    requires qBlock != [] ==> qBlock[0] != "" && DataBlock(qBlock[1..], I_HEADER)
    ensures Parse(lines, k, InI, acc) == Samples(acc.i + BlockSamples(block), acc.q + BlockSamples(qBlock))
    decreases |block|
  {
    var rest := lines[k..];
    if block == [] {
      assert rest[0] == Q_HEADER && Line(lines, k) == Q_HEADER;
      assert lines[k + 1..] == rest[1..] == qBlock;
      AfterQHeaderCollected(lines, k + 1, qBlock, acc);
      assert acc.i + BlockSamples(block) == acc.i;
    } else {
      assert rest[0] == block[0] && Line(lines, k) == block[0];
      assert lines[k + 1..] == rest[1..] == block[1..] + [Q_HEADER] + qBlock;
      var next := Samples(acc.i + DigitRuns(block[0]), acc.q);
      IBlockCollected(lines, k + 1, block[1..], qBlock, next);
      assert next.i + BlockSamples(block[1..]) == acc.i + BlockSamples(block);
    }
  }

  /** Every line of a Q block without an I header adds its digit runs to Q,
      up to the end of file. */
  lemma {:induction false} QBlockCollected(lines: seq<string>, k: nat, block: seq<string>, acc: Samples)
    requires k <= |lines| && lines[k..] == block
    requires DataBlock(block, I_HEADER)
    ensures Parse(lines, k, InQ, acc) == Samples(acc.i, acc.q + BlockSamples(block))
    decreases |block|
  {
    if block == [] {
      assert Line(lines, k) == "";
    } else {
      assert lines[k] == block[0];
      assert lines[k + 1..] == block[1..];
      var next := Samples(acc.i, acc.q + DigitRuns(block[0]));
      QBlockCollected(lines, k + 1, block[1..], next);
      assert next.q + BlockSamples(block[1..]) == acc.q + BlockSamples(block);
    }
  }

  /** The sections of a dump laid out as the board writes it: a first line, a
      preamble without an I header, the I header, I data lines, the Q header and
      Q data lines. I collects exactly the digit runs of the I data lines and Q
      those of the Q data lines; the headers and the preamble contribute nothing.
      The line right after the Q header is read as Q data even when it is an I
      header, so only the later Q lines must avoid that header. */
  lemma SectionsOfDump(first: string, preamble: seq<string>, iBlock: seq<string>, qBlock: seq<string>)
    requires first != "" && DataBlock(preamble, I_HEADER)
    requires DataBlock(iBlock, Q_HEADER)
    requires qBlock != [] ==> qBlock[0] != "" && DataBlock(qBlock[1..], I_HEADER)
    ensures var lines := [first] + preamble + [I_HEADER] + (iBlock + [Q_HEADER] + qBlock);
      HasIHeader(lines) && Sections(lines) == Samples(BlockSamples(iBlock), BlockSamples(qBlock))
  {
    var head := [first] + preamble;
    forall k | 1 <= k < |head|
      ensures head[k] != I_HEADER
    {
      assert head[k] == preamble[k - 1];
    }
    SectionsAfterHead(head, iBlock, qBlock);
  }

  /** Lines holding no I header past the first, then the I header, the I block,
      the Q header and the Q block. */
  lemma SectionsAfterHead(head: seq<string>, iBlock: seq<string>, qBlock: seq<string>)
    requires |head| >= 1
    requires forall k :: 1 <= k < |head| ==> head[k] != I_HEADER
    requires DataBlock(iBlock, Q_HEADER)
    requires qBlock != [] ==> qBlock[0] != "" && DataBlock(qBlock[1..], I_HEADER)
    ensures var lines := head + [I_HEADER] + (iBlock + [Q_HEADER] + qBlock);
      HasIHeader(lines) && Sections(lines) == Samples(BlockSamples(iBlock), BlockSamples(qBlock))
  {
    var tail := iBlock + [Q_HEADER] + qBlock;
    var lines := head + [I_HEADER] + tail;
    var start := |head| + 1;
    HeaderAfterHead(head, tail);
    assert Sections(lines) == Parse(lines, start, InI, Samples([], []));
    assert lines[start..] == tail;
    IBlockCollected(lines, start, iBlock, qBlock, Samples([], []));
    assert Samples([] + BlockSamples(iBlock), [] + BlockSamples(qBlock))
        == Samples(BlockSamples(iBlock), BlockSamples(qBlock));
  }

  /** An I header right after lines holding none past the first is the one
      the search from line 1 finds. */
  lemma HeaderAfterHead(head: seq<string>, rest: seq<string>)
    requires |head| >= 1
    requires forall k :: 1 <= k < |head| ==> head[k] != I_HEADER
    ensures var lines := head + [I_HEADER] + rest;
      HasIHeader(lines) && HeaderIndex(lines, 1) == |head|
  {
    var lines := head + [I_HEADER] + rest;
    assert lines[|head|] == I_HEADER;
    forall k | 1 <= k < |head|
      ensures lines[k] != I_HEADER
    {
      assert lines[k] == head[k];
    }
  }

  /** The line after the Q header is Q data whatever it holds; the rest of the
      Q block follows. */
  lemma AfterQHeaderCollected(lines: seq<string>, k: nat, block: seq<string>, acc: Samples)
    requires k <= |lines| && lines[k..] == block
    requires block != [] ==> block[0] != "" && DataBlock(block[1..], I_HEADER)
    ensures Parse(lines, k, AfterQHeader, acc) == Samples(acc.i, acc.q + BlockSamples(block))
  {
    if block == [] {
      assert Line(lines, k) == "";
      assert acc.q + BlockSamples(block) == acc.q;
    } else {
      assert Line(lines, k) == block[0];
      var next := Samples(acc.i, acc.q + DigitRuns(block[0]));
      assert lines[k + 1..] == block[1..];
      QBlockCollected(lines, k + 1, block[1..], next);
      assert next.q + BlockSamples(block[1..]) == acc.q + BlockSamples(block);
    }
  }

  /** `txt_extract` as the nested loops of the source: locate the I header, then
      alternate between the I block loop and the Q block step until the empty
      read. The result is both lists cut to the shorter length, with the
      channels swapped. */
  method TxtExtract(lines: seq<string>) returns (iArray: seq<nat>, qArray: seq<nat>, length: nat)
    requires WellFormed(lines)
    requires HasIHeader(lines)
    ensures var s := Sections(lines);
      length == (if |s.i| <= |s.q| then |s.i| else |s.q|) &&
      iArray == s.q[..length] && qArray == s.i[..length]
  {
    ghost var final := Sections(lines);
    ghost var h := HeaderIndex(lines, 1);
    var cur: nat := 1;
    while Line(lines, cur) != I_HEADER
      invariant 1 <= cur <= h
      decreases h - cur
    {
      cur := Advance(lines, cur);
    }
    assert cur == h;
    var done := false;
    var iSamples: seq<nat> := [];
    var qSamples: seq<nat> := [];
    while !done
      invariant cur <= |lines|
      invariant !done ==> Line(lines, cur) != ""
      invariant !done ==> Parse(lines, cur, InQ, Samples(iSamples, qSamples)) == final
      invariant done ==> Samples(iSamples, qSamples) == final
      decreases !done, |lines| - cur
    {
      if Line(lines, cur) == I_HEADER {
        cur := Advance(lines, cur);
        while Line(lines, cur) != Q_HEADER
          invariant cur <= |lines|
          invariant !done
          invariant Parse(lines, cur, InI, Samples(iSamples, qSamples)) == final
          decreases |lines| - cur
        {
          iSamples := iSamples + DigitRuns(Line(lines, cur));
          cur := Advance(lines, cur);
          if Line(lines, cur) == "" {
            done := true;
            break;
          }
        }
        if Line(lines, cur) == Q_HEADER {
          cur := Advance(lines, cur);
          assert Parse(lines, cur, AfterQHeader, Samples(iSamples, qSamples)) == final;
        } else {
          assert done && Samples(iSamples, qSamples) == final;
        }
      }
      assert !done ==> Parse(lines, cur, AfterQHeader, Samples(iSamples, qSamples)) == final;
      var line := Line(lines, cur);
      if line != "" {
        qSamples := qSamples + DigitRuns(line);
      }
      cur := Advance(lines, cur);
      assert !done && line != "" ==> Parse(lines, cur, InQ, Samples(iSamples, qSamples)) == final;
      if Line(lines, cur) == "" {
        done := true;
      }
    }
    length := if |iSamples| <= |qSamples| then |iSamples| else |qSamples|;
    qArray := iSamples[..length];
    iArray := qSamples[..length];
  }

  // ---------------------------------------------------------------------------
  // The variant that also converts counts to millivolts

  /** A complex sample: real part I, imaginary part Q. */
  datatype Complex = Complex(re: real, im: real)

  /** What the millivolt variant of `txt_extract` returns. */
  datatype Signal = Signal(iMv: seq<real>, qMv: seq<real>, complexMv: seq<Complex>, timeAxis: seq<real>, length: nat)

  /** The millivolts per ADC count: the full-scale voltage over the count range, times 1000. */
  function MillivoltsPerCount(adcRangeBits: real, adcRangeV: real): real
    requires adcRangeBits != 0.0
  {
    adcRangeV / adcRangeBits * 1000.0
  }

  /** The `ZeroDivisionError` of a count range of 0. */
  datatype ConversionError = ZeroAdcRange

  /** `txt_extract` of the main module: the swapped, truncated channels scaled to
      millivolts, the complex signal I + jQ and the sample times k/Fs. The file
      is read before the scale is computed, so a count range of 0 fails after
      reading. */
  method TxtExtractMillivolts(lines: seq<string>, adcRangeBits: real, adcRangeV: real, samplingFrequency: real)
    returns (r: Result<Signal, ConversionError>)
    requires WellFormed(lines)
    requires HasIHeader(lines)
    requires samplingFrequency != 0.0
    ensures r.Failure? <==> adcRangeBits == 0.0
    ensures r.Success? ==>
      var s := Sections(lines);
      var signal := r.value;
      var scale := MillivoltsPerCount(adcRangeBits, adcRangeV);
      signal.length == (if |s.i| <= |s.q| then |s.i| else |s.q|) &&
      |signal.iMv| == |signal.qMv| == |signal.complexMv| == |signal.timeAxis| == signal.length &&
      forall k :: 0 <= k < signal.length ==>
        signal.iMv[k] == s.q[k] as real * scale &&
        signal.qMv[k] == s.i[k] as real * scale &&
        signal.complexMv[k] == Complex(signal.iMv[k], signal.qMv[k]) &&
        signal.timeAxis[k] == k as real / samplingFrequency
  {
    var iArray, qArray, length := TxtExtract(lines);
    if adcRangeBits == 0.0 {
      return Failure(ZeroAdcRange);
    }
    var scale := adcRangeV / adcRangeBits * 1000.0;
    var iMv := seq(length, k requires 0 <= k < length => iArray[k] as real * scale);
    var qMv := seq(length, k requires 0 <= k < length => qArray[k] as real * scale);
    var complexMv := seq(length, k requires 0 <= k < length => Complex(iMv[k], qMv[k]));
    var timeAxis := seq(length, k requires 0 <= k < length => k as real / samplingFrequency);
    r := Success(Signal(iMv, qMv, complexMv, timeAxis, length));
  }
}
