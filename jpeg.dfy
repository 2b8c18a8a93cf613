/** Byte-level JPEG checks made by two probes: the SOI/EOI signature test of
    Image Validity and the progressive-marker scan of Advanced Image Analysis,
    plus the compression-quality tiers of the latter. */
module Jpeg {
  import opened Values

  // ---------------------------------------------------------------------
  // Signature (Image Validity)

  /** The body starts with SOI (FF D8), ends with EOI (FF D9) and is longer
      than four bytes. */
  predicate IsJpegSignature(data: seq<byte>) {
    |data| > 4 && data[0] == 0xFF && data[1] == 0xD8 && data[|data| - 2] == 0xFF && data[|data| - 1] == 0xD9
  }

  const SOI: seq<byte> := [0xFF, 0xD8]
  const EOI: seq<byte> := [0xFF, 0xD9]

  /** A signature match is exactly SOI, at least one byte, EOI. */
  lemma SignatureFraming(data: seq<byte>)
    ensures IsJpegSignature(data) <==>
      (|data| >= 5 && data == SOI + data[2..|data| - 2] + EOI)
  {
    if |data| >= 5 && data == SOI + data[2..|data| - 2] + EOI {
      assert data[0] == (SOI + data[2..|data| - 2] + EOI)[0];
    }
  }

  lemma SignatureOfFramed(mid: seq<byte>)
    requires |mid| >= 1
    ensures IsJpegSignature(SOI + mid + EOI)
  {
    var d := SOI + mid + EOI;
    assert d[|d| - 2] == 0xFF && d[|d| - 1] == 0xD9;
  }

  // ---------------------------------------------------------------------
  // Progressive-marker scan, as written

  /** `BytesIO.read(n)` at position `pos`: up to `n` bytes, fewer at the end,
      none at or past the end. */
  function Read(data: seq<byte>, pos: nat, n: nat): (r: seq<byte>)
    ensures |r| <= n
    ensures pos + n <= |data| ==> r == data[pos..pos + n]
    ensures pos >= |data| ==> r == []
  {
    if pos >= |data| then [] else if pos + n <= |data| then data[pos..pos + n] else data[pos..]
  }

  /** `int.from_bytes(b, 'big')` for at most two bytes. */
  function BigEndian(b: seq<byte>): nat
    requires |b| <= 2
  {
    if |b| == 0 then 0 else if |b| == 1 then b[0] as nat else b[0] as nat * 256 + b[1] as nat
  }

  /** One turn of the `while True` loop. */
  datatype Step =
    | Stop(progressive: bool)   // a `break`
    | Raise                      // `marker[1]` on a one-byte read: IndexError
    | Continue(next: nat)        // the cursor after `seek(length - 2, 1)`

  function AsWrittenStep(data: seq<byte>, pos: nat): Step {
    var marker := Read(data, pos, 2);
    if |marker| == 0 then Stop(false)
    else if marker[0] != 0xFF then Stop(false)
    else if |marker| == 1 then Raise
    else if marker[1] == 0xC2 then Stop(true)
    else if marker[1] == 0xDA then Stop(false)
    else
      var lengthBytes := Read(data, pos + 2, 2);
      // BytesIO clamps a relative seek at 0; the target is never negative here
      Continue(pos + 2 + |lengthBytes| + BigEndian(lengthBytes) - 2)
  }

  /** The loop run for at most `fuel` turns: the way it ended, or None when
      it was still going. */
  function AsWrittenRun(data: seq<byte>, pos: nat, fuel: nat): Option<Step>
    decreases fuel
  {
    if fuel == 0 then None
    else
      match AsWrittenStep(data, pos)
      case Continue(next) => AsWrittenRun(data, next, fuel - 1)
      case s => Some(s)
  }

  /** Where the segment length is read in full, a turn moves the cursor
      forward by 2 + length, at least 4 bytes, or the turn after it stops
      (a length below 2 puts the cursor on a byte that is not FF). */
  lemma AsWrittenAdvances(data: seq<byte>, pos: nat)
    requires pos + 4 <= |data|
    requires AsWrittenStep(data, pos).Continue?
    ensures var next := AsWrittenStep(data, pos).next;
      next >= pos + 4 || AsWrittenStep(data, next) == Stop(false)
  {
    var l := data[pos + 2..pos + 4];
    assert Read(data, pos + 2, 2) == l;
    var next := AsWrittenStep(data, pos).next;
    if BigEndian(l) < 2 {
      assert next == pos + 2 + BigEndian(l);
      assert data[next] == (if BigEndian(l) == 0 then data[pos + 2] else data[pos + 3]);
      assert Read(data, next, 2)[0] == data[next];
    }
  }

  /** A marker that is neither SOF2 nor SOS ending the data sends the cursor
      back to itself: the loop never ends. */
  lemma AsWrittenStuckAtTrailingMarker(data: seq<byte>, pos: nat)
    requires pos + 2 == |data| && data[pos] == 0xFF && data[pos + 1] != 0xC2 && data[pos + 1] != 0xDA
    ensures AsWrittenStep(data, pos) == Continue(pos)
  {
    assert Read(data, pos, 2) == data[pos..pos + 2];
  }

  lemma {:induction false} AsWrittenNeverStops(data: seq<byte>, pos: nat, fuel: nat)
    requires AsWrittenStep(data, pos) == Continue(pos)
    ensures AsWrittenRun(data, pos, fuel) == None
    decreases fuel
  {
    if fuel > 0 {
      AsWrittenNeverStops(data, pos, fuel - 1);
    }
  }

  /** A bare SOI, `FF D8`, keeps the loop turning for ever however long it
      is allowed to run.  This body exercises the step function only: an
      image decoder refuses it, so the probe never scans it; the JFIF bodies
      below are ones it does scan. */
  lemma AsWrittenDivergesOnBareSoi(fuel: nat)
    ensures AsWrittenRun(SOI, 0, fuel) == None
  {
    AsWrittenStuckAtTrailingMarker(SOI, 0);
    AsWrittenNeverStops(SOI, 0, fuel);
  }

  /** The smallest progressive JPEG header: SOI, then an SOF2 segment of
      length 2, then SOS.  It exercises the step function only: an SOF2
      segment of length 2 holds no image size, so a decoder refuses it. */
  const SmallProgressive: seq<byte> := [0xFF, 0xD8, 0xFF, 0xC2, 0x00, 0x02, 0xFF, 0xDA]

  /** The loop reads SOI as if a length followed it, takes the SOF2 marker
      bytes FF C2 as that length and jumps past the end: SOF2 is never seen. */
  lemma AsWrittenMissesSof2()
    ensures AsWrittenRun(SmallProgressive, 0, 2) == Some(Stop(false))
  {
    var d := SmallProgressive;
    assert Read(d, 0, 2) == [0xFF, 0xD8];
    assert Read(d, 2, 2) == [0xFF, 0xC2];
    assert AsWrittenStep(d, 0) == Continue(0xFFC2 + 2);
    assert Read(d, 0xFFC2 + 2, 2) == [];
  }

  /** How a scan ends: a verdict, the IndexError of a marker cut off after
      its FF byte, or never (`Loops`). */
  datatype ScanResult = Found(progressive: bool) | Truncated | Loops

  /** The cursor never moves back: a turn either stays put or moves on. */
  lemma AsWrittenNeverBack(data: seq<byte>, pos: nat)
    requires AsWrittenStep(data, pos).Continue?
    ensures AsWrittenStep(data, pos).next >= pos
  {
  }

  /** Where the loop as written ends when started at `pos`.  Since the cursor
      never moves back, a turn that leaves it where it was is the only way
      for the loop to run on for ever, and that is reported as `Loops`. */
  function AsWrittenScan(data: seq<byte>, pos: nat): ScanResult
    decreases |data| - pos
  {
    if pos >= |data| then Found(false)
    else
      match AsWrittenStep(data, pos)
      case Stop(p) => Found(p)
      case Raise => Truncated
      case Continue(next) => if next <= pos then Loops else AsWrittenScan(data, next)
  }

  /** The loop of the probe as written.  It returns `Loops` where the code
      would turn for ever: the seek has put the cursor back on the marker it
      just read. */
  method ScanAsWritten(data: seq<byte>) returns (r: ScanResult)
    ensures r == AsWrittenScan(data, 0)
  {
    var pos := 0;
    while true
      invariant AsWrittenScan(data, pos) == AsWrittenScan(data, 0)
      decreases |data| - pos
    {
      var marker := Read(data, pos, 2);
      if |marker| == 0 || marker[0] != 0xFF {
        return Found(false);
      }
      if |marker| == 1 {
        return Truncated;
      }
      if marker[1] == 0xC2 {
        return Found(true);
      }
      if marker[1] == 0xDA {
        return Found(false);
      }
      var lengthBytes := Read(data, pos + 2, 2);
      var next := pos + 2 + |lengthBytes| + BigEndian(lengthBytes) - 2;
      if next <= pos {
        return Loops;
      }
      pos := next;
    }
  }

  /** `Loops` is exactly a run that never ends, however many turns it is
      given. */
  lemma {:induction false} AsWrittenScanLoops(data: seq<byte>, pos: nat, fuel: nat)
    requires AsWrittenScan(data, pos) == Loops
    ensures AsWrittenRun(data, pos, fuel) == None
    decreases |data| - pos
  {
    var next := AsWrittenStep(data, pos).next;
    AsWrittenNeverBack(data, pos);
    if next == pos {
      AsWrittenNeverStops(data, pos, fuel);
    } else if fuel > 0 {
      AsWrittenScanLoops(data, next, fuel - 1);
    }
  }

  /** Any other verdict is where the run stops, once it is given more turns
      than there are bytes left. */
  lemma {:induction false} AsWrittenScanEnds(data: seq<byte>, pos: nat, fuel: nat)
    requires AsWrittenScan(data, pos) != Loops
    requires fuel > 0 && pos + fuel > |data|
    ensures AsWrittenRun(data, pos, fuel) ==
      Some(if AsWrittenScan(data, pos).Truncated? then Raise else Stop(AsWrittenScan(data, pos).progressive))
    decreases |data| - pos
  {
    if pos < |data| && AsWrittenStep(data, pos).Continue? {
      AsWrittenScanEnds(data, AsWrittenStep(data, pos).next, fuel - 1);
    }
  }

  /** A "progressive" verdict of the loop as written means it read the
      marker FF C2 at or after the starting position. */
  lemma {:induction false} AsWrittenFoundMeansSof2(data: seq<byte>, pos: nat) returns (q: nat)
    requires AsWrittenScan(data, pos) == Found(true)
    ensures pos <= q && q + 1 < |data| && data[q] == 0xFF && data[q + 1] == 0xC2
    decreases |data| - pos
  {
    assert Read(data, pos, 2) == data[pos..pos + 2] || pos + 2 > |data|;
    if AsWrittenStep(data, pos).Continue? {
      q := AsWrittenFoundMeansSof2(data, AsWrittenStep(data, pos).next);
    } else {
      q := pos;
    }
  }

  /** A JFIF body starts with SOI and then the APP0 marker FF E0. */
  predicate StartsJfif(data: seq<byte>) {
    |data| >= 4 && data[0] == 0xFF && data[1] == 0xD8 && data[2] == 0xFF && data[3] == 0xE0
  }

  /** As written, the APP0 marker bytes FF E0 are read as SOI's length
      (65504), so the first jump lands at offset 65506. */
  lemma JfifFirstJump(data: seq<byte>)
    requires StartsJfif(data)
    ensures AsWrittenStep(data, 0) == Continue(65506)
  {
    assert Read(data, 0, 2) == [0xFF, 0xD8];
    assert Read(data, 2, 2) == [0xFF, 0xE0];
  }

  /** As written, every JFIF body of at most 65506 bytes is reported not
      progressive, whatever markers follow. */
  lemma JfifShortNeverProgressive(data: seq<byte>)
    requires StartsJfif(data) && |data| <= 65506
    ensures AsWrittenScan(data, 0) == Found(false)
  {
    JfifFirstJump(data);
  }

  /** As written, a JFIF body of exactly 65508 bytes that ends in EOI sends
      the loop to EOI, where the empty length read keeps it for ever. */
  lemma JfifOf65508Loops(data: seq<byte>)
    requires StartsJfif(data) && |data| == 65508 && data[65506] == 0xFF && data[65507] == 0xD9
    ensures AsWrittenScan(data, 0) == Loops
  {
    JfifFirstJump(data);
    AsWrittenStuckAtTrailingMarker(data, 65506);
  }

  // ---------------------------------------------------------------------
  // Progressive-marker scan, corrected

  /** Markers that stand alone, without a length field: TEM, RST0-RST7,
      SOI and EOI (section B.1.1.3 of ITU-T T.81). */
  predicate Standalone(m: byte) {
    m == 0x01 || (0xD0 <= m <= 0xD9)
  }

  /** The scan walked from `pos` along the marker chain: SOF2 before SOS, a
      byte that is not FF, or the end of data decides it.  Standalone markers
      are stepped over; a length field that is cut off or below 2 stops
      the scan. */
  function ScanFrom(data: seq<byte>, pos: nat): (r: ScanResult)
    ensures r != Loops
    decreases |data| - pos
  {
    if pos >= |data| then Found(false)
    else if data[pos] != 0xFF then Found(false)
    else if pos + 1 == |data| then Truncated
    else if data[pos + 1] == 0xC2 then Found(true)
    else if data[pos + 1] == 0xDA then Found(false)
    else if Standalone(data[pos + 1]) then ScanFrom(data, pos + 2)
    else if pos + 4 > |data| then Found(false)
    else
      var length := BigEndian(data[pos + 2..pos + 4]);
      if length < 2 then Found(false) else ScanFrom(data, pos + 2 + length)
  }

  /** The loop of the probe, corrected: it stops on every input. */
  method ScanProgressive(data: seq<byte>) returns (r: ScanResult)
    ensures r == ScanFrom(data, 0)
  {
    var pos := 0;
    while true
      invariant ScanFrom(data, pos) == ScanFrom(data, 0)
      decreases |data| - pos
    {
      var marker := Read(data, pos, 2);
      if |marker| == 0 || marker[0] != 0xFF {
        return Found(false);
      }
      if |marker| == 1 {
        return Truncated;
      }
      if marker[1] == 0xC2 {
        return Found(true);
      }
      if marker[1] == 0xDA {
        return Found(false);
      }
      if Standalone(marker[1]) {
        pos := pos + 2;
      } else {
        var lengthBytes := Read(data, pos + 2, 2);
        if |lengthBytes| < 2 {
          return Found(false);
        }
        var length := BigEndian(lengthBytes);
        if length < 2 {
          return Found(false);
        }
        pos := pos + 2 + length;
      }
    }
  }

  /** A scan that reports a progressive JPEG has met the bytes FF C2. */
  lemma {:induction false} ScanFoundMeansSof2(data: seq<byte>, pos: nat) returns (q: nat)
    requires ScanFrom(data, pos) == Found(true)
    ensures pos <= q && q + 1 < |data| && data[q] == 0xFF && data[q + 1] == 0xC2
    decreases |data| - pos
  {
    if data[pos + 1] == 0xC2 {
      q := pos;
    } else if Standalone(data[pos + 1]) {
      q := ScanFoundMeansSof2(data, pos + 2);
    } else {
      q := ScanFoundMeansSof2(data, pos + 2 + BigEndian(data[pos + 2..pos + 4]));
    }
  }

  /** Wherever the code's own turn is well defined (a marker with a length
      field read in full), the corrected scan goes to the same place. */
  lemma SameStepWithLengthField(data: seq<byte>, pos: nat)
    requires pos + 4 <= |data| && data[pos] == 0xFF
    requires data[pos + 1] != 0xC2 && data[pos + 1] != 0xDA && !Standalone(data[pos + 1])
    requires BigEndian(data[pos + 2..pos + 4]) >= 2
    ensures AsWrittenStep(data, pos) == Continue(pos + 2 + BigEndian(data[pos + 2..pos + 4]))
    ensures ScanFrom(data, pos) == ScanFrom(data, pos + 2 + BigEndian(data[pos + 2..pos + 4]))
  {
    assert Read(data, pos, 2) == data[pos..pos + 2];
    assert Read(data, pos + 2, 2) == data[pos + 2..pos + 4];
  }

  /** The corrected scan finds SOF2 in the header the code misses. */
  lemma ScanFindsSof2()
    ensures ScanFrom(SmallProgressive, 0) == Found(true)
  {
  }

  /** A progressive JFIF body: SOI, an APP0 segment of length 16, then
      SOF2.  The corrected scan steps over SOI, jumps over APP0 and finds
      SOF2 at offset 20, while the code as written reports such a body not
      progressive whenever it has at most 65506 bytes. */
  predicate ProgressiveJfif(data: seq<byte>) {
    StartsJfif(data) && |data| >= 22 && data[4] == 0x00 && data[5] == 0x10 && data[20] == 0xFF && data[21] == 0xC2
  }

  lemma JfifProgressiveFound(data: seq<byte>)
    requires ProgressiveJfif(data)
    ensures ScanFrom(data, 0) == Found(true)
    ensures |data| <= 65506 ==> AsWrittenScan(data, 0) == Found(false)
  {
    assert BigEndian(data[4..6]) == 16;
    assert ScanFrom(data, 20) == Found(true);
    assert ScanFrom(data, 2) == ScanFrom(data, 20);
    assert ScanFrom(data, 0) == ScanFrom(data, 2);
    if |data| <= 65506 {
      JfifShortNeverProgressive(data);
    }
  }

  // ---------------------------------------------------------------------
  // Compression quality

  datatype Quality = Low | Medium | High

  /** The tiers of the compression ratio width*height*3 / size: above 12
      is Low, above 8 Medium, otherwise High; the ratio is compared by
      cross-multiplying, and a size of 0 divides by zero. */
  function CompressionQuality(width: nat, height: nat, size: nat): (r: Result<Quality, string>)
    ensures r.Err? <==> size == 0
  {
    var theoretical := width * height * 3;
    if size == 0 then Err("division by zero")
    else if theoretical > 12 * size then Ok(Low)
    else if theoretical > 8 * size then Ok(Medium)
    else Ok(High)
  }

  /** The tiers are the ones the division would give in exact arithmetic. */
  lemma QualityMatchesRatio(width: nat, height: nat, size: nat)
    requires size > 0
    ensures var ratio := (width * height * 3) as real / size as real;
      CompressionQuality(width, height, size) ==
        Ok(if ratio > 12.0 then Low else if ratio > 8.0 then Medium else High)
  {
    var t := (width * height * 3) as real;
    var s := size as real;
    DivideExceeds(t, s, 12.0);
    DivideExceeds(t, s, 8.0);
    assert (12 * size) as real == 12.0 * s;
    assert (8 * size) as real == 8.0 * s;
  }

  lemma DivideExceeds(t: real, s: real, c: real)
    requires s > 0.0
    ensures t / s > c <==> t > c * s
  {
    var r := t / s;
    assert r * s == t;
    if r > c {
      assert (r - c) * s > 0.0;
    }
    if t > c * s {
      assert (r - c) * s == t - c * s;
    }
  }

  function Rank(q: Quality): nat {
    match q
    case High => 0
    case Medium => 1
    case Low => 2
  }

  /** A larger image in the same number of bytes is never rated better. */
  lemma QualityMonotone(w1: nat, h1: nat, w2: nat, h2: nat, size: nat)
    requires size > 0 && w1 * h1 <= w2 * h2
    ensures Rank(CompressionQuality(w1, h1, size).value) <= Rank(CompressionQuality(w2, h2, size).value)
  {
  }
}
