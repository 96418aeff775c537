/** The interaction transcript: 13-byte little-endian records in a fixed buffer. */
module Transcript {
  import opened TxTypes

  newtype byte = x: int | 0 <= x < 256

  const POINTER_SAMPLE_INTERVAL_MS := 16.0
  const COLLECTION_MAX_SAMPLES := 2048
  const BITS_PER_POINTER_SAMPLE := 1
  const BITS_PER_KEY_SAMPLE := 2
  const RECORD_SIZE := 13
  const INT32_MIN := -0x8000_0000
  const INT32_MAX := 0x7FFF_FFFF
  const UINT32_MAX := 0xFFFF_FFFF

  datatype Kind = Pointer | Touch | Press

  datatype Sample = Sample(kind: Kind, delta: int, a: int, b: int)

  predicate Fits(s: Sample) {
    0 <= s.delta <= UINT32_MAX && INT32_MIN <= s.a <= INT32_MAX && INT32_MIN <= s.b <= INT32_MAX
  }

  // ---- Numbers

  /** A coordinate as JavaScript delivers it: a number, or NaN or an infinity. */
  datatype Coordinate = Finite(value: real) | NotFinite

  /** Math.round: halves go up. */
  function Round(x: real): int {
    (x + 0.5).Floor
  }

  function ClampInt32(v: Coordinate): (r: int)
    ensures INT32_MIN <= r <= INT32_MAX
    ensures v.Finite? && INT32_MIN as real <= v.value <= INT32_MAX as real ==> -0.5 < r as real - v.value <= 0.5
    ensures v.Finite? && v.value > INT32_MAX as real ==> r == INT32_MAX
    ensures v.Finite? && v.value < INT32_MIN as real ==> r == INT32_MIN
  {
    match v
    case NotFinite => 0
    case Finite(x) =>
      if Round(x) > INT32_MAX then INT32_MAX else if Round(x) < INT32_MIN then INT32_MIN else Round(x)
  }

  /** Microseconds since the previous accepted sample. */
  function DeltaMicros(nowMs: real, prevMs: Option<real>): (r: int)
    ensures 0 <= r <= UINT32_MAX
    ensures prevMs.None? || nowMs < prevMs.value ==> r == 0
    ensures
      prevMs.Some? && nowMs >= prevMs.value ==>
        var d := (nowMs - prevMs.value) * 1000.0;
        if d <= UINT32_MAX as real then -0.5 < r as real - d <= 0.5 else r == UINT32_MAX
  {
    if prevMs.None? || nowMs < prevMs.value then 0
    else
      var d := Round((nowMs - prevMs.value) * 1000.0);
      if d > UINT32_MAX then UINT32_MAX else d
  }

  // ---- The codec

  function Byte(n: nat): byte {
    (n % 256) as byte
  }

  /** setUint32(_, n, true). */
  function PutUint32(n: nat): (bs: seq<byte>)
    ensures |bs| == 4
  {
    [Byte(n), Byte(n / 0x100), Byte(n / 0x1_0000), Byte(n / 0x100_0000)]
  }

  function GetUint32(bs: seq<byte>): (n: nat)
    requires |bs| == 4
  {
    bs[0] as int + 0x100 * bs[1] as int + 0x1_0000 * bs[2] as int + 0x100_0000 * bs[3] as int
  }

  /** setInt32(_, v, true): two's complement. */
  function PutInt32(v: int): (bs: seq<byte>)
    requires INT32_MIN <= v <= INT32_MAX
    ensures |bs| == 4
  {
    PutUint32(if v < 0 then v + 0x1_0000_0000 else v)
  }

  function GetInt32(bs: seq<byte>): int
    requires |bs| == 4
  {
    var n := GetUint32(bs);
    if n > INT32_MAX then n - 0x1_0000_0000 else n
  }

  lemma UintRoundTrip(n: nat)
    requires n <= UINT32_MAX
    ensures GetUint32(PutUint32(n)) == n
  {
    var a, b, c := n / 0x100, n / 0x1_0000, n / 0x100_0000;
    assert b == a / 0x100 && c == b / 0x100 && c < 0x100;
    assert n == n % 256 + 0x100 * a && a == a % 256 + 0x100 * b && b == b % 256 + 0x100 * c;
  }

  lemma IntRoundTrip(v: int)
    requires INT32_MIN <= v <= INT32_MAX
    ensures GetInt32(PutInt32(v)) == v
  {
    UintRoundTrip(if v < 0 then v + 0x1_0000_0000 else v);
  }

  function KindCode(k: Kind): byte {
    match k
    case Pointer => 1
    case Touch => 2
    case Press => 3
  }

  function KindOf(b: byte): Option<Kind> {
    if b == 1 then Some(Pointer) else if b == 2 then Some(Touch) else if b == 3 then Some(Press) else None
  }

  function Encode(s: Sample): (bs: seq<byte>)
    requires Fits(s)
    ensures |bs| == RECORD_SIZE
  {
    [KindCode(s.kind)] + PutUint32(s.delta) + PutInt32(s.a) + PutInt32(s.b)
  }

  function Decode(bs: seq<byte>): Option<Sample>
    requires |bs| == RECORD_SIZE
  {
    match KindOf(bs[0])
    case None => None
    case Some(k) => Some(Sample(k, GetUint32(bs[1..5]), GetInt32(bs[5..9]), GetInt32(bs[9..13])))
  }

  function Pow256(j: nat): (p: nat)
    ensures p > 0
  {
    if j == 0 then 1 else 256 * Pow256(j - 1)
  }

  /** Byte `j` of a 32-bit field, least significant first. */
  predicate LittleEndian(bs: seq<byte>, n: int) {
    |bs| == 4 && forall j: nat :: j < 4 ==> bs[j] as int == n / Pow256(j) % 256
  }

  lemma PutIsLittleEndian(n: nat)
    ensures LittleEndian(PutUint32(n), n)
  {
    assert Pow256(1) == 0x100 && Pow256(2) == 0x1_0000 && Pow256(3) == 0x100_0000;
  }

  /** The layout of a record: the kind, then delta and the two coordinates as
      little-endian 32-bit fields, a negative coordinate as its two's complement. */
  lemma RecordLayout(s: Sample)
    requires Fits(s)
    ensures
      var bs := Encode(s);
      && bs[0] == (match s.kind case Pointer => 1 case Touch => 2 case Press => 3)
      && LittleEndian(bs[1..5], s.delta)
      && LittleEndian(bs[5..9], s.a % 0x1_0000_0000) && LittleEndian(bs[9..13], s.b % 0x1_0000_0000)
  {
    RecordParts(s);
    hide LittleEndian, Encode, PutUint32, PutInt32;
    PutIsLittleEndian(s.delta);
    PutSignedIsLittleEndian(s.a);
    PutSignedIsLittleEndian(s.b);
  }

  lemma PutSignedIsLittleEndian(v: int)
    requires INT32_MIN <= v <= INT32_MAX
    ensures LittleEndian(PutInt32(v), v % 0x1_0000_0000)
  {
    hide LittleEndian, PutUint32;
    PutIsLittleEndian(v % 0x1_0000_0000);
  }

  lemma RecordParts(s: Sample)
    requires Fits(s)
    ensures
      var bs := Encode(s);
      bs[0] == KindCode(s.kind) && bs[1..5] == PutUint32(s.delta) && bs[5..9] == PutInt32(s.a) && bs[9..13] == PutInt32(s.b)
  {
    hide PutUint32, PutInt32, KindCode;
  }

  lemma DecodeEncode(s: Sample)
    requires Fits(s)
    ensures Decode(Encode(s)) == Some(s)
  {
    UintRoundTrip(s.delta);
    IntRoundTrip(s.a);
    IntRoundTrip(s.b);
    RecordParts(s);
    hide Encode, PutUint32, PutInt32, GetUint32, GetInt32;
  }

  predicate AllFit(ss: seq<Sample>) {
    forall i :: 0 <= i < |ss| ==> Fits(ss[i])
  }

  /** The records one after another, oldest first. */
  function EncodeAll(ss: seq<Sample>): (bs: seq<byte>)
    requires AllFit(ss)
    ensures |bs| == |ss| * RECORD_SIZE
  {
    if ss == [] then [] else EncodeAll(ss[..|ss| - 1]) + Encode(ss[|ss| - 1])
  }

  /** None when the bytes are not whole, known records. */
  function DecodeAll(bs: seq<byte>): Option<seq<Sample>> {
    if bs == [] then Some([])
    else if |bs| < RECORD_SIZE then None
    else
      match Decode(bs[..RECORD_SIZE])
      case None => None
      case Some(s) =>
        match DecodeAll(bs[RECORD_SIZE..])
        case None => None
        case Some(ss) => Some([s] + ss)
  }

  lemma EncodeLast(ss: seq<Sample>)
    requires AllFit(ss) && ss != []
    ensures EncodeAll(ss) == EncodeAll(ss[..|ss| - 1]) + Encode(ss[|ss| - 1])
  {}

  lemma LastOfAppend(ss: seq<Sample>, tt: seq<Sample>)
    requires tt != []
    ensures (ss + tt)[..|ss + tt| - 1] == ss + tt[..|tt| - 1] && (ss + tt)[|ss + tt| - 1] == tt[|tt| - 1]
  {}

  lemma Joins(a: seq<byte>, b: seq<byte>, c: seq<byte>)
    ensures a + (b + c) == (a + b) + c
  {}

  lemma {:induction false} EncodeAppends(ss: seq<Sample>, tt: seq<Sample>)
    requires AllFit(ss) && AllFit(tt)
    ensures AllFit(ss + tt) && EncodeAll(ss + tt) == EncodeAll(ss) + EncodeAll(tt)
  {
    if tt == [] {
      assert ss + tt == ss;
    } else {
      hide EncodeAll, Encode;
      EncodeAppends(ss, tt[..|tt| - 1]);
      EncodeLast(tt);
      EncodeLast(ss + tt);
      LastOfAppend(ss, tt);
      Joins(EncodeAll(ss), EncodeAll(tt[..|tt| - 1]), Encode(tt[|tt| - 1]));
    }
  }

  lemma EncodeFirst(ss: seq<Sample>)
    requires AllFit(ss) && ss != []
    ensures EncodeAll(ss) == Encode(ss[0]) + EncodeAll(ss[1..])
  {
    EncodeAppends(ss[..1], ss[1..]);
    assert ss == ss[..1] + ss[1..];
    assert ss[..1][..0] == [] && EncodeAll(ss[..1]) == Encode(ss[0]);
  }

  lemma DecodeFirst(s: Sample, rest: seq<byte>)
    requires Fits(s) && DecodeAll(rest).Some?
    ensures DecodeAll(Encode(s) + rest) == Some([s] + DecodeAll(rest).value)
  {
    DecodeEncode(s);
    hide Decode, Encode;
    var bs := Encode(s) + rest;
    assert bs[..RECORD_SIZE] == Encode(s) && bs[RECORD_SIZE..] == rest;
  }

  /** Decoding a transcript gives back the samples, in order. */
  lemma {:induction false} DecodeAllEncodeAll(ss: seq<Sample>)
    requires AllFit(ss)
    ensures DecodeAll(EncodeAll(ss)) == Some(ss)
  {
    if ss == [] {
      assert EncodeAll(ss) == [];
    } else {
      DecodeAllEncodeAll(ss[1..]);
      hide EncodeAll, DecodeAll, Encode, Decode;
      EncodeFirst(ss);
      DecodeFirst(ss[0], EncodeAll(ss[1..]));
      assert ss == [ss[0]] + ss[1..];
    }
  }

  // ---- What is accepted

  datatype Event =
    | PointerEvent(x: Coordinate, y: Coordinate, nowMs: real, touch: bool)
    | KeyEvent(nowMs: real, repeat: bool)

  /** The accepted samples, with the time each was accepted at. */
  datatype Log = Log(samples: seq<Sample>, times: seq<real>) {
    ghost predicate Valid() {
      |times| == |samples| <= COLLECTION_MAX_SAMPLES && AllFit(samples)
    }
  }

  predicate IsPointer(k: Kind) {
    k != Press
  }

  function LastTime(times: seq<real>): Option<real> {
    if times == [] then None else Some(times[|times| - 1])
  }

  /** When the last pointer or touch sample was accepted. */
  function LastPointer(log: Log): Option<real>
    requires |log.times| == |log.samples|
    decreases |log.samples|
  {
    var n := |log.samples|;
    if n == 0 then None
    else if IsPointer(log.samples[n - 1].kind) then Some(log.times[n - 1])
    else LastPointer(Log(log.samples[..n - 1], log.times[..n - 1]))
  }

  function Scaled(c: Coordinate): Coordinate {
    match c
    case NotFinite => NotFinite
    case Finite(v) => Finite(v * 1024.0)
  }

  /** A coordinate in 1024ths, rounded to the nearest, clamped to 32 bits. */
  predicate ScaledTo(r: int, c: Coordinate) {
    c.Finite? ==>
      var v := c.value * 1024.0;
      if v > INT32_MAX as real then r == INT32_MAX
      else if v < INT32_MIN as real then r == INT32_MIN
      else -0.5 < r as real - v <= 0.5
  }

  predicate Accepts(log: Log, e: Event)
    requires |log.times| == |log.samples|
  {
    && |log.samples| < COLLECTION_MAX_SAMPLES
    && match e
       case PointerEvent(_, _, now, _) => LastPointer(log).None? || now - LastPointer(log).value >= POINTER_SAMPLE_INTERVAL_MS
       case KeyEvent(_, repeat) => !repeat
  }

  function SampleOf(log: Log, e: Event): (s: Sample)
    ensures Fits(s)
  {
    match e
    case PointerEvent(x, y, now, touch) =>
      Sample(if touch then Touch else Pointer, DeltaMicros(now, LastTime(log.times)), ClampInt32(Scaled(x)), ClampInt32(Scaled(y)))
    case KeyEvent(now, _) => Sample(Press, DeltaMicros(now, LastTime(log.times)), 0, 0)
  }

  function Record(log: Log, e: Event): (r: Log)
    requires log.Valid()
    ensures r.Valid()
  {
    if Accepts(log, e) then Log(log.samples + [SampleOf(log, e)], log.times + [e.nowMs]) else log
  }

  function RecordAll(events: seq<Event>): (log: Log)
    ensures log.Valid()
  {
    if events == [] then Log([], []) else Record(RecordAll(events[..|events| - 1]), events[|events| - 1])
  }

  function CountKind(ss: seq<Sample>, pointer: bool): (n: nat)
    ensures n <= |ss|
  {
    if ss == [] then 0
    else CountKind(ss[..|ss| - 1], pointer) + (if IsPointer(ss[|ss| - 1].kind) == pointer then 1 else 0)
  }

  /** Accepted pointer and touch samples are at least 16 ms apart. */
  predicate Spaced(log: Log)
    requires |log.times| == |log.samples|
  {
    forall i, j :: 0 <= i < j < |log.samples| && IsPointer(log.samples[i].kind) && IsPointer(log.samples[j].kind) ==>
      log.times[j] - log.times[i] >= POINTER_SAMPLE_INTERVAL_MS
  }

  /** Pointer coordinates are recorded in 1024ths, each in its own field. */
  lemma PointerIsScaled(log: Log, e: Event)
    requires e.PointerEvent?
    ensures
      var s := SampleOf(log, e);
      && s.kind == (if e.touch then Touch else Pointer) && s.delta == DeltaMicros(e.nowMs, LastTime(log.times))
      && ScaledTo(s.a, e.x) && ScaledTo(s.b, e.y)
  {
    hide DeltaMicros;
  }

  /** The last accepted pointer or touch sample, if there is one. */
  lemma {:induction false} LastPointerIs(log: Log)
    requires |log.times| == |log.samples|
    ensures LastPointer(log).None? <==> forall i :: 0 <= i < |log.samples| ==> !IsPointer(log.samples[i].kind)
    ensures
      LastPointer(log).Some? ==>
        exists i :: 0 <= i < |log.samples| && IsPointer(log.samples[i].kind) && LastPointer(log) == Some(log.times[i]) &&
                    forall j :: i < j < |log.samples| ==> !IsPointer(log.samples[j].kind)
    decreases |log.samples|
  {
    var n := |log.samples|;
    if n > 0 && !IsPointer(log.samples[n - 1].kind) {
      var before := Log(log.samples[..n - 1], log.times[..n - 1]);
      LastPointerIs(before);
      if LastPointer(before).None? {
        forall i | 0 <= i < n ensures !IsPointer(log.samples[i].kind) { assert i < n - 1 ==> before.samples[i] == log.samples[i]; }
      } else {
        var i :| 0 <= i < n - 1 && IsPointer(before.samples[i].kind) && LastPointer(before) == Some(before.times[i]) &&
                 forall j :: i < j < n - 1 ==> !IsPointer(before.samples[j].kind);
        assert IsPointer(log.samples[i].kind) && LastPointer(log) == Some(log.times[i]);
        forall j | i < j < n ensures !IsPointer(log.samples[j].kind) { assert j < n - 1 ==> before.samples[j] == log.samples[j]; }
      }
    }
  }

  function KindAt(ss: seq<Sample>, pointer: bool): set<int> {
    set i | 0 <= i < |ss| && (ss[i].kind == Press) != pointer
  }

  /** The two counters count the samples of their kinds. */
  lemma {:induction false} CountIsCardinality(ss: seq<Sample>, pointer: bool)
    ensures CountKind(ss, pointer) == |KindAt(ss, pointer)|
  {
    if ss != [] {
      var n := |ss| - 1;
      CountIsCardinality(ss[..n], pointer);
      KindAtGrows(ss, pointer);
      hide KindAt;
    }
  }

  lemma KindAtGrows(ss: seq<Sample>, pointer: bool)
    requires ss != []
    ensures
      var n := |ss| - 1;
      var before := KindAt(ss[..n], pointer);
      n !in before && KindAt(ss, pointer) == if IsPointer(ss[n].kind) == pointer then before + {n} else before
  {}

  lemma {:induction false} LastPointerIsLatest(log: Log)
    requires |log.times| == |log.samples| && Spaced(log)
    ensures LastPointer(log).None? ==> forall i :: 0 <= i < |log.samples| ==> !IsPointer(log.samples[i].kind)
    ensures LastPointer(log).Some? ==>
              forall i :: 0 <= i < |log.samples| && IsPointer(log.samples[i].kind) ==> log.times[i] <= LastPointer(log).value
    decreases |log.samples|
  {
    var n := |log.samples|;
    if n > 0 && !IsPointer(log.samples[n - 1].kind) {
      LastPointerIsLatest(Log(log.samples[..n - 1], log.times[..n - 1]));
      forall i | 0 <= i < n && IsPointer(log.samples[i].kind) ensures i < n - 1 && log.samples[..n - 1][i] == log.samples[i] {}
    }
  }

  lemma {:induction false} AcceptedPointersAreSpaced(events: seq<Event>)
    ensures Spaced(RecordAll(events))
  {
    if events != [] {
      var log, e := RecordAll(events[..|events| - 1]), events[|events| - 1];
      AcceptedPointersAreSpaced(events[..|events| - 1]);
      LastPointerIsLatest(log);
    }
  }

  /** Later events only append. */
  lemma {:induction false} EarlierSamplesStay(events: seq<Event>, more: seq<Event>)
    ensures RecordAll(events).samples <= RecordAll(events + more).samples
  {
    if more == [] { assert events + more == events; }
    else {
      EarlierSamplesStay(events, more[..|more| - 1]);
      assert (events + more)[..|events + more| - 1] == events + more[..|more| - 1];
    }
  }

  /** Every byte already recorded stays, whatever happens later. */
  lemma EarlierBytesStay(events: seq<Event>, more: seq<Event>)
    ensures EncodeAll(RecordAll(events).samples) <= EncodeAll(RecordAll(events + more).samples)
  {
    EarlierSamplesStay(events, more);
    hide EncodeAll, RecordAll, Record;
    var ss, tt := RecordAll(events).samples, RecordAll(events + more).samples;
    assert tt == ss + tt[|ss|..];
    EncodeAppends(ss, tt[|ss|..]);
  }

  /** What one accepted event changes. */
  lemma AcceptedAppends(log: Log, e: Event)
    requires log.Valid() && Accepts(log, e)
    ensures
      var s, next := SampleOf(log, e), Record(log, e);
      && next.samples == log.samples + [s] && next.times == log.times + [e.nowMs]
      && EncodeAll(next.samples) == EncodeAll(log.samples) + Encode(s)
      && CountKind(next.samples, true) == CountKind(log.samples, true) + (if IsPointer(s.kind) then 1 else 0)
      && CountKind(next.samples, false) == CountKind(log.samples, false) + (if IsPointer(s.kind) then 0 else 1)
      && LastTime(next.times) == Some(e.nowMs)
      && LastPointer(next) == if IsPointer(s.kind) then Some(e.nowMs) else LastPointer(log)
  {
    var next := Record(log, e);
    var n := |log.samples|;
    assert next.samples[..n] == log.samples && next.times[..n] == log.times;
    hide SampleOf, Encode, Accepts;
  }

  // ---- The collector

  class InteractionCollector {
    var buf: array<byte>
    var count: nat
    var pointerLikeCount: nat
    var keyCount: nat
    var lastSampleMs: Option<real>
    var lastPointerMs: Option<real>
    var frozen: bool
    ghost var log: Log

    ghost predicate Valid()
      reads this, buf
    {
      && log.Valid()
      && buf.Length == COLLECTION_MAX_SAMPLES * RECORD_SIZE
      && count == |log.samples|
      && buf[..count * RECORD_SIZE] == EncodeAll(log.samples)
      && pointerLikeCount == CountKind(log.samples, true) && keyCount == CountKind(log.samples, false)
      && lastSampleMs == LastTime(log.times) && lastPointerMs == LastPointer(log)
    }

    constructor ()
      ensures Valid() && !frozen && log == Log([], []) && fresh(buf)
    {
      buf := new byte[COLLECTION_MAX_SAMPLES * RECORD_SIZE];
      count, pointerLikeCount, keyCount := 0, 0, 0;
      lastSampleMs, lastPointerMs, frozen := None, None, false;
      log := Log([], []);
    }

    function EstimatedBits(): nat
      reads this
    {
      pointerLikeCount * BITS_PER_POINTER_SAMPLE + keyCount * BITS_PER_KEY_SAMPLE
    }

    /** Writes one record after the others; no earlier byte changes. */
    method Append(s: Sample)
      requires buf.Length == COLLECTION_MAX_SAMPLES * RECORD_SIZE && count < COLLECTION_MAX_SAMPLES && Fits(s)
      modifies this`count, buf
      ensures count == old(count) + 1
      ensures buf[..count * RECORD_SIZE] == old(buf[..count * RECORD_SIZE]) + Encode(s)
    {
      var off := count * RECORD_SIZE;
      var bytes := Encode(s);
      var i := 0;
      while i < RECORD_SIZE
        invariant 0 <= i <= RECORD_SIZE && count == old(count)
        invariant buf[..off + i] == old(buf[..off]) + bytes[..i]
      {
        buf[off + i] := bytes[i];
        i := i + 1;
      }
      assert bytes[..RECORD_SIZE] == bytes;
      count := count + 1;
    }

    method AddPointerSample(x: Coordinate, y: Coordinate, nowMs: real, touch: bool) returns (ok: bool)
      requires Valid()
      modifies this, buf
      ensures Valid() && buf == old(buf) && frozen == old(frozen)
      ensures log == if old(frozen) then old(log) else Record(old(log), PointerEvent(x, y, nowMs, touch))
      ensures ok <==> !old(frozen) && Accepts(old(log), PointerEvent(x, y, nowMs, touch))
      ensures ok <==>
                && !old(frozen) && |old(log.samples)| < COLLECTION_MAX_SAMPLES
                && (LastPointer(old(log)).Some? ==> nowMs - LastPointer(old(log)).value >= POINTER_SAMPLE_INTERVAL_MS)
      ensures !ok ==> log == old(log)
      ensures ok ==>
                var s := log.samples[|log.samples| - 1];
                && log.samples == old(log.samples) + [s] && log.times == old(log.times) + [nowMs]
                && s.kind == (if touch then Touch else Pointer) && s.delta == DeltaMicros(nowMs, LastTime(old(log.times)))
                && ScaledTo(s.a, x) && ScaledTo(s.b, y)
    {
      hide DeltaMicros, ClampInt32, Scaled, ScaledTo, Encode, EncodeAll, CountKind;
      if frozen || count >= COLLECTION_MAX_SAMPLES { return false; }
      if lastPointerMs.Some? && nowMs - lastPointerMs.value < POINTER_SAMPLE_INTERVAL_MS { return false; }
      ghost var e := PointerEvent(x, y, nowMs, touch);
      var s := Sample(if touch then Touch else Pointer, DeltaMicros(nowMs, lastSampleMs), ClampInt32(Scaled(x)), ClampInt32(Scaled(y)));
      assert s == SampleOf(log, e) && Accepts(log, e);
      AcceptedAppends(log, e);
      PointerIsScaled(log, e);
      hide SampleOf, Accepts, Record, LastPointer, LastTime;
      Append(s);
      log := Record(log, e);
      lastPointerMs := Some(nowMs);
      lastSampleMs := Some(nowMs);
      pointerLikeCount := pointerLikeCount + 1;
      ok := true;
    }

    method AddKeySample(nowMs: real, repeat: bool) returns (ok: bool)
      requires Valid()
      modifies this, buf
      ensures Valid() && buf == old(buf) && frozen == old(frozen)
      ensures log == if old(frozen) then old(log) else Record(old(log), KeyEvent(nowMs, repeat))
      ensures ok <==> !old(frozen) && Accepts(old(log), KeyEvent(nowMs, repeat))
      ensures ok <==> !old(frozen) && |old(log.samples)| < COLLECTION_MAX_SAMPLES && !repeat
      ensures !ok ==> log == old(log)
      ensures ok ==> log.samples == old(log.samples) + [Sample(Press, DeltaMicros(nowMs, LastTime(old(log.times))), 0, 0)]
      ensures ok ==> log.times == old(log.times) + [nowMs]
    {
      hide DeltaMicros, Encode, EncodeAll, CountKind, LastPointer;
      if frozen || count >= COLLECTION_MAX_SAMPLES || repeat { return false; }
      ghost var e := KeyEvent(nowMs, repeat);
      var s := Sample(Press, DeltaMicros(nowMs, lastSampleMs), 0, 0);
      assert s == SampleOf(log, e) && Accepts(log, e);
      AcceptedAppends(log, e);
      hide SampleOf, Accepts, Record, LastPointer, LastTime;
      Append(s);
      log := Record(log, e);
      lastSampleMs := Some(nowMs);
      keyCount := keyCount + 1;
      ok := true;
    }

    /** A copy of the transcript: it decodes to exactly the accepted samples, in order,
        and the estimate is the weighted count of what it decodes to. */
    method Freeze() returns (bytes: seq<byte>)
      requires Valid()
      modifies this`frozen
      ensures Valid() && frozen && log == old(log)
      ensures DecodeAll(bytes) == Some(log.samples)
      ensures EstimatedBits() == CountKind(log.samples, true) * BITS_PER_POINTER_SAMPLE + CountKind(log.samples, false) * BITS_PER_KEY_SAMPLE
    {
      frozen := true;
      bytes := buf[0..count * RECORD_SIZE];
      assert bytes == buf[..count * RECORD_SIZE];
      DecodeAllEncodeAll(log.samples);
    }

    method Reset()
      requires Valid()
      modifies this, buf
      ensures Valid() && buf == old(buf) && !frozen && log == Log([], [])
      ensures forall i :: 0 <= i < buf.Length ==> buf[i] == 0
    {
      forall i | 0 <= i < buf.Length { buf[i] := 0; }
      count, pointerLikeCount, keyCount := 0, 0, 0;
      lastSampleMs, lastPointerMs, frozen := None, None, false;
      log := Log([], []);
    }
  }
}
