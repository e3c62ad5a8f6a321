/**
 * The camera stream (cameraStream.js): the `rpicam-vid` argument list that
 * `startStream` builds from its options, and the data handler installed by
 * `onFrame`, which appends each stdout chunk to a byte buffer and cuts out
 * every complete JPEG image (from a Start-Of-Image marker FF D8 to the next
 * End-Of-Image marker FF D9, ITU-T T.81 Annex B.1.1.3).
 */
module Camera {
  import opened Common

  newtype byte = x: int | 0 <= x < 256

  /** A two-byte JPEG marker. */
  type Marker = m: seq<byte> | |m| == 2 witness [0, 0]

  /** Start-Of-Image. */
  const SOI: Marker := [0xFF, 0xD8]
  /** End-Of-Image. */
  const EOI: Marker := [0xFF, 0xD9]

  // ---------------------------------------------------------------------
  // startStream: options with defaults, and the fixed argument list
  // ---------------------------------------------------------------------

  /** `Number.MAX_SAFE_INTEGER`, 2^53 - 1. */
  const MAX_SAFE_INTEGER: nat := 0x1F_FFFF_FFFF_FFFF

  /** A whole number a JavaScript number holds exactly. */
  type SafeInteger = n: nat | n <= MAX_SAFE_INTEGER

  /** The `options` object; `None` is a property the caller left out. */
  datatype StreamOptions = StreamOptions(
    width: Option<SafeInteger>, height: Option<SafeInteger>,
    framerate: Option<SafeInteger>, quality: Option<SafeInteger>)

  const DEFAULT_WIDTH: SafeInteger := 640
  const DEFAULT_HEIGHT: SafeInteger := 480
  const DEFAULT_FRAMERATE: SafeInteger := 10
  const DEFAULT_QUALITY: SafeInteger := 40

  predicate IsDigits(s: string) {
    forall i :: 0 <= i < |s| ==> '0' <= s[i] <= '9'
  }

  function DigitChar(d: nat): (c: char)
    requires d < 10
    ensures '0' <= c <= '9' && c as int - '0' as int == d
  {
    ('0' as int + d) as char
  }

  /** `Number.prototype.toString()` of a whole number up to `Number.MAX_SAFE_INTEGER`: its decimal digits. */
  function DecimalString(n: nat): (s: string)
    requires n <= MAX_SAFE_INTEGER
    ensures |s| > 0 && IsDigits(s)
    ensures n < 10 <==> |s| == 1
    ensures s[0] == '0' ==> n == 0
    decreases n
  {
    if n < 10 then [DigitChar(n)] else DecimalString(n / 10) + [DigitChar(n % 10)]
  }

  function DigitsValue(s: string): nat
    requires IsDigits(s)
  {
    if s == [] then 0 else DigitsValue(s[..|s| - 1]) * 10 + (s[|s| - 1] as int - '0' as int)
  }

  /** How the receiving program reads a numeric option value back. */
  function ParseDecimal(s: string): (r: Option<nat>)
    ensures r.Some? <==> |s| > 0 && IsDigits(s)
  {
    if |s| > 0 && IsDigits(s) then Some(DigitsValue(s)) else None
  }

  /** Printing a number and reading it back gives the number. */
  lemma {:induction false} DecimalRoundTrip(n: nat)
    requires n <= MAX_SAFE_INTEGER
    ensures ParseDecimal(DecimalString(n)) == Some(n)
  {
    var s := DecimalString(n);
    if n < 10 {
      assert s[..|s| - 1] == [];
      assert DigitsValue(s) == n;
    } else {
      DecimalRoundTrip(n / 10);
      assert s[..|s| - 1] == DecimalString(n / 10);
      assert DigitsValue(s) == DigitsValue(DecimalString(n / 10)) * 10 + n % 10;
    }
  }

  /** The argument list of cameraStream.js:7-22, with the defaults of line 5. */
  function StreamArgs(options: StreamOptions): (args: seq<string>)
    ensures |args| == 14
  {
    [ "--codec", "mjpeg",
      "--timeout", "0",
      "--width", DecimalString(options.width.GetOr(DEFAULT_WIDTH)),
      "--height", DecimalString(options.height.GetOr(DEFAULT_HEIGHT)),
      "--framerate", DecimalString(options.framerate.GetOr(DEFAULT_FRAMERATE)),
      "--quality", DecimalString(options.quality.GetOr(DEFAULT_QUALITY)),
      "-o", "-" ]
  }

  /** The process `startStream` launches. */
  function StartStream(options: StreamOptions): (inv: Invocation)
    ensures inv.executable == "rpicam-vid" && |inv.args| == 14
    ensures inv.args == StreamArgs(options)
  {
    Invocation("rpicam-vid", StreamArgs(options))
  }

  /** The flags of a `--flag value` argument list, in order. */
  function Flags(args: seq<string>): seq<string>
    decreases |args|
  {
    if |args| < 2 then [] else [args[0]] + Flags(args[2..])
  }

  /** The value given for `flag` in a `--flag value` argument list, read left to right. */
  function ValueOf(args: seq<string>, flag: string): Option<string>
    decreases |args|
  {
    if |args| < 2 then None
    else if args[0] == flag then Some(args[1])
    else ValueOf(args[2..], flag)
  }

  /** A numeric option as the receiving program reads it. */
  function NumberOf(args: seq<string>, flag: string): Option<nat> {
    match ValueOf(args, flag)
    case Some(v) => ParseDecimal(v)
    case None => None
  }

  /** The argument list is seven flag/value pairs in a fixed order. */
  lemma StreamArgsFlags(options: StreamOptions)
    ensures Flags(StreamArgs(options))
         == ["--codec", "--timeout", "--width", "--height", "--framerate", "--quality", "-o"]
  {
    var args := StreamArgs(options);
    var t2, t4, t6, t8, t10, t12 := args[2..], args[4..], args[6..], args[8..], args[10..], args[12..];
    assert t2[2..] == t4 && t4[2..] == t6 && t6[2..] == t8 && t8[2..] == t10 && t10[2..] == t12 && t12[2..] == [];
    assert Flags(t12) == ["-o"];
    assert Flags(t10) == ["--quality"] + Flags(t12);
    assert Flags(t8) == ["--framerate"] + Flags(t10);
    assert Flags(t6) == ["--height"] + Flags(t8);
    assert Flags(t4) == ["--width"] + Flags(t6);
    assert Flags(t2) == ["--timeout"] + Flags(t4);
    assert Flags(args) == ["--codec"] + Flags(t2);
  }

  /** When `flag` is not the first flag, its value is read from the remaining pairs. */
  lemma ValueOfSkip(args: seq<string>, flag: string)
    requires |args| >= 2 && args[0] != flag
    ensures ValueOf(args, flag) == ValueOf(args[2..], flag)
  {
  }

  /** The fixed flags carry their fixed values. */
  lemma StreamArgsFixedValues(options: StreamOptions)
    ensures ValueOf(StreamArgs(options), "--codec") == Some("mjpeg")
    ensures ValueOf(StreamArgs(options), "--timeout") == Some("0")
    ensures ValueOf(StreamArgs(options), "-o") == Some("-")
  {
    var args := StreamArgs(options);
    assert args[2..][2..] == args[4..];
    assert args[4..][2..] == args[6..];
    assert args[6..][2..] == args[8..];
    assert args[8..][2..] == args[10..];
    assert args[10..][2..] == args[12..];
    ValueOfSkip(args, "--timeout");
    ValueOfSkip(args, "-o");
    ValueOfSkip(args[2..], "-o");
    ValueOfSkip(args[4..], "-o");
    ValueOfSkip(args[6..], "-o");
    ValueOfSkip(args[8..], "-o");
    ValueOfSkip(args[10..], "-o");
  }

  /** Each numeric option reads back as the caller's value, or its default when left out. */
  lemma StreamArgsNumbers(options: StreamOptions)
    ensures NumberOf(StreamArgs(options), "--width") == Some(options.width.GetOr(DEFAULT_WIDTH))
    ensures NumberOf(StreamArgs(options), "--height") == Some(options.height.GetOr(DEFAULT_HEIGHT))
    ensures NumberOf(StreamArgs(options), "--framerate") == Some(options.framerate.GetOr(DEFAULT_FRAMERATE))
    ensures NumberOf(StreamArgs(options), "--quality") == Some(options.quality.GetOr(DEFAULT_QUALITY))
  {
    var args := StreamArgs(options);
    var w, h := options.width.GetOr(DEFAULT_WIDTH), options.height.GetOr(DEFAULT_HEIGHT);
    var f, q := options.framerate.GetOr(DEFAULT_FRAMERATE), options.quality.GetOr(DEFAULT_QUALITY);
    assert w <= MAX_SAFE_INTEGER && h <= MAX_SAFE_INTEGER && f <= MAX_SAFE_INTEGER && q <= MAX_SAFE_INTEGER;
    DecimalRoundTrip(w);
    DecimalRoundTrip(h);
    DecimalRoundTrip(f);
    DecimalRoundTrip(q);
    assert args[2..][2..] == args[4..];
    assert args[4..][2..] == args[6..];
    assert args[6..][2..] == args[8..];
    ValueOfSkip(args, "--width");
    ValueOfSkip(args[2..], "--width");
    ValueOfSkip(args, "--height");
    ValueOfSkip(args[2..], "--height");
    ValueOfSkip(args[4..], "--height");
    ValueOfSkip(args, "--framerate");
    ValueOfSkip(args[2..], "--framerate");
    ValueOfSkip(args[4..], "--framerate");
    ValueOfSkip(args[6..], "--framerate");
    ValueOfSkip(args, "--quality");
    ValueOfSkip(args[2..], "--quality");
    ValueOfSkip(args[4..], "--quality");
    ValueOfSkip(args[6..], "--quality");
    ValueOfSkip(args[8..], "--quality");
  }

  // ---------------------------------------------------------------------
  // onFrame: marker search and frame extraction
  // ---------------------------------------------------------------------

  /** The marker `m` begins at index `i` of `buf`. */
  predicate Occurs(buf: seq<byte>, i: int, m: Marker) {
    0 <= i && i + 2 <= |buf| && buf[i] == m[0] && buf[i + 1] == m[1]
  }

  /** `buf.indexOf(m, from)` of a Node.js Buffer: the first index at or after `from` where `m` begins, or -1. */
  function IndexOf(buf: seq<byte>, m: Marker, from: nat): (r: int)
    ensures r == -1 || (from <= r && Occurs(buf, r, m))
    ensures r == -1 ==> forall k :: from <= k ==> !Occurs(buf, k, m)
    ensures r != -1 ==> forall k :: from <= k < r ==> !Occurs(buf, k, m)
    decreases |buf| - from
  {
    if from + 2 > |buf| then -1
    else if Occurs(buf, from, m) then from
    else IndexOf(buf, m, from + 1)
  }

  /** A search that succeeds in a buffer finds the same index once more bytes are appended. */
  lemma {:induction false} IndexOfExtend(a: seq<byte>, b: seq<byte>, m: Marker, from: nat)
    requires IndexOf(a, m, from) != -1
    ensures IndexOf(a + b, m, from) == IndexOf(a, m, from)
    decreases |a| - from
  {
    if !Occurs(a, from, m) {
      assert !Occurs(a + b, from, m);
      IndexOfExtend(a, b, m, from + 1);
    } else {
      assert Occurs(a + b, from, m);
    }
  }

  /**
   * A complete JPEG frame as the handler cuts it: it starts with SOI, ends with
   * EOI, holds at least the two markers, and no EOI begins before its last two bytes.
   */
  predicate IsFrame(f: seq<byte>) {
    && |f| >= 4
    && Occurs(f, 0, SOI)
    && Occurs(f, |f| - 2, EOI)
    && forall k :: 0 <= k < |f| - 2 ==> !Occurs(f, k, EOI)
  }

  /** No occurrence of `m` lies wholly inside `p`. */
  predicate Free(p: seq<byte>, m: Marker) {
    forall k :: 0 <= k < |p| ==> !Occurs(p, k, m)
  }

  /** No SOI in `buf` is followed by an EOI beginning two or more bytes later: no frame is complete. */
  predicate NoCompleteFrame(buf: seq<byte>) {
    forall i, j :: 0 <= i && i + 2 <= j < |buf| && Occurs(buf, i, SOI) ==> !Occurs(buf, j, EOI)
  }

  /** The loop condition of cameraStream.js:39-42. */
  predicate HasFrame(buf: seq<byte>) {
    var start := IndexOf(buf, SOI, 0);
    start != -1 && IndexOf(buf, EOI, start + 2) != -1
  }

  /** The loop condition fails exactly when no frame is complete. */
  lemma {:induction false} HasFrameIff(buf: seq<byte>)
    ensures HasFrame(buf) <==> !NoCompleteFrame(buf)
  {
    var start := IndexOf(buf, SOI, 0);
    if start != -1 {
      var end := IndexOf(buf, EOI, start + 2);
      if end == -1 {
        forall i, j | 0 <= i && i + 2 <= j < |buf| && Occurs(buf, i, SOI) ensures !Occurs(buf, j, EOI) {
          assert start <= i;
        }
      }
    }
  }

  /** The result of running the extraction loop to completion on one buffer. */
  datatype Extraction = Extraction(
    skipped: seq<seq<byte>>,  // bytes dropped before each frame's SOI
    frames: seq<seq<byte>>,   // the frames passed to the callback, in order
    rest: seq<byte>)          // what `buffer` holds when the loop exits

  /** One pass of the loop body when the loop condition holds: the frame's first index and the index after its EOI. */
  function FrameBounds(buf: seq<byte>): (r: (nat, nat))
    requires HasFrame(buf)
    ensures r.0 + 4 <= r.1 <= |buf|
    ensures Occurs(buf, r.0, SOI) && Occurs(buf, r.1 - 2, EOI)
  {
    var start := IndexOf(buf, SOI, 0);
    var end := IndexOf(buf, EOI, start + 2);
    (start, end + 2)
  }

  /** What the `while` loop of cameraStream.js:39-47 does to a buffer. */
  function Split(buf: seq<byte>): (r: Extraction)
    ensures |r.skipped| == |r.frames|
    ensures |r.rest| <= |buf|
    ensures r.frames == [] <==> r.rest == buf
    decreases |buf|
  {
    var start := IndexOf(buf, SOI, 0);
    if start == -1 then Extraction([], [], buf)
    else
      var end := IndexOf(buf, EOI, start + 2);
      if end == -1 then Extraction([], [], buf)
      else
        var tail := Split(buf[end + 2..]);
        Extraction([buf[..start]] + tail.skipped, [buf[start..end + 2]] + tail.frames, tail.rest)
  }

  /** One turn of the loop: the first frame is cut out and the loop goes on with what follows it. */
  lemma {:induction false} SplitStep(buf: seq<byte>, start: int, end: int)
    requires start == IndexOf(buf, SOI, 0) && start != -1
    requires end == IndexOf(buf, EOI, start + 2) && end != -1
    ensures Split(buf).skipped == [buf[..start]] + Split(buf[end + 2..]).skipped
    ensures Split(buf).frames == [buf[start..end + 2]] + Split(buf[end + 2..]).frames
    ensures Split(buf).rest == Split(buf[end + 2..]).rest
  {
  }

  /** The loop exits when no frame is complete, leaving the buffer as it is. */
  lemma {:induction false} SplitDone(buf: seq<byte>)
    requires !HasFrame(buf)
    ensures Split(buf).frames == [] && Split(buf).rest == buf
  {
  }

  /** Every frame handed to the callback is well-formed, and every dropped prefix holds no SOI. */
  lemma {:induction false} SplitShapes(buf: seq<byte>)
    ensures forall i :: 0 <= i < |Split(buf).frames| ==> IsFrame(Split(buf).frames[i])
    ensures forall i :: 0 <= i < |Split(buf).skipped| ==> Free(Split(buf).skipped[i], SOI)
    decreases |buf|
  {
    if HasFrame(buf) {
      var (start, stop) := FrameBounds(buf);
      SplitShapes(buf[stop..]);
      var f := buf[start..stop];
      forall k | 0 <= k < |f| - 2 ensures !Occurs(f, k, EOI) {
        if k >= 2 {
          assert !Occurs(buf, start + k, EOI);
        }
      }
      var p := buf[..start];
      forall k | 0 <= k < |p| ensures !Occurs(p, k, SOI) {
        if Occurs(p, k, SOI) {
          assert Occurs(buf, k, SOI);
        }
      }
    }
  }

  /** The first frame begins at the first SOI, and ends at the first EOI that begins two or more bytes after it. */
  lemma {:induction false} FirstFrameLocation(buf: seq<byte>)
    requires Split(buf).frames != []
    ensures Split(buf).frames[0] == buf[|Split(buf).skipped[0]|..|Split(buf).skipped[0]| + |Split(buf).frames[0]|]
    ensures Occurs(buf, |Split(buf).skipped[0]|, SOI)
    ensures forall k :: 0 <= k < |Split(buf).skipped[0]| ==> !Occurs(buf, k, SOI)
    ensures forall k :: |Split(buf).skipped[0]| + 2 <= k < |Split(buf).skipped[0]| + |Split(buf).frames[0]| - 2
                     ==> !Occurs(buf, k, EOI)
  {
  }

  /** When the loop exits, the buffer holds no complete frame. */
  lemma {:induction false} SplitRestHasNoFrame(buf: seq<byte>)
    ensures NoCompleteFrame(Split(buf).rest)
    decreases |buf|
  {
    if HasFrame(buf) {
      var (start, stop) := FrameBounds(buf);
      SplitRestHasNoFrame(buf[stop..]);
    } else {
      HasFrameIff(buf);
    }
  }

  /** The dropped prefixes and the frames, interleaved in order. */
  function Interleave(skipped: seq<seq<byte>>, frames: seq<seq<byte>>): seq<byte>
    requires |skipped| == |frames|
  {
    if skipped == [] then [] else skipped[0] + frames[0] + Interleave(skipped[1..], frames[1..])
  }

  /** Nothing is lost or reordered: the buffer is each dropped prefix followed by its frame, then the rest. */
  lemma {:induction false} SplitReconstructs(buf: seq<byte>)
    ensures Interleave(Split(buf).skipped, Split(buf).frames) + Split(buf).rest == buf
    decreases |buf|
  {
    if HasFrame(buf) {
      var (start, stop) := FrameBounds(buf);
      SplitReconstructs(buf[stop..]);
      SplitTurnReconstructs(buf, start, stop);
    } else {
      SplitDone(buf);
    }
  }

  /** If the rest of the loop accounts for the bytes after the first frame, the whole buffer is accounted for. */
  lemma SplitTurnReconstructs(buf: seq<byte>, start: nat, stop: nat)
    requires HasFrame(buf) && FrameBounds(buf) == (start, stop)
    requires Interleave(Split(buf[stop..]).skipped, Split(buf[stop..]).frames) + Split(buf[stop..]).rest == buf[stop..]
    ensures Interleave(Split(buf).skipped, Split(buf).frames) + Split(buf).rest == buf
  {
    SplitStep(buf, start, stop - 2);
    ReassembleTurn(buf, start, stop, Split(buf), Split(buf[stop..]));
  }

  /** One turn of the loop, reassembled: the dropped prefix and the frame put back before what the rest of the loop accounts for. */
  lemma ReassembleTurn(buf: seq<byte>, start: nat, stop: nat, r: Extraction, tail: Extraction)
    requires start <= stop <= |buf|
    requires |tail.skipped| == |tail.frames|
    requires r.skipped == [buf[..start]] + tail.skipped && r.frames == [buf[start..stop]] + tail.frames
    requires r.rest == tail.rest
    requires Interleave(tail.skipped, tail.frames) + tail.rest == buf[stop..]
    ensures Interleave(r.skipped, r.frames) + r.rest == buf
  {
    InterleaveCons(buf[..start], buf[start..stop], tail.skipped, tail.frames);
    Reassemble(buf, start, stop, Interleave(tail.skipped, tail.frames), tail.rest);
  }

  lemma InterleaveCons(p: seq<byte>, f: seq<byte>, skipped: seq<seq<byte>>, frames: seq<seq<byte>>)
    requires |skipped| == |frames|
    ensures Interleave([p] + skipped, [f] + frames) == (p + f) + Interleave(skipped, frames)
  {
    assert ([p] + skipped)[1..] == skipped && ([f] + frames)[1..] == frames;
  }

  lemma Reassemble(buf: seq<byte>, start: nat, stop: nat, middle: seq<byte>, rest: seq<byte>)
    requires start <= stop <= |buf|
    requires middle + rest == buf[stop..]
    ensures ((buf[..start] + buf[start..stop]) + middle) + rest == buf
  {
    AppendAssoc(buf[..start] + buf[start..stop], middle, rest);
    assert buf[..start] + buf[start..stop] + buf[stop..] == buf;
  }

  /** A frame complete in `a` is cut out of `a + b` at the same place, and the loop goes on with the rest of `a` followed by `b`. */
  lemma {:induction false} SplitExtendStep(a: seq<byte>, b: seq<byte>, start: int, end: int)
    requires start == IndexOf(a, SOI, 0) && start != -1
    requires end == IndexOf(a, EOI, start + 2) && end != -1
    ensures Split(a + b).frames == [a[start..end + 2]] + Split(a[end + 2..] + b).frames
    ensures Split(a + b).rest == Split(a[end + 2..] + b).rest
  {
    assert IndexOf(a + b, SOI, 0) == start by { IndexOfExtend(a, b, SOI, 0); }
    assert IndexOf(a + b, EOI, start + 2) == end by { IndexOfExtend(a, b, EOI, start + 2); }
    SliceOfAppend(a, b, start, end + 2);
    SplitStep(a + b, start, end);
  }

  /** Slicing `a + b` within `a`, or from inside `a` to the end. */
  lemma SliceOfAppend<T>(a: seq<T>, b: seq<T>, i: nat, j: nat)
    requires i <= j <= |a|
    ensures (a + b)[i..j] == a[i..j]
    ensures (a + b)[j..] == a[j..] + b
  {
  }

  /** The inductive step of SplitAppend: `a` holds a complete frame ending before index `end + 2`. */
  lemma {:induction false} SplitAppendStep(a: seq<byte>, b: seq<byte>, start: int, end: int)
    requires start == IndexOf(a, SOI, 0) && start != -1
    requires end == IndexOf(a, EOI, start + 2) && end != -1
    requires Split(a[end + 2..] + b).frames == Split(a[end + 2..]).frames + Split(Split(a[end + 2..]).rest + b).frames
    requires Split(a[end + 2..] + b).rest == Split(Split(a[end + 2..]).rest + b).rest
    ensures Split(a + b).frames == Split(a).frames + Split(Split(a).rest + b).frames
    ensures Split(a + b).rest == Split(Split(a).rest + b).rest
  {
    var f, t := a[start..end + 2], a[end + 2..];
    assert Split(a + b).frames == [f] + Split(t + b).frames && Split(a + b).rest == Split(t + b).rest by {
      SplitExtendStep(a, b, start, end);
    }
    assert Split(a).frames == [f] + Split(t).frames && Split(a).rest == Split(t).rest by {
      SplitStep(a, start, end);
    }
    AppendAssoc([f], Split(t).frames, Split(Split(t).rest + b).frames);
  }


  /**
   * Chunk boundaries do not matter: extracting from `a + b` gives the frames of
   * `a`, then the frames of what `a` left behind followed by `b`.
   */
  lemma {:induction false} SplitAppend(a: seq<byte>, b: seq<byte>)
    ensures Split(a + b).frames == Split(a).frames + Split(Split(a).rest + b).frames
    ensures Split(a + b).rest == Split(Split(a).rest + b).rest
    decreases |a|
  {
    var start := IndexOf(a, SOI, 0);
    var end := if start == -1 then -1 else IndexOf(a, EOI, start + 2);
    if end == -1 {
      SplitDone(a);
    } else {
      SplitAppend(a[end + 2..], b);
      SplitAppendStep(a, b, start, end);
    }
  }

  /** One turn of the `while` loop keeps what the loop has emitted plus what is left to emit equal to the whole. */
  lemma {:induction false} TurnKeepsSplit(buf: seq<byte>, start: int, end: int, frames: seq<seq<byte>>, whole: seq<byte>)
    requires start == IndexOf(buf, SOI, 0) && start != -1
    requires end == IndexOf(buf, EOI, start + 2) && end != -1
    requires frames + Split(buf).frames == Split(whole).frames
    requires Split(buf).rest == Split(whole).rest
    ensures (frames + [buf[start..end + 2]]) + Split(buf[end + 2..]).frames == Split(whole).frames
    ensures Split(buf[end + 2..]).rest == Split(whole).rest
  {
    SplitStep(buf, start, end);
    AppendAssoc(frames, [buf[start..end + 2]], Split(buf[end + 2..]).frames);
  }

  lemma AppendEmpty<T>(p: seq<T>)
    ensures p + [] == p
  {
  }

  /** SplitAppend for a stream whose extraction so far left `buffer` behind. */
  lemma {:induction false} StreamAppend(received: seq<byte>, buffer: seq<byte>, chunk: seq<byte>)
    requires Split(received).rest == buffer
    ensures Split(received + chunk).frames == Split(received).frames + Split(buffer + chunk).frames
    ensures Split(received + chunk).rest == Split(buffer + chunk).rest
  {
    SplitAppend(received, chunk);
  }

  /**
   * The `while` loop of the `data` handler, whose condition computes `start`
   * and `end`: cut every complete frame off the front of `pending`, in order,
   * and return what is left.
   */
  method Drain(pending: seq<byte>) returns (frames: seq<seq<byte>>, rest: seq<byte>)
    ensures frames == Split(pending).frames
    ensures rest == Split(pending).rest
  {
    rest := pending;
    frames := [];
    while true
      invariant frames + Split(rest).frames == Split(pending).frames
      invariant Split(rest).rest == Split(pending).rest
      decreases |rest|
    {
      var start := IndexOf(rest, SOI, 0);
      if start == -1 {
        SplitDone(rest);
        AppendEmpty(frames);
        return;
      }
      var end := IndexOf(rest, EOI, start + 2);
      if end == -1 {
        SplitDone(rest);
        AppendEmpty(frames);
        return;
      }
      TurnKeepsSplit(rest, start, end, frames, pending);
      var frame := rest[start..end + 2];
      rest := rest[end + 2..];
      frames := frames + [frame];
    }
  }

  /**
   * The buffer and the frame callback of one `startStream` call. The ghost
   * fields record every byte received on stdout and every frame emitted.
   */
  class FrameStream {
    const invocation: Invocation
    var buffer: seq<byte>
    ghost var received: seq<byte>
    ghost var emitted: seq<seq<byte>>

    /** The handler has emitted exactly the frames of the stream so far and holds what they left behind. */
    ghost predicate Valid()
      reads this
    {
      Split(received).frames == emitted && Split(received).rest == buffer
    }

    /** `startStream(options)`: spawn `rpicam-vid` and start from an empty buffer. */
    constructor (options: StreamOptions)
      ensures Valid()
      ensures invocation == StartStream(options)
      ensures buffer == [] && received == [] && emitted == []
    {
      invocation := StartStream(options);
      buffer := [];
      received := [];
      emitted := [];
    }

    /** The stdout `data` handler: append the chunk, then emit every complete frame in order. */
    method OnData(chunk: seq<byte>) returns (frames: seq<seq<byte>>)
      requires Valid()
      modifies this
      ensures Valid()
      ensures received == old(received) + chunk
      ensures emitted == old(emitted) + frames
      ensures frames == Split(old(buffer) + chunk).frames
      ensures buffer == Split(old(buffer) + chunk).rest
    {
      StreamAppend(received, buffer, chunk);
      frames, buffer := Drain(buffer + chunk);
      received := received + chunk;
      emitted := emitted + frames;
    }
  }
}
