/** Length-prefixed fields written by the parent and read, in whatever pieces the pipe gives, by the owner. */
module OwnerInput {
  import opened Quoting

  newtype byte = x: int | 0 <= x < 256

  datatype Result<+T> = Ok(value: T) | Error(message: string)

  const MaxFieldBytes := 0x10_0000

  // ---- writing ---------------------------------------------------------------------------------

  function Utf16(s: Text): (r: seq<byte>)
    ensures |r| == 2 * |s|
  {
    if s == [] then [] else [(s[0] as int % 256) as byte, (s[0] as int / 256) as byte] + Utf16(s[1..])
  }

  /** A 32-bit little-endian integer. */
  function Int32(n: int): (r: seq<byte>)
    requires 0 <= n < 0x8000_0000
    ensures |r| == 4
  {
    [(n % 256) as byte, (n / 256 % 256) as byte, (n / 0x1_0000 % 256) as byte, (n / 0x100_0000) as byte]
  }

  function ReadInt32(b: seq<byte>): int
    requires |b| == 4
  {
    var n := b[0] as int + 256 * b[1] as int + 0x1_0000 * b[2] as int + 0x100_0000 * b[3] as int;
    if n < 0x8000_0000 then n else n - 0x1_0000_0000
  }

  method FrameField(value: Text) returns (r: Result<seq<byte>>)
    ensures r.Ok? <==> 2 * |value| <= 0x10_0000
    ensures r.Ok? ==> r.value == Frame(value)
  {
    var content := Utf16(value);
    if |content| > MaxFieldBytes {
      return Error("provider_process_start_failed");
    }
    var length := new byte[4](i => 0);
    var bytes := Int32(|content|);
    for i := 0 to 4
      invariant forall k :: 0 <= k < i ==> length[k] == bytes[k]
    {
      length[i] := bytes[i];
    }
    assert length[..] == bytes;
    return Ok(length[..] + content);
  }

  function Frame(value: Text): (r: seq<byte>)
    requires 2 * |value| <= MaxFieldBytes
    ensures |r| == 4 + 2 * |value|
  {
    Int32(2 * |value|) + Utf16(value)
  }

  function Frames(values: seq<Text>): seq<byte>
    requires forall v :: v in values ==> 2 * |v| <= MaxFieldBytes
  {
    if values == [] then [] else Frame(values[0]) + Frames(values[1..])
  }

  // ---- reading ---------------------------------------------------------------------------------

  /** A pipe that gives at most `pieces(i)` bytes at the `i`-th read, but some while there are any. */
  class Pipe {
    const data: seq<byte>
    const pieces: nat -> nat
    var position: nat
    var turn: nat

    ghost predicate Valid()
      reads this`position
    {
      position <= |data|
    }

    constructor (data: seq<byte>, pieces: nat -> nat)
      ensures Valid() && this.data == data && this.pieces == pieces && position == 0
    {
      this.data, this.pieces, position, turn := data, pieces, 0, 0;
    }

    method ReadSync(buffer: array<byte>, offset: nat, length: nat) returns (count: nat)
      requires Valid() && offset + length <= buffer.Length && length > 0
      modifies this`position, this`turn, buffer
      ensures Valid() && position == old(position) + count && count <= length
      ensures count == 0 <==> old(position) == |data|
      ensures buffer[..] == old(buffer[..offset]) + data[old(position)..position] + old(buffer[offset + count..])
    {
      var piece := if pieces(turn) == 0 then 1 else pieces(turn);
      count := if piece < length then piece else length;
      count := if count < |data| - position then count else |data| - position;
      ghost var before := buffer[..];
      var start := position;
      for i := 0 to count
        invariant position == start
        invariant forall k :: 0 <= k < buffer.Length ==>
          buffer[k] == if offset <= k < offset + i then data[start + k - offset] else before[k]
      {
        buffer[offset + i] := data[start + i];
      }
      assert buffer[..] == before[..offset] + data[start..start + count] + before[offset + count..];
      position, turn := start + count, turn + 1;
    }
  }

  /** The next `length` bytes, however many reads they take; or an error when they are not all there. */
  method ReadExact(input: Pipe, length: nat) returns (r: Result<seq<byte>>)
    requires input.Valid()
    modifies input
    ensures input.Valid()
    ensures r.Ok? <==> old(input.position) + length <= |input.data|
    ensures r.Ok? ==>
      input.position == old(input.position) + length && r.value == input.data[old(input.position)..input.position]
  {
    var buffer := new byte[length](i => 0);
    var offset := 0;
    ghost var start := input.position;
    while offset < length
      invariant input.Valid() && offset <= length && input.position == start + offset
      invariant buffer[..offset] == input.data[start..start + offset]
      decreases length - offset
    {
      var count := input.ReadSync(buffer, offset, length - offset);
      if count == 0 {
        return Error("Unexpected owner input end.");
      }
      assert buffer[..offset + count] == buffer[..offset] + input.data[start + offset..start + offset + count];
      offset := offset + count;
    }
    assert buffer[..] == buffer[..offset];
    return Ok(buffer[..]);
  }

  /** The field at a position: its bytes and where it ends. */
  function FieldAt(data: seq<byte>, position: nat): Result<(seq<byte>, nat)> {
    if position + 4 > |data| then Error("Unexpected owner input end.") else
    var length := ReadInt32(data[position..position + 4]);
    if length < 0 || length > MaxFieldBytes then Error("Invalid owner field length.")
    else if position + 4 + length > |data| then Error("Unexpected owner input end.")
    else Ok((data[position + 4..position + 4 + length], position + 4 + length))
  }

  method ReadField(input: Pipe) returns (r: Result<seq<byte>>)
    requires input.Valid()
    modifies input
    ensures input.Valid()
    ensures match FieldAt(input.data, old(input.position))
      case Ok(field) => r == Ok(field.0) && input.position == field.1
      case Error(message) => r == Error(message)
  {
    var header := ReadExact(input, 4);
    if header.Error? {
      return Error("Unexpected owner input end.");
    }
    var length := ReadInt32(header.value);
    if length < 0 || length > MaxFieldBytes {
      return Error("Invalid owner field length.");
    }
    r := ReadExact(input, length);
    if r.Error? {
      r := Error("Unexpected owner input end.");
    }
  }

  lemma Int32RoundTrip(n: int)
    requires 0 <= n < 0x8000_0000
    ensures ReadInt32(Int32(n)) == n
  {
    var low, middle, high := n / 256, n / 256 / 256, n / 256 / 256 / 256;
    Quotients(n);
    assert n == 256 * low + n % 256 && low == 256 * middle + low % 256 && middle == 256 * high + middle % 256;
  }

  lemma Quotients(n: nat)
    ensures n / 256 / 256 == n / 0x1_0000 && n / 256 / 256 / 256 == n / 0x100_0000
  {
  }

  lemma FieldRoundTrip(before: seq<byte>, value: Text, after: seq<byte>)
    requires 2 * |value| <= MaxFieldBytes
    ensures FieldAt(before + Frame(value) + after, |before|) == Ok((Utf16(value), |before| + 4 + 2 * |value|))
  {
    hide Utf16, Int32, ReadInt32, FieldAt, Frame;
    Int32RoundTrip(2 * |value|);
    FrameIs(value);
    FieldInside(before + Frame(value) + after, before, Frame(value), Int32(2 * |value|), Utf16(value), after);
  }

  lemma FrameIs(value: Text)
    requires 2 * |value| <= MaxFieldBytes
    ensures 2 * |value| < 0x8000_0000 && Frame(value) == Int32(2 * |value|) + Utf16(value)
  {
  }

  lemma FieldInside(
    data: seq<byte>, before: seq<byte>, frame: seq<byte>, header: seq<byte>, content: seq<byte>, after: seq<byte>)
    requires data == before + frame + after && frame == header + content
    requires |header| == 4 && ReadInt32(header) == |content| <= MaxFieldBytes
    ensures FieldAt(data, |before|) == Ok((content, |before| + 4 + |content|))
  {
    hide ReadInt32, FieldAt;
    Reassociate(before, header, content, after);
    Middle(before, header, content + after);
    Middle(before + header, content, after);
    FieldIs(data, |before|, header, content);
  }

  lemma FieldIs(data: seq<byte>, position: nat, header: seq<byte>, content: seq<byte>)
    requires |header| == 4 && ReadInt32(header) == |content| <= MaxFieldBytes
    requires position + 4 + |content| <= |data|
    requires data[position..position + 4] == header && data[position + 4..position + 4 + |content|] == content
    ensures FieldAt(data, position) == Ok((content, position + 4 + |content|))
  {
    hide ReadInt32;
  }

  lemma Middle(a: seq<byte>, b: seq<byte>, c: seq<byte>)
    ensures (a + b + c)[|a|..|a| + |b|] == b
  {
  }

  lemma Reassociate(a: seq<byte>, b: seq<byte>, c: seq<byte>, d: seq<byte>)
    ensures a + (b + c) + d == a + b + (c + d) == a + b + c + d
  {
  }

  /** The next `n` fields, and where they end. */
  function FieldsAt(data: seq<byte>, position: nat, n: nat): Result<(seq<seq<byte>>, nat)>
    decreases n
  {
    if n == 0 then Ok(([], position)) else
    match FieldAt(data, position)
    case Error(message) => Error(message)
    case Ok((field, next)) =>
      match FieldsAt(data, next, n - 1)
      case Error(message) => Error(message)
      case Ok((fields, end)) => Ok(([field] + fields, end))
  }

  function Contents(values: seq<Text>): (r: seq<seq<byte>>)
    ensures |r| == |values|
  {
    if values == [] then [] else [Utf16(values[0])] + Contents(values[1..])
  }

  /** Reading as many fields as were framed, one after the other, gives their contents in order, and ends
      right behind them. */
  lemma {:induction false} FieldsRoundTrip(before: seq<byte>, values: seq<Text>, after: seq<byte>)
    requires forall v :: v in values ==> 2 * |v| <= MaxFieldBytes
    ensures FieldsAt(before + Frames(values) + after, |before|, |values|)
         == Ok((Contents(values), |before| + |Frames(values)|))
    decreases |values|
  {
    hide FieldAt, Frame, FieldsAt, Utf16, Frames, Contents;
    if values == [] {
      NoFrames();
      NoField(before + Frames(values) + after, |before|);
    } else {
      var first, rest := Frame(values[0]), Frames(values[1..]);
      FirstFrame(values);
      Reassociate(before, first, rest, after);
      FieldRoundTrip(before, values[0], rest + after);
      FieldsRoundTrip(before + first, values[1..], after);
      OneField(before + Frames(values) + after, |before|, |values|, Utf16(values[0]), |before| + |first|,
               Contents(values[1..]), |before| + |Frames(values)|);
    }
  }

  lemma NoFrames()
    ensures Frames([]) == [] && Contents([]) == []
  {
  }

  lemma FirstFrame(values: seq<Text>)
    requires values != [] && forall v :: v in values ==> 2 * |v| <= MaxFieldBytes
    ensures Frames(values) == Frame(values[0]) + Frames(values[1..])
    ensures Contents(values) == [Utf16(values[0])] + Contents(values[1..])
  {
  }

  lemma NoField(data: seq<byte>, position: nat)
    ensures FieldsAt(data, position, 0) == Ok(([], position))
  {
  }

  lemma OneField(
    data: seq<byte>, position: nat, n: nat, field: seq<byte>, next: nat, fields: seq<seq<byte>>, end: nat)
    requires n > 0 && FieldAt(data, position) == Ok((field, next)) && FieldsAt(data, next, n - 1) == Ok((fields, end))
    ensures FieldsAt(data, position, n) == Ok(([field] + fields, end))
  {
    hide FieldAt;
  }

  // ---- what is not framed ----------------------------------------------------------------------

  lemma WriteWhatWasRead(header: seq<byte>)
    requires |header| == 4 && 0 <= ReadInt32(header)
    ensures Int32(ReadInt32(header)) == header
  {
    var n := ReadInt32(header);
    Quotients(n);
    var low := header[1] as int + 256 * header[2] as int + 0x1_0000 * header[3] as int;
    var middle := header[2] as int + 256 * header[3] as int;
    LowByte(header[0] as int, low);
    LowByte(header[1] as int, middle);
    LowByte(header[2] as int, header[3] as int);
    assert n == header[0] as int + 256 * low && low == header[1] as int + 256 * middle;
  }

  lemma LowByte(b: int, rest: int)
    requires 0 <= b < 256
    ensures (b + 256 * rest) % 256 == b && (b + 256 * rest) / 256 == rest
  {
  }

  /** Whatever is read as a field was framed: its length, low byte first, of at most a mebibyte, and its bytes. */
  lemma OnlyFramesAreRead(data: seq<byte>, position: nat)
    requires FieldAt(data, position).Ok?
    ensures var (content, end) := FieldAt(data, position).value;
      && |content| <= 0x10_0000 && end == position + 4 + |content| <= |data|
      && data[position..end] == Int32(|content|) + content
  {
    hide ReadInt32, Int32;
    var (content, end) := FieldAt(data, position).value;
    WriteWhatWasRead(data[position..position + 4]);
    assert data[position..end] == data[position..position + 4] + content;
  }

  lemma LengthLowByteFirst()
    ensures Int32(0x0403_0201) == [1, 2, 3, 4]
  {
  }

  lemma FieldCutShort(data: seq<byte>, position: nat, k: nat)
    requires FieldAt(data, position).Ok? && k <= |data|
    ensures FieldAt(data[..k], position) ==
      if FieldAt(data, position).value.1 <= k then FieldAt(data, position) else Error("Unexpected owner input end.")
  {
    hide ReadInt32;
    if position + 4 <= k {
      assert data[..k][position..position + 4] == data[position..position + 4];
      var length := ReadInt32(data[position..position + 4]);
      if position + 4 + length <= k {
        assert data[..k][position + 4..position + 4 + length] == data[position + 4..position + 4 + length];
      }
    }
  }

  lemma {:induction false} FieldsCutShort(data: seq<byte>, position: nat, n: nat, k: nat)
    requires FieldsAt(data, position, n).Ok? && position <= k < FieldsAt(data, position, n).value.1 && k <= |data|
    ensures FieldsAt(data[..k], position, n) == Error("Unexpected owner input end.")
    decreases n
  {
    hide FieldAt;
    if n == 0 {
      assert false;
    } else {
      FieldCutShort(data, position, k);
      var next := FieldAt(data, position).value.1;
      if next <= k { FieldsCutShort(data, next, n - 1, k); }
    }
  }

  /** When the parent's end of the pipe closes before all of it was written, whatever was cut off, the owner has
      nothing to start. */
  lemma NothingStartsFromAPart(values: seq<Text>, k: nat)
    requires forall v :: v in values ==> 2 * |v| <= MaxFieldBytes
    requires k < |Frames(values)|
    ensures FieldsAt(Frames(values)[..k], 0, |values|) == Error("Unexpected owner input end.")
  {
    hide FieldsAt, Frames, Contents;
    FieldsRoundTrip([], values, []);
    assert [] + Frames(values) + [] == Frames(values);
    FieldsCutShort(Frames(values), 0, |values|, k);
  }

  // ---- the six fields of a start ---------------------------------------------------------------

  /** What the owner reads before it starts the process; what goes to the system gets a terminating zero. */
  datatype Start = Start(
    applicationName: seq<byte>, commandLine: seq<byte>, marker: seq<byte>, exitMarker: seq<byte>,
    environment: seq<byte>, directory: seq<byte>)

  function TerminatedUtf16(value: seq<byte>): seq<byte> {
    value + [0, 0]
  }

  function StartOf(fields: seq<seq<byte>>): Start
    requires |fields| == 6
  {
    Start(TerminatedUtf16(fields[0]), TerminatedUtf16(fields[1]), fields[2], fields[3],
          TerminatedUtf16(fields[4]), TerminatedUtf16(fields[5]))
  }

  /** The fields read so far, and then those from `position` on, are the first `n`. */
  ghost predicate ReadSoFar(data: seq<byte>, start: nat, fields: seq<seq<byte>>, position: nat, n: nat) {
    |fields| <= n && FieldsAt(data, start, n) == Behind(fields, FieldsAt(data, position, n - |fields|))
  }

  ghost function Behind(fields: seq<seq<byte>>, r: Result<(seq<seq<byte>>, nat)>): Result<(seq<seq<byte>>, nat)> {
    match r
    case Error(message) => Error(message)
    case Ok((rest, end)) => Ok((fields + rest, end))
  }

  lemma OneMoreRead(data: seq<byte>, start: nat, fields: seq<seq<byte>>, position: nat, n: nat)
    requires ReadSoFar(data, start, fields, position, n) && |fields| < n
    ensures var r := FieldAt(data, position);
      if r.Ok? then ReadSoFar(data, start, fields + [r.value.0], r.value.1, n)
      else FieldsAt(data, start, n) == Error(r.message)
  {
    hide FieldAt;
    if FieldAt(data, position).Ok? {
      var field, next := FieldAt(data, position).value.0, FieldAt(data, position).value.1;
      var after := FieldsAt(data, next, n - |fields| - 1);
      if after.Ok? {
        assert fields + ([field] + after.value.0) == fields + [field] + after.value.0;
      }
    }
  }

  lemma NothingRead(data: seq<byte>, start: nat, n: nat)
    ensures ReadSoFar(data, start, [], start, n)
  {
    var r := FieldsAt(data, start, n);
    assert r.Ok? ==> [] + r.value.0 == r.value.0;
  }

  lemma AllRead(data: seq<byte>, start: nat, fields: seq<seq<byte>>, position: nat)
    requires ReadSoFar(data, start, fields, position, |fields|)
    ensures FieldsAt(data, start, |fields|) == Ok((fields, position))
  {
    assert fields + [] == fields;
  }

  method ReadNext(input: Pipe, ghost start: nat, ghost fields: seq<seq<byte>>, ghost n: nat)
    returns (r: Result<seq<byte>>)
    requires input.Valid() && |fields| < n && ReadSoFar(input.data, start, fields, input.position, n)
    modifies input
    ensures input.Valid()
    ensures match r
      case Ok(field) => ReadSoFar(input.data, start, fields + [field], input.position, n)
      case Error(message) => FieldsAt(input.data, start, n) == Error(message)
  {
    hide ReadSoFar, FieldAt, FieldsAt;
    OneMoreRead(input.data, start, fields, input.position, n);
    r := ReadField(input);
  }

  /** Short of six fields, the first that is missing or malformed decides the error. */
  method ReadStart(input: Pipe) returns (r: Result<Start>)
    requires input.Valid()
    modifies input
    ensures input.Valid()
    ensures match FieldsAt(input.data, old(input.position), 6)
      case Ok((fields, end)) => |fields| == 6 && input.position == end && r == Ok(StartOf(fields))
      case Error(message) => r == Error(message)
  {
    hide ReadSoFar, FieldsAt;
    ghost var start := input.position;
    NothingRead(input.data, start, 6);
    var applicationName := ReadNext(input, start, [], 6);
    if applicationName.Error? { return Error(applicationName.message); }
    ghost var read := [] + [applicationName.value];
    var commandLine := ReadNext(input, start, read, 6);
    if commandLine.Error? { return Error(commandLine.message); }
    read := read + [commandLine.value];
    var marker := ReadNext(input, start, read, 6);
    if marker.Error? { return Error(marker.message); }
    read := read + [marker.value];
    var exitMarker := ReadNext(input, start, read, 6);
    if exitMarker.Error? { return Error(exitMarker.message); }
    read := read + [exitMarker.value];
    var environment := ReadNext(input, start, read, 6);
    if environment.Error? { return Error(environment.message); }
    read := read + [environment.value];
    var directory := ReadNext(input, start, read, 6);
    if directory.Error? { return Error(directory.message); }
    read := read + [directory.value];
    AllRead(input.data, start, read, input.position);
    r := Ok(Start(TerminatedUtf16(applicationName.value), TerminatedUtf16(commandLine.value), marker.value,
                  exitMarker.value, TerminatedUtf16(environment.value), TerminatedUtf16(directory.value)));
  }

  /** Each text has its place: four reach the system, with a terminating zero, and the markers stay as they are. */
  ghost predicate StartsWith(start: Start, values: seq<Text>)
    requires |values| == 6
  {
    && start.applicationName == Utf16(values[0]) + [0, 0] && start.commandLine == Utf16(values[1]) + [0, 0]
    && start.marker == Utf16(values[2]) && start.exitMarker == Utf16(values[3])
    && start.environment == Utf16(values[4]) + [0, 0] && start.directory == Utf16(values[5]) + [0, 0]
  }

  lemma {:induction false} ContentAt(values: seq<Text>, i: nat)
    requires i < |values|
    ensures Contents(values)[i] == Utf16(values[i])
    decreases |values|
  {
    hide Utf16;
    if i > 0 {
      ContentAt(values[1..], i - 1);
    }
  }

  lemma StartOfTexts(values: seq<Text>)
    requires |values| == 6
    ensures StartsWith(StartOf(Contents(values)), values)
  {
    hide Utf16, Contents;
    ContentAt(values, 0);
    ContentAt(values, 1);
    ContentAt(values, 2);
    ContentAt(values, 3);
    ContentAt(values, 4);
    ContentAt(values, 5);
  }

  /** The parent writes six framed texts, the pipe gives them in whatever pieces it likes, and the owner has
      exactly those texts, each where it belongs. */
  method StartRoundTrip(values: seq<Text>, pieces: nat -> nat) returns (r: Result<Start>)
    requires |values| == 6 && forall v :: v in values ==> 2 * |v| <= MaxFieldBytes
    ensures r.Ok? && StartsWith(r.value, values)
  {
    hide FieldsAt, Frames, Contents, StartOf, StartsWith;
    StartOfTexts(values);
    var input := new Pipe(Frames(values), pieces);
    FieldsRoundTrip([], values, []);
    assert [] + Frames(values) + [] == Frames(values);
    r := ReadStart(input);
  }

  // ---- from the parent to the program ----------------------------------------------------------

  /** The code units of a text as the system reads it. */
  function WideText(bytes: seq<byte>): Text
    decreases |bytes|
  {
    if |bytes| < 2 then [] else [(bytes[0] as int + 256 * bytes[1] as int) as unit] + WideText(bytes[2..])
  }

  lemma {:induction false} WideTextRoundTrip(s: Text)
    ensures WideText(TerminatedUtf16(Utf16(s))) == s + [Nul]
    decreases |s|
  {
    var bytes := TerminatedUtf16(Utf16(s));
    if s == [] {
      assert bytes == [0, 0] && bytes[2..] == [];
    } else {
      assert bytes[2..] == TerminatedUtf16(Utf16(s[1..]));
      WideTextRoundTrip(s[1..]);
      assert s == [s[0]] + s[1..];
    }
  }

  /** What the parent writes for a start, and what the program then finds: the arguments it was given, for
      every schedule of short reads, if and only if none of them holds a NUL. */
  method ArgumentsArrive(
    application: Text, args: seq<Text>, marker: Text, exitMarker: Text, environment: Text, directory: Text,
    pieces: nat -> nat) returns (found: Result<seq<Text>>)
    requires Quote !in application && Nul !in application
    requires var line := CommandLine(application, args);
      forall v :: v in [application, line, marker, exitMarker, environment, directory] ==> 2 * |v| <= MaxFieldBytes
    ensures found.Ok? && (found.value == args <==> forall a :: a in args ==> Nul !in a)
  {
    hide CommandLine, ParseArguments, AfterProgram, Visible, WideText, Utf16;
    var line := CommandLine(application, args);
    var values := [application, line, marker, exitMarker, environment, directory];
    var start := StartRoundTrip(values, pieces);
    WideTextRoundTrip(line);
    TerminatorIsUnseen(line);
    ArgumentsRoundTrip(application, args);
    found := Ok(ProgramArguments(WideText(start.value.commandLine)));
  }

  lemma {:induction false} TerminatorIsUnseen(line: Text)
    ensures Visible(line + [Nul]) == Visible(line)
  {
    if line != [] {
      assert (line + [Nul])[1..] == line[1..] + [Nul];
      TerminatorIsUnseen(line[1..]);
    }
  }

  lemma {:induction false} Utf16IsInjective(a: Text, b: Text)
    requires Utf16(a) == Utf16(b)
    ensures a == b
  {
    if a != [] {
      assert |a| == |b|;
      assert Utf16(a)[0] == Utf16(b)[0] && Utf16(a)[1] == Utf16(b)[1];
      assert Utf16(a)[2..] == Utf16(a[1..]) && Utf16(b)[2..] == Utf16(b[1..]);
      Utf16IsInjective(a[1..], b[1..]);
      assert a == [a[0]] + a[1..] && b == [b[0]] + b[1..];
    }
  }
}
