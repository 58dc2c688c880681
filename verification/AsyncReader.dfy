/**
 Reading from a file or a process through a read-ahead buffer. The operating system hands
 out the bytes in pieces of any size; the three read modes must not let that show.
 */
module AsyncReader {
  import opened ByteStrings
  import opened Wrappers

  // --- what a read gives, on the plain sequence of bytes still to come ---

  datatype ReadSpec = ReadAll | ReadLine | ReadBytes(count: nat)

  predicate IsNewline(c: Byte) {
    c == '\n' || c == '\r'
  }

  function Strip(s: Bytes): (r: Bytes)
    ensures r <= s && (r == [] || !IsNewline(r[|r| - 1]))
    ensures forall i :: |r| <= i < |s| ==> IsNewline(s[i])
  {
    if s == [] || !IsNewline(s[|s| - 1]) then s else Strip(s[..|s| - 1])
  }

  function SomeUnlessEmpty(s: Bytes): Option<Bytes> {
    if s == [] then None else Some(s)
  }

  // The value (nil is `None`) and the bytes left.
  function Serve(spec: ReadSpec, content: Bytes): (Option<Bytes>, Bytes) {
    match spec
    case ReadAll => (SomeUnlessEmpty(content), [])
    case ReadLine =>
      var (line, rest) := CutAt(content, '\n');
      if rest.Some? then (Some(Strip(line)), rest.value) else (SomeUnlessEmpty(Strip(content)), [])
    case ReadBytes(count) =>
      var (taken, rest) := Upto(content, count);
      (if count == 0 then Some([]) else SomeUnlessEmpty(taken), rest)
  }

  // The first n elements, or all, and the others.
  function Upto<T>(s: seq<T>, n: nat): (seq<T>, seq<T>) {
    if n <= |s| then (s[..n], s[n..]) else (s, [])
  }

  // --- the source's objects ---

  const CHUNK := 4096

  // A stream descriptor. How much a read yields is up to the operating system.
  class ByteStream {
    var unread: Bytes

    constructor (bytes: Bytes)
      ensures unread == bytes
    {
      unread := bytes;
    }

    // `async_read_some`: at least a byte unless the stream has ended.
    method ReadSome(max: nat) returns (data: Bytes)
      requires max > 0
      modifies this
      ensures old(unread) == data + unread && |data| <= max && (data == [] <==> old(unread) == [])
    {
      if unread == [] { return []; }
      var n: nat := 1;
      if * { n :| 1 <= n <= max && n <= |unread|; }
      data, unread := unread[..n], unread[n..];
    }

    // `async_read` into a buffer of `max` bytes: read until it is full or the stream ends.
    method ReadFull(max: nat) returns (data: Bytes)
      modifies this
      ensures old(unread) == data + unread && |data| == if max <= old(|unread|) then max else old(|unread|)
    {
      data := [];
      ghost var all := unread;
      while |data| < max
        invariant all == data + unread && |data| <= max
        decreases max - |data|
      {
        var more := ReadSome(max - |data|);
        if more == [] { break; }
        data := data + more;
      }
    }

    // `async_read` into a growing buffer: read until the stream ends.
    method ReadToEnd() returns (data: Bytes)
      modifies this
      ensures data == old(unread) && unread == []
    {
      data := [];
      ghost var all := unread;
      while true
        invariant all == data + unread
        decreases |unread|
      {
        var more := ReadSome(CHUNK);
        if more == [] { break; }
        data := data + more;
      }
    }
  }

  // `Refused`: the handle was closed before the call. `Dropped`: it was closed while the
  // read waited, and the reader is not resumed.
  datatype Outcome = Refused | Dropped | Resumed(value: Option<Bytes>)

  // The handle of a file, or of the output of a process.
  class ReadHandle {
    const stream: ByteStream
    var readBuffer: Bytes
    var closed: bool

    constructor (s: ByteStream)
      ensures stream == s && readBuffer == [] && !closed
    {
      stream := s;
      readBuffer, closed := [], false;
    }

    function Contents(): Bytes
      reads this, stream
    {
      readBuffer + stream.unread
    }

    method Close()
      modifies this
      ensures closed && (old(closed) || readBuffer == [])
      ensures old(closed) ==> readBuffer == old(readBuffer)
    {
      if closed { return; }
      closed := true;
      readBuffer := [];
    }

    // Other coroutines run while a read waits; one of them may close the handle.
    method Wait()
      modifies this
      ensures !closed ==> readBuffer == old(readBuffer)
    {
      if * { Close(); }
    }

    method DoReadLine() returns (r: Outcome)
      requires !closed
      modifies this, stream
      ensures if closed then r == Dropped
              else r.Resumed? && (r.value, Contents()) == Serve(ReadLine, old(Contents()))
      decreases |stream.unread|
    {
      ghost var content := Contents();
      var pos := FindFirstOf(readBuffer, ['\n'], 0);
      if pos != |readBuffer| {
        r := TakeLine(pos);
        return;
      }
      var data := stream.ReadSome(CHUNK);
      Wait();
      if closed { return Dropped; }
      if data == [] {
        assert content == readBuffer;
        var line := StripTrailingNewline(readBuffer);
        readBuffer := [];
        return Resumed(if line == [] then None else Some(line));
      }
      readBuffer := readBuffer + data;
      assert Contents() == content;
      pos := FindFirstOf(readBuffer, ['\n'], 0);
      if pos != |readBuffer| {
        r := TakeLine(pos);
      } else {
        r := DoReadLine();
      }
    }

    // The bytes before the newline at `pos` are the line.
    method TakeLine(pos: nat) returns (r: Outcome)
      requires pos == FindFirstOf(readBuffer, ['\n'], 0) < |readBuffer|
      modifies this
      ensures r.Resumed? && closed == old(closed)
      ensures (r.value, Contents()) == Serve(ReadLine, old(Contents()))
    {
      LineInBuffer(readBuffer, stream.unread, pos);
      var line := readBuffer[..pos];
      readBuffer := readBuffer[pos + 1..];
      line := StripTrailingNewline(line);
      r := Resumed(Some(line));
    }

    // `file_read` and `process_read`.
    method Read(spec: ReadSpec) returns (r: Outcome)
      modifies this, stream
      ensures old(closed) ==> r == Refused && closed && Contents() == old(Contents())
      ensures !old(closed) ==>
                if closed then r == Dropped
                else r.Resumed? && (r.value, Contents()) == Serve(spec, old(Contents()))
    {
      if closed { return Refused; }
      match spec
      case ReadAll =>
        var buf := readBuffer;
        readBuffer := [];
        var data := stream.ReadToEnd();
        buf := buf + data;
        Wait();
        if closed { return Dropped; }
        assert buf == old(Contents()) && Contents() == [];
        r := Resumed(if buf == [] then None else Some(buf));
      case ReadLine =>
        r := DoReadLine();
      case ReadBytes(count) =>
        r := ReadCount(count);
    }

    method ReadCount(count: nat) returns (r: Outcome)
      requires !closed
      modifies this, stream
      ensures if closed then r == Dropped
              else r.Resumed? && (r.value, Contents()) == Serve(ReadBytes(count), old(Contents()))
    {
      ghost var content := Contents();
      if count == 0 {
        assert content[0..] == content;
        return Resumed(Some([]));
      }
      var remaining := count;
      if |readBuffer| >= remaining {
        var buf := readBuffer[..remaining];
        readBuffer := readBuffer[remaining..];
        assert content[..count] == buf && content[count..] == Contents();
        return Resumed(Some(buf));
      }
      var buf := readBuffer;
      readBuffer := [];
      remaining := remaining - |buf|;
      buf := buf + Zeros(count - |buf|);
      var start := |buf| - remaining;
      var data := stream.ReadFull(remaining);
      buf := buf[..start] + data + buf[start + |data|..];
      Wait();
      if closed { return Dropped; }
      var total := |buf| - remaining + |data|;
      buf := buf[..total];
      assert buf + stream.unread == content;
      assert content[..total] == buf && content[total..] == stream.unread == Contents();
      assert total < count ==> stream.unread == [] && content == buf;
      assert Upto(content, count) == (buf, Contents());
      r := Resumed(if total == 0 then None else Some(buf));
    }
  }

  function Zeros(n: nat): Bytes {
    seq(n, _ => '\0')
  }

  method StripTrailingNewline(s: Bytes) returns (r: Bytes)
    ensures r == Strip(s)
  {
    r := s;
    while r != [] && IsNewline(r[|r| - 1])
      invariant r <= s && Strip(r) == Strip(s)
      decreases |r|
    {
      r := r[..|r| - 1];
    }
  }

  // A newline in the buffer is the first newline of all that is to come.
  lemma LineInBuffer(buffer: Bytes, unread: Bytes, pos: nat)
    requires pos == FindFirstOf(buffer, ['\n'], 0) < |buffer|
    ensures CutAt(buffer + unread, '\n') == (buffer[..pos], Some(buffer[pos + 1..] + unread))
  {
    assert forall i :: 0 <= i < pos ==> buffer[i] !in ['\n'];
    hide CutAt, FindFirstOf;
    CutAtIndex(buffer + unread, '\n', 0, pos);
    Sides(buffer, unread, pos);
  }

  lemma Sides<T>(a: seq<T>, b: seq<T>, n: nat)
    requires n < |a|
    ensures (a + b)[0..] == a + b && (a + b)[0..n] == a[..n] && (a + b)[n + 1..] == a[n + 1..] + b
  {}

  // --- bytes are consumed once and in order ---

  function Taken(spec: ReadSpec, content: Bytes): Bytes {
    var rest := Serve(spec, content).1;
    if |rest| <= |content| then content[..|content| - |rest|] else []
  }

  /** A read takes a prefix and gives it back: whole, or as a line, stripped. */
  lemma ReadTakesPrefix(spec: ReadSpec, content: Bytes)
    ensures var (value, rest) := Serve(spec, content); var taken := Taken(spec, content);
            && content == taken + rest
            && (value.Some? ==> value.value == if spec.ReadLine? then Strip(taken) else taken)
            && (value.None? ==> rest == [] && if spec.ReadLine? then Strip(taken) == [] else taken == [])
  {
    var rest := Serve(spec, content).1;
    if spec.ReadLine? { LineTakesPrefix(content); }
    assert content[|content| - |rest|..] == rest;
  }

  /** A read of n bytes gives the next n, or all there are; nil only if n > 0 and there are none. */
  lemma ReadBytesGives(n: nat, content: Bytes)
    ensures var (value, rest) := Serve(ReadBytes(n), content);
            var k := if n < |content| then n else |content|;
            && rest == content[k..] && |Taken(ReadBytes(n), content)| == k
            && (value.None? <==> n > 0 && content == [])
            && (value.Some? ==> value.value == content[..k])
  {
    assert content[..|content|] == content;
  }

  /** A read of all gives everything; nil only if there is nothing. */
  lemma ReadAllGives(content: Bytes)
    ensures var (value, rest) := Serve(ReadAll, content);
            rest == [] && (value.None? <==> content == []) && (value.Some? ==> value.value == content)
  {}

  predicate EndsInNewline(s: Bytes) {
    s != [] && (s[|s| - 1] == '\n' || s[|s| - 1] == '\r')
  }

  /** Stripping cuts off newlines and carriage returns at the end, all of them and nothing else. */
  lemma StripExactly(s: Bytes, r: Bytes)
    ensures Strip(s) == r <==>
              && r <= s && !EndsInNewline(r)
              && forall i :: |r| <= i < |s| ==> s[i] == '\n' || s[i] == '\r'
  {
    var t := Strip(s);
    assert t == s[..|t|];
    if r <= s && !EndsInNewline(r) && forall i :: |r| <= i < |s| ==> s[i] == '\n' || s[i] == '\r' {
      assert |t| <= |r|;
      assert |r| <= |t|;
      assert r == s[..|r|];
    }
  }

  lemma StripEnded(line: Bytes)
    ensures Strip(line + ['\n']) == Strip(line)
  {
    assert (line + ['\n'])[..|line|] == line;
  }

  lemma LineTakesPrefix(content: Bytes)
    ensures var (value, rest) := Serve(ReadLine, content);
            && |rest| <= |content| && content == Taken(ReadLine, content) + rest
            && (value.Some? ==> value.value == Strip(Taken(ReadLine, content)))
  {
    var (line, after) := CutAt(content, '\n');
    CutExactly(content, '\n', line, after);
    StripEnded(line);
    hide Strip;
    if after.Some? {
      var ended := line + ['\n'];
      assert content == ended + after.value;
      assert content[..|ended|] == ended;
    } else {
      assert content[..|content|] == content;
    }
  }

  // A run of reads on one handle: the values, and what each took.
  function ServeAll(specs: seq<ReadSpec>, content: Bytes): (seq<Option<Bytes>>, seq<Bytes>, Bytes) {
    if specs == [] then ([], [], content)
    else
      var (value, rest) := Serve(specs[0], content);
      var (values, taken, left) := ServeAll(specs[1..], rest);
      ([value] + values, [Taken(specs[0], content)] + taken, left)
  }

  function Concat(parts: seq<Bytes>): Bytes {
    if parts == [] then [] else parts[0] + Concat(parts[1..])
  }

  /** Over any run of reads in any modes, no byte is lost, repeated or moved. */
  lemma {:induction false} BytesAreConserved(specs: seq<ReadSpec>, content: Bytes)
    ensures var (values, taken, left) := ServeAll(specs, content);
            |values| == |taken| == |specs| && Concat(taken) + left == content
  {
    hide Serve, Taken;
    if specs != [] {
      ReadTakesPrefix(specs[0], content);
      var rest := Serve(specs[0], content).1;
      BytesAreConserved(specs[1..], rest);
      var (values, taken, left) := ServeAll(specs[1..], rest);
      var first := Taken(specs[0], content);
      assert ([first] + taken)[1..] == taken;
      assert first + Concat(taken) + left == first + (Concat(taken) + left);
    }
  }

  function OrEmpty(value: Option<Bytes>): Bytes {
    if value.Some? then value.value else []
  }

  /** Two reads of m and n bytes are one read of m + n, cut. */
  lemma ByteReadsAdd(m: nat, n: nat, content: Bytes)
    ensures var (first, rest) := Serve(ReadBytes(m), content); var (second, left) := Serve(ReadBytes(n), rest);
            var (both, after) := Serve(ReadBytes(m + n), content);
            OrEmpty(both) == OrEmpty(first) + OrEmpty(second) && after == left
  {
    CutsAdd(content, m, n);
    hide Upto;
    BytesServed(m, content);
    BytesServed(m + n, content);
    BytesServed(n, Upto(content, m).1);
  }

  lemma CutsAdd<T>(s: seq<T>, m: nat, n: nat)
    ensures var (first, rest) := Upto(s, m); var (second, left) := Upto(rest, n);
            Upto(s, m + n) == (first + second, left)
  {
    if m + n <= |s| {
      assert s[m..][..n] == s[m..m + n] && s[..m + n] == s[..m] + s[m..m + n];
      assert s[m..][n..] == s[m + n..];
    } else if m <= |s| {
      assert s == s[..m] + s[m..];
    } else {
      assert s + Upto<T>([], n).0 == s;
    }
  }

  lemma BytesServed(n: nat, content: Bytes)
    ensures OrEmpty(Serve(ReadBytes(n), content).0) == Upto(content, n).0
    ensures Serve(ReadBytes(n), content).1 == Upto(content, n).1
  {}

  // --- lines ---

  // The lines a script gets by reading until nil.
  function Lines(content: Bytes): seq<Bytes>
    decreases |content|
  {
    var (value, rest) := Serve(ReadLine, content);
    if value.None? then [] else [value.value] + Lines(rest)
  }

  lemma LineShrinks(content: Bytes)
    ensures var (value, rest) := Serve(ReadLine, content);
            && (value.Some? ==> |rest| < |content|)
            && Lines(content) == if value.None? then [] else [value.value] + Lines(rest)
  {}

  // Reading until nil, however the bytes arrive; `None` if the handle was closed meanwhile.
  method ReadLines(h: ReadHandle) returns (lines: Option<seq<Bytes>>)
    requires !h.closed
    modifies h, h.stream
    ensures if h.closed then lines == None else lines == Some(Lines(old(h.Contents())))
  {
    hide Serve, Lines;
    var got: seq<Bytes> := [];
    ghost var content := h.Contents();
    assert [] + Lines(content) == Lines(content);
    while true
      invariant !h.closed && Lines(content) == got + Lines(h.Contents())
      decreases |h.Contents()|
    {
      ghost var before := h.Contents();
      LineShrinks(before);
      var r := h.Read(ReadLine);
      if h.closed { return None; }
      if r.value.None? {
        assert got + [] == got;
        return Some(got);
      }
      assert got + ([r.value.value] + Lines(h.Contents())) == got + [r.value.value] + Lines(h.Contents());
      got := got + [r.value.value];
    }
  }

  // Pieces joined by newlines.
  function Joined(pieces: seq<Bytes>): Bytes
    requires |pieces| > 0
  {
    if |pieces| == 1 then pieces[0] else pieces[0] + (['\n'] + Joined(pieces[1..]))
  }

  // Every piece stripped, without a last piece of which nothing is left.
  function Stripped(pieces: seq<Bytes>): seq<Bytes>
    requires |pieces| > 0
  {
    var first := Strip(pieces[0]);
    if |pieces| > 1 then [first] + Stripped(pieces[1..]) else if first == [] then [] else [first]
  }

  // The content, cut at its newlines.
  predicate ArePieces(pieces: seq<Bytes>, content: Bytes) {
    pieces != [] && (forall p <- pieces :: '\n' !in p) && Joined(pieces) == content
  }

  /** Every content is cut at its newlines into pieces, and its lines are these, stripped. */
  lemma LinesArePieces(content: Bytes)
    ensures exists pieces :: ArePieces(pieces, content)
    ensures forall pieces :: ArePieces(pieces, content) ==> Lines(content) == Stripped(pieces)
  {
    var cut := Pieces(content);
    forall pieces | ArePieces(pieces, content) ensures Lines(content) == Stripped(pieces) { LinesOfJoined(pieces); }
  }

  lemma {:induction false} LinesOfJoined(pieces: seq<Bytes>)
    requires pieces != [] && forall p <- pieces :: '\n' !in p
    ensures Lines(Joined(pieces)) == Stripped(pieces)
  {
    var content := Joined(pieces);
    if |pieces| == 1 {
      CutExactly(content, '\n', content, None);
      assert Lines([]) == [];
    } else {
      CutExactly(content, '\n', pieces[0], Some(Joined(pieces[1..])));
      LinesOfJoined(pieces[1..]);
    }
  }

  lemma {:induction false} Pieces(content: Bytes) returns (pieces: seq<Bytes>)
    ensures ArePieces(pieces, content)
    decreases |content|
  {
    var (line, rest) := CutAt(content, '\n');
    CutExactly(content, '\n', line, rest);
    if rest.None? {
      pieces := [line];
    } else {
      var others := Pieces(rest.value);
      pieces := [line] + others;
      assert pieces[1..] == others;
    }
  }

  // Each line ended by a newline.
  function Ended(lines: seq<Bytes>): Bytes {
    if lines == [] then [] else lines[0] + (['\n'] + Ended(lines[1..]))
  }

  /** Lines written out are read back as they were exactly when none ends in a carriage return. */
  lemma {:induction false} LinesComeBack(lines: seq<Bytes>)
    requires forall line <- lines :: '\n' !in line
    ensures Lines(Ended(lines)) == lines <==> forall line <- lines :: line == [] || line[|line| - 1] != '\r'
  {
    forall line <- lines ensures Strip(line) == line <==> line == [] || line[|line| - 1] != '\r' {
      StripExactly(line, line);
      assert line != [] ==> line[|line| - 1] in line;
    }
    hide Lines, Strip;
    if lines == [] {
      NoLines();
    } else {
      FirstLine(lines[0], Ended(lines[1..]));
      LinesComeBack(lines[1..]);
      assert lines == [lines[0]] + lines[1..];
    }
  }

  lemma NoLines()
    ensures Lines([]) == []
  {}

  lemma FirstLine(line: Bytes, rest: Bytes)
    requires '\n' !in line
    ensures Lines(line + (['\n'] + rest)) == [Strip(line)] + Lines(rest)
  {
    CutExactly(line + (['\n'] + rest), '\n', line, Some(rest));
    hide CutAt, Strip;
  }
}
