/**
 The update journal on disk: one newline-terminated line per record, and a reader that
 ignores whatever is not a complete, decodable line.
 */
module JournalFile {
  import opened Basics

  type Byte = b: int | 0 <= b < 256
  type Line = seq<Byte>

  const NEWLINE: Byte := 10

  /** How records are written and parsed. Parsing a line of another schema or of bad JSON gives None. */
  datatype Codec<!R> = Codec(encode: R -> Line, decode: Line -> Option<R>)

  predicate IsSpace(b: Byte) {
    b == 32 || 9 <= b <= 13
  }

  /** A newline ends a line and is itself white space, like tab, vertical tab, form feed, carriage return and space. */
  lemma WhiteSpace(b: Byte)
    ensures IsSpace(b) <==> b in {9, 10, 11, 12, 13, 32}
    ensures NEWLINE == '\n' as int
  {
  }

  predicate Blank(line: Line) {
    forall i :: 0 <= i < |line| ==> IsSpace(line[i])
  }

  /** What the writer guarantees of one encoded record: no newline, not blank, and it parses back. */
  ghost predicate Encodes<R(!new)>(c: Codec<R>, r: R) {
    && NEWLINE !in c.encode(r)
    && !Blank(c.encode(r))
    && c.decode(c.encode(r) + [NEWLINE]) == Some(r)
  }

  function Encoded<R>(c: Codec<R>, records: seq<R>): seq<Byte> {
    if records == [] then [] else c.encode(records[0]) + [NEWLINE] + Encoded(c, records[1..])
  }

  // ----- Reading

  /** The end of the first line of a non-empty file. */
  function LineEnd(file: seq<Byte>): (n: nat)
    requires file != []
    ensures 0 < n <= |file|
    ensures NEWLINE !in file[..n - 1]
    ensures n < |file| ==> file[n - 1] == NEWLINE
  {
    if file[0] == NEWLINE || |file| == 1 then 1
    else
      var rest := LineEnd(file[1..]);
      assert file[..rest] == [file[0]] + file[1..][..rest - 1];
      rest + 1
  }

  /** Iterating over a binary stream: lines with their newline; the last one may lack it. */
  function Lines(file: seq<Byte>): seq<Line>
    decreases |file|
  {
    if file == [] then [] else
    var n := LineEnd(file);
    [file[..n]] + Lines(file[n..])
  }

  function ReadLine<R>(c: Codec<R>, raw: Line): Option<R> {
    if raw == [] || raw[|raw| - 1] != NEWLINE || Blank(raw) then None else c.decode(raw)
  }

  function Parsed<R>(c: Codec<R>, lines: seq<Line>): seq<R> {
    if lines == [] then [] else
    var r := ReadLine(c, lines[|lines| - 1]);
    Parsed(c, lines[..|lines| - 1]) + (if r.Some? then [r.value] else [])
  }

  /** Read only complete newline-terminated records. */
  method Records<R>(c: Codec<R>, file: seq<Byte>) returns (records: seq<R>)
    ensures records == Parsed(c, Lines(file))
  {
    records := [];
    var lines := Lines(file);
    for i := 0 to |lines|
      invariant records == Parsed(c, lines[..i])
    {
      assert lines[..i + 1][..i] == lines[..i];
      var raw := lines[i];
      if raw == [] || raw[|raw| - 1] != NEWLINE || Blank(raw) {
        continue;
      }
      var value := c.decode(raw);
      if value.Some? {
        records := records + [value.value];
      }
    }
    assert lines[..|lines|] == lines;
  }

  // ----- A journal cut anywhere

  /** How many records lie completely within the first k bytes. */
  function Committed<R>(c: Codec<R>, records: seq<R>, k: nat): (n: nat)
    ensures n <= |records|
  {
    if records == [] || k < |c.encode(records[0])| + 1 then 0
    else 1 + Committed(c, records[1..], k - |c.encode(records[0])| - 1)
  }

  lemma {:induction false} LineEndFirst(body: Line, rest: seq<Byte>)
    requires NEWLINE !in body
    ensures LineEnd(body + [NEWLINE] + rest) == |body| + 1
  {
    var file := body + [NEWLINE] + rest;
    if body != [] {
      LineEndFirst(body[1..], rest);
      assert file[1..] == body[1..] + [NEWLINE] + rest;
      assert file[0] == body[0];
    }
  }

  lemma {:induction false} LinesFirst(body: Line, rest: seq<Byte>)
    requires NEWLINE !in body
    ensures Lines(body + [NEWLINE] + rest) == [body + [NEWLINE]] + Lines(rest)
  {
    var file := body + [NEWLINE] + rest;
    LineEndFirst(body, rest);
    assert file[..|body| + 1] == body + [NEWLINE];
    assert file[|body| + 1..] == rest;
  }

  lemma {:induction false} LineEndTorn(body: Line)
    requires body != [] && NEWLINE !in body
    ensures LineEnd(body) == |body|
  {
    if |body| > 1 {
      LineEndTorn(body[1..]);
    }
  }

  /** A line without a newline is not read. */
  lemma {:induction false} TornTail<R>(c: Codec<R>, body: Line)
    requires NEWLINE !in body
    ensures Parsed(c, Lines(body)) == []
  {
    if body != [] {
      LineEndTorn(body);
      assert body[..|body|] == body && body[|body|..] == [];
      assert Lines(body) == [body];
      assert body[|body| - 1] in body;
      assert ReadLine(c, body).None?;
      assert Lines(body)[..0] == [];
    }
  }

  lemma {:induction false} ParsedFirst<R>(c: Codec<R>, line: Line, lines: seq<Line>)
    ensures Parsed(c, [line] + lines) ==
            (if ReadLine(c, line).Some? then [ReadLine(c, line).value] else []) + Parsed(c, lines)
  {
    var all := [line] + lines;
    if lines == [] {
      assert all[..0] == [] && all[0] == line;
    } else {
      ParsedFirst(c, line, lines[..|lines| - 1]);
      assert all[..|all| - 1] == [line] + lines[..|lines| - 1];
    }
  }

  lemma EncodedLineRead<R(!new)>(c: Codec<R>, r: R)
    requires Encodes(c, r)
    ensures ReadLine(c, c.encode(r) + [NEWLINE]) == Some(r)
  {
    var body := c.encode(r);
    var i :| 0 <= i < |body| && !IsSpace(body[i]);
    assert (body + [NEWLINE])[i] == body[i];
  }

  lemma NoNewline<R(!new)>(c: Codec<R>, r: R)
    requires Encodes(c, r)
    ensures NEWLINE !in c.encode(r)
  {
  }

  /** A complete encoded line is read, whatever follows it. */
  lemma {:induction false} ReadOn<R(!new)>(c: Codec<R>, r: R, tail: seq<Byte>)
    requires Encodes(c, r)
    ensures Parsed(c, Lines(c.encode(r) + [NEWLINE] + tail)) == [r] + Parsed(c, Lines(tail))
  {
    LinesFirst(c.encode(r), tail);
    ParsedFirst(c, c.encode(r) + [NEWLINE], Lines(tail));
    EncodedLineRead(c, r);
  }

  /**
   Whatever byte the journal is cut at, reading it back gives exactly the records that were
   completely written, in order. Uncut, it gives them all.
   */
  lemma {:induction false} CutReadsPrefix<R(!new)>(c: Codec<R>, records: seq<R>, k: nat)
    requires forall i :: 0 <= i < |records| ==> Encodes(c, records[i])
    requires k <= |Encoded(c, records)|
    ensures Parsed(c, Lines(Encoded(c, records)[..k])) == records[..Committed(c, records, k)]
    ensures k == |Encoded(c, records)| ==> Committed(c, records, k) == |records|
    decreases |records|
  {
    hide Lines, Parsed, Encodes;
    if records == [] {
      TornTail(c, []);
    } else {
      var body, rest := c.encode(records[0]), Encoded(c, records[1..]);
      assert Encodes(c, records[0]);
      NoNewline(c, records[0]);
      var file := body + [NEWLINE] + rest;
      if k <= |body| {
        assert file[..k] == body[..k];
        TornTail(c, body[..k]);
      } else {
        var j := k - |body| - 1;
        assert file[..k] == body + [NEWLINE] + rest[..j];
        ReadOn(c, records[0], rest[..j]);
        CutReadsPrefix(c, records[1..], j);
        assert [records[0]] + records[1..][..Committed(c, records[1..], j)] == records[..Committed(c, records, k)];
      }
    }
  }

  // ----- Appending to a journal that was cut

  /** The bytes behind the last completely written record. */
  function Torn<R>(c: Codec<R>, records: seq<R>, k: nat): seq<Byte> {
    if records == [] then []
    else
      var body := c.encode(records[0]);
      if k <= |body| then body[..k] else Torn(c, records[1..], k - |body| - 1)
  }

  /** What a reader makes of the torn bytes together with the first line appended behind them. */
  function Glued<R>(c: Codec<R>, torn: seq<Byte>, more: seq<R>): Option<R>
    requires more != []
  {
    ReadLine(c, torn + c.encode(more[0]) + [NEWLINE])
  }

  function Listed<R>(r: Option<R>): seq<R> {
    if r.Some? then [r.value] else []
  }

  lemma {:induction false} EncodedRead<R(!new)>(c: Codec<R>, records: seq<R>)
    requires forall i :: 0 <= i < |records| ==> Encodes(c, records[i])
    ensures Parsed(c, Lines(Encoded(c, records))) == records
  {
    var file := Encoded(c, records);
    CutReadsPrefix(c, records, |file|);
    assert file[..|file|] == file && records[..|records|] == records;
  }

  /** Appending behind a torn tail: the tail is glued to the first new line, the other new lines are read as written. */
  lemma {:induction false} ResumedReads<R(!new)>(c: Codec<R>, records: seq<R>, k: nat, more: seq<R>)
    requires forall i :: 0 <= i < |records| ==> Encodes(c, records[i])
    requires forall i :: 0 <= i < |more| ==> Encodes(c, more[i])
    requires k <= |Encoded(c, records)| && more != []
    ensures Parsed(c, Lines(Encoded(c, records)[..k] + Encoded(c, more))) ==
            records[..Committed(c, records, k)] + Listed(Glued(c, Torn(c, records, k), more)) + more[1..]
    decreases |records|
  {
    hide *;
    if records == [] || k <= |c.encode(records[0])| {
      CutInFirst(c, records, k);
      GluedRead(c, Torn(c, records, k), more);
      assert [] + Listed(Glued(c, Torn(c, records, k), more)) == Listed(Glued(c, Torn(c, records, k), more));
    } else {
      var rest, j := records[1..], k - |c.encode(records[0])| - 1;
      CutBehindFirst(c, records, k, Encoded(c, more));
      assert forall i :: 0 <= i < |rest| ==> rest[i] == records[i + 1];
      ResumedReads(c, rest, j, more);
      assert Encodes(c, records[0]);
      ReadOn(c, records[0], Encoded(c, rest)[..j] + Encoded(c, more));
      Associate([records[0]], rest[..Committed(c, rest, j)], Listed(Glued(c, Torn(c, records, k), more)), more[1..]);
    }
  }

  lemma Associate<R>(a: seq<R>, b: seq<R>, x: seq<R>, y: seq<R>)
    ensures a + (b + x + y) == a + b + x + y
  {
  }

  lemma {:induction false} CutInFirst<R(!new)>(c: Codec<R>, records: seq<R>, k: nat)
    requires forall i :: 0 <= i < |records| ==> Encodes(c, records[i])
    requires k <= |Encoded(c, records)| && (records == [] || k <= |c.encode(records[0])|)
    ensures Encoded(c, records)[..k] == Torn(c, records, k) && NEWLINE !in Torn(c, records, k)
    ensures records[..Committed(c, records, k)] == []
  {
    if records != [] {
      NoNewline(c, records[0]);
    }
  }

  lemma CutBehindFirst<R(!new)>(c: Codec<R>, records: seq<R>, k: nat, more: seq<Byte>)
    requires records != [] && |c.encode(records[0])| < k <= |Encoded(c, records)|
    ensures var body, j := c.encode(records[0]), k - |c.encode(records[0])| - 1;
            && j <= |Encoded(c, records[1..])|
            && Encoded(c, records)[..k] + more == body + [NEWLINE] + (Encoded(c, records[1..])[..j] + more)
            && records[..Committed(c, records, k)] == [records[0]] + records[1..][..Committed(c, records[1..], j)]
            && Torn(c, records, k) == Torn(c, records[1..], j)
  {
    var body, rest := c.encode(records[0]), Encoded(c, records[1..]);
    assert Encoded(c, records) == body + [NEWLINE] + rest;
  }

  lemma {:induction false} GluedRead<R(!new)>(c: Codec<R>, torn: seq<Byte>, more: seq<R>)
    requires NEWLINE !in torn && more != []
    requires forall i :: 0 <= i < |more| ==> Encodes(c, more[i])
    ensures Parsed(c, Lines(torn + Encoded(c, more))) == Listed(Glued(c, torn, more)) + more[1..]
  {
    hide Lines, Parsed, ReadLine, Encodes;
    EncodedRead(c, more[1..]);
    var body, rest := torn + c.encode(more[0]), Encoded(c, more[1..]);
    assert torn + Encoded(c, more) == body + [NEWLINE] + rest;
    assert Encodes(c, more[0]);
    NoNewline(c, more[0]);
    LinesFirst(body, rest);
    ParsedFirst(c, body + [NEWLINE], Lines(rest));
  }

  /**
   A resumed journal keeps every appended record exactly when the cut left no torn bytes, or the
   torn bytes and the first new line together happen to decode to that first record.
   */
  lemma {:induction false} ResumeIsLossless<R(!new)>(c: Codec<R>, records: seq<R>, k: nat, more: seq<R>)
    requires forall i :: 0 <= i < |records| ==> Encodes(c, records[i])
    requires forall i :: 0 <= i < |more| ==> Encodes(c, more[i])
    requires k <= |Encoded(c, records)| && more != []
    ensures Parsed(c, Lines(Encoded(c, records)[..k] + Encoded(c, more))) == records[..Committed(c, records, k)] + more <==>
            Torn(c, records, k) == [] || Glued(c, Torn(c, records, k), more) == Some(more[0])
  {
    hide Lines, Parsed, Encoded, Committed, Torn, Encodes;
    var kept, torn := records[..Committed(c, records, k)], Torn(c, records, k);
    ResumedReads(c, records, k, more);
    var glued := Glued(c, torn, more);
    if torn == [] {
      EncodedLineRead(c, more[0]);
      assert torn + c.encode(more[0]) + [NEWLINE] == c.encode(more[0]) + [NEWLINE];
    }
    hide Glued;
    var read := kept + Listed(glued) + more[1..];
    if glued == Some(more[0]) {
      assert read == kept + more;
    } else if glued.None? {
      assert |read| < |kept + more|;
    } else {
      assert read[|kept|] == glued.value && (kept + more)[|kept|] == more[0];
    }
  }

  /** One record, written as the two bytes "{}". */
  function Braces(): Codec<bool> {
    Codec(_ => [123, 125], line => if line == [123, 125, 10] then Some(true) else None)
  }

  /** A journal torn after its first byte loses the first record that is appended to it. */
  lemma TornJournalLosesRecord()
    ensures Encodes(Braces(), true) && Torn(Braces(), [true], 1) == [123]
    ensures Parsed(Braces(), Lines(Encoded(Braces(), [true])[..1] + Encoded(Braces(), [true, true]))) == [true]
  {
    var c := Braces();
    assert c.encode(true) == [123, 125] && c.decode([123, 125, 10]) == Some(true);
    assert c.encode(true) + [NEWLINE] == [123, 125, 10];
    assert !IsSpace(c.encode(true)[0]);
    assert Encodes(c, true);
    var more := [true, true];
    assert Torn(c, [true], 1) == [123];
    assert [123] + c.encode(more[0]) + [NEWLINE] == [123, 123, 125, 10];
    assert Glued(c, [123], more).None?;
    ResumedReads(c, [true], 1, more);
    assert Committed(c, [true], 1) == 0 && Listed<bool>(None) == [];
    hide *;
    assert [true][..0] + [] + more[1..] == [true];
  }
}
