/** gateway/audit/log.py and gateway/audit/verify.py: the hash-chained audit file, its writer with
    the resume path, and the verifier. */
module Audit {
  import opened Common

  /** A JSON object.  Serialising a record and reading it back is taken to be the identity. */
  type Payload = map<string, Json>

  /** A line of the file: white space, text that is not JSON, JSON that is not an object, or an
      object. */
  datatype Line = BlankLine | BadJson | NotObject | Object(payload: Payload)

  const GENESIS := "0000000000000000000000000000000000000000000000000000000000000000"

  type Digest = Payload -> string

  /** The assumption on the record hash: no collisions, and never the genesis value. */
  ghost predicate Collisionless(hash: Digest) {
    && (forall p: Payload, q: Payload {:trigger hash(p), hash(q)} :: hash(p) == hash(q) ==> p == q)
    && (forall p: Payload {:trigger hash(p)} :: hash(p) != GENESIS)
  }

  function Unsigned(p: Payload): Payload {
    p - {"record_hash"}
  }

  /** `payload.get(field)` when it is a string. */
  function TextOf(p: Payload, field: string): Option<string> {
    if field in p && p[field].JString? then Some(p[field].text) else None
  }

  /** A record that links to `previous` and carries its own digest. */
  predicate Links(hash: Digest, p: Payload, previous: string) {
    && TextOf(p, "previous_hash") == Some(previous)
    && TextOf(p, "record_hash") == Some(hash(Unsigned(p)))
  }

  // ----- What a valid file is, without reference to the verifier's loop -----

  /** The records of a file: its lines without the blank ones. */
  function Records(lines: seq<Line>): (records: seq<Line>)
    ensures forall i | 0 <= i < |records| :: !records[i].BlankLine?
  {
    if lines == [] then []
    else Records(lines[..|lines| - 1]) + if lines[|lines| - 1].BlankLine? then [] else [lines[|lines| - 1]]
  }

  /** The digest the last of these records carries; the genesis value before the first. */
  function Head(records: seq<Line>): string {
    if records == [] then GENESIS
    else match records[|records| - 1]
         case Object(p) => (match TextOf(p, "record_hash") case Some(h) => h case None => GENESIS)
         case _ => GENESIS
  }

  /** Every record is an object that carries its own digest and links to its predecessor. */
  predicate Chained(hash: Digest, records: seq<Line>) {
    forall i | 0 <= i < |records| ::
      records[i].Object? && Links(hash, records[i].payload, Head(records[..i]))
  }

  lemma ChainedPrefix(hash: Digest, records: seq<Line>, n: nat)
    requires n <= |records| && Chained(hash, records)
    ensures Chained(hash, records[..n])
  {
    forall i | 0 <= i < n
        ensures records[..n][i].Object? && Links(hash, records[..n][i].payload, Head(records[..n][..i])) {
      assert records[..n][..i] == records[..i];
    }
  }

  lemma ChainedExtend(hash: Digest, records: seq<Line>, last: Line)
    ensures Chained(hash, records + [last])
            <==> Chained(hash, records) && last.Object? && Links(hash, last.payload, Head(records))
  {
    var whole := records + [last];
    assert whole[..|records|] == records;
    if Chained(hash, whole) {
      ChainedPrefix(hash, whole, |records|);
      assert whole[|records|] == last;
    }
    if Chained(hash, records) && last.Object? && Links(hash, last.payload, Head(records)) {
      forall i | 0 <= i < |whole| ensures whole[i].Object? && Links(hash, whole[i].payload, Head(whole[..i])) {
        assert i < |records| ==> whole[..i] == records[..i];
      }
    }
  }

  // ----- verify_audit_file -----

  datatype Fault = InvalidJson | NotAnObject | BrokenLink | MissingHash | Tampered

  datatype Verdict = Valid | Invalid(line: nat, fault: Fault)

  /** The first fault of one record, in the order in which the verifier looks for them. */
  function FaultOf(hash: Digest, line: Line, previous: string): Option<Fault> {
    match line
    case BlankLine => None
    case BadJson => Some(InvalidJson)
    case NotObject => Some(NotAnObject)
    case Object(p) =>
      if TextOf(p, "previous_hash") != Some(previous) then Some(BrokenLink)
      else match TextOf(p, "record_hash")
           case None => Some(MissingHash)
           case Some(stored) => if stored != hash(Unsigned(p)) then Some(Tampered) else None
  }

  /** Walk the file once.  A file that does not exist is valid.  The verdict names the first
      line whose record does not continue the chain of the records before it. */
  method VerifyAuditFile(hash: Digest, file: Option<seq<Line>>) returns (verdict: Verdict)
    ensures verdict.Valid? <==> file.None? || Chained(hash, Records(file.value))
    ensures verdict.Invalid? ==>
              && file.Some? && 1 <= verdict.line <= |file.value|
              && var before := Records(file.value[..verdict.line - 1]);
                 && Chained(hash, before)
                 && FaultOf(hash, file.value[verdict.line - 1], Head(before)) == Some(verdict.fault)
  {
    if file.None? {
      return Valid;
    }
    var lines := file.value;
    var previous := GENESIS;
    assert lines[..0] == [];
    for n := 0 to |lines|
      invariant Chained(hash, Records(lines[..n]))
      invariant previous == Head(Records(lines[..n]))
    {
      LineContinues(hash, lines, n);
      hide Chained, Head, Records, Links;
      var line := lines[n];
      if line.BlankLine? {
        continue;
      }
      if line.BadJson? {
        return Invalid(n + 1, InvalidJson);
      }
      if line.NotObject? {
        return Invalid(n + 1, NotAnObject);
      }
      var payload := line.payload;
      if TextOf(payload, "previous_hash") != Some(previous) {
        return Invalid(n + 1, BrokenLink);
      }
      var stored := TextOf(payload, "record_hash");
      if stored == None {
        return Invalid(n + 1, MissingHash);
      }
      var unsigned := payload - {"record_hash"};
      if stored.value != hash(unsigned) {
        return Invalid(n + 1, Tampered);
      }
      previous := stored.value;
    }
    assert lines[..|lines|] == lines;
    verdict := Valid;
  }

  /** Every fault, by what the line holds and the digest expected of it. */
  lemma FaultExactly(hash: Digest, line: Line, previous: string)
    ensures var fault := FaultOf(hash, line, previous);
            match line
            case BlankLine => fault == None
            case BadJson => fault == Some(InvalidJson)
            case NotObject => fault == Some(NotAnObject)
            case Object(p) =>
              var linked := "previous_hash" in p && p["previous_hash"] == JString(previous);
              var stored := "record_hash" in p && p["record_hash"].JString?;
              && (fault == Some(BrokenLink) <==> !linked)
              && (fault == Some(MissingHash) <==> linked && !stored)
              && (fault == Some(Tampered) <==> linked && stored && p["record_hash"].text != hash(p - {"record_hash"}))
              && (fault == None <==> linked && stored && p["record_hash"].text == hash(p - {"record_hash"}))
  {
  }

  /** A line without a fault continues the chain before it; a faulty one spoils the file. */
  lemma LineContinues(hash: Digest, lines: seq<Line>, n: nat)
    requires n < |lines| && Chained(hash, Records(lines[..n]))
    ensures var before, after := Records(lines[..n]), Records(lines[..n + 1]);
            match FaultOf(hash, lines[n], Head(before))
            case None =>
              && Chained(hash, after)
              && (lines[n].BlankLine? ==> after == before)
              && (lines[n].Object? ==> Some(Head(after)) == TextOf(lines[n].payload, "record_hash"))
            case Some(_) => !Chained(hash, Records(lines))
  {
    hide Chained, Records;
    if lines[n].BlankLine? {
      RecordsSkip(lines, n);
    } else {
      RecordsSplit(lines, n);
      ChainedExtend(hash, Records(lines[..n]), lines[n]);
      ChainedAtMost(hash, lines, n + 1);
    }
  }

  lemma RecordsSkip(lines: seq<Line>, n: nat)
    requires n < |lines| && lines[n].BlankLine?
    ensures Records(lines[..n + 1]) == Records(lines[..n])
  {
    assert lines[..n + 1][..n] == lines[..n];
  }

  lemma RecordsSplit(lines: seq<Line>, n: nat)
    requires n < |lines| && !lines[n].BlankLine?
    ensures Records(lines[..n + 1]) == Records(lines[..n]) + [lines[n]]
  {
    assert lines[..n + 1][..n] == lines[..n];
  }

  lemma {:induction false} RecordsConcat(first: seq<Line>, rest: seq<Line>)
    ensures Records(first + rest) == Records(first) + Records(rest)
  {
    if rest == [] {
      assert first + rest == first;
    } else {
      var whole := first + rest;
      assert whole[..|whole| - 1] == first + rest[..|rest| - 1];
      RecordsConcat(first, rest[..|rest| - 1]);
    }
  }

  /** A file whose first lines are not a chain is not one as a whole. */
  lemma ChainedAtMost(hash: Digest, lines: seq<Line>, n: nat)
    requires n <= |lines|
    ensures Chained(hash, Records(lines)) ==> Chained(hash, Records(lines[..n]))
  {
    hide Chained, Records;
    assert lines == lines[..n] + lines[n..];
    RecordsConcat(lines[..n], lines[n..]);
    if Chained(hash, Records(lines)) {
      ChainedPrefix(hash, Records(lines), |Records(lines[..n])|);
      assert Records(lines)[..|Records(lines[..n])|] == Records(lines[..n]);
    }
  }

  /** Every prefix of a verifying file verifies: truncation is the one edit that keeps a chain
      valid, and it changes the head. */
  lemma PrefixVerifies(hash: Digest, lines: seq<Line>, n: nat)
    requires n <= |lines| && Chained(hash, Records(lines))
    ensures Chained(hash, Records(lines[..n]))
  {
    ChainedAtMost(hash, lines, n);
  }

  // ----- The head commits to the whole history -----

  lemma SamePayload(hash: Digest, p: Payload, q: Payload)
    requires Collisionless(hash)
    requires TextOf(p, "record_hash") == Some(hash(Unsigned(p)))
    requires TextOf(q, "record_hash") == Some(hash(Unsigned(q)))
    requires TextOf(p, "record_hash") == TextOf(q, "record_hash")
    ensures p == q
  {
    assert Unsigned(p) == Unsigned(q);
    assert p == Unsigned(p)["record_hash" := JString(hash(Unsigned(p)))];
    assert q == Unsigned(q)["record_hash" := JString(hash(Unsigned(q)))];
  }

  /** Two non-empty chains with the same head end in the same record and agree before it. */
  lemma SameLastRecord(hash: Digest, a: seq<Line>, b: seq<Line>)
    requires Collisionless(hash) && Chained(hash, a) && Chained(hash, b)
    requires a != [] && b != [] && Head(a) == Head(b)
    ensures a[|a| - 1] == b[|b| - 1]
    ensures Head(a[..|a| - 1]) == Head(b[..|b| - 1])
  {
    var m, n := |a| - 1, |b| - 1;
    assert Links(hash, a[m].payload, Head(a[..m])) && Links(hash, b[n].payload, Head(b[..n]));
    SamePayload(hash, a[m].payload, b[n].payload);
  }

  /** With a collision-free hash, two chains with the same head hold the same records. */
  lemma {:induction false} HeadCommitsToHistory(hash: Digest, a: seq<Line>, b: seq<Line>)
    requires Collisionless(hash) && Chained(hash, a) && Chained(hash, b)
    requires Head(a) == Head(b)
    ensures a == b
    decreases |a|
  {
    hide Chained, Collisionless;
    if a == [] {
      if b != [] { HeadIsDigest(hash, b); }
    } else if b == [] {
      HeadIsDigest(hash, a);
    } else {
      var m, n := |a| - 1, |b| - 1;
      SameLastRecord(hash, a, b);
      ChainedPrefix(hash, a, m);
      ChainedPrefix(hash, b, n);
      HeadCommitsToHistory(hash, a[..m], b[..n]);
      assert a == a[..m] + [a[m]] && b == b[..n] + [b[n]];
    }
  }

  lemma HeadIsDigest(hash: Digest, records: seq<Line>)
    requires Collisionless(hash) && Chained(hash, records) && records != []
    ensures Head(records) != GENESIS
    ensures var last := records[|records| - 1]; last.Object? && Head(records) == hash(Unsigned(last.payload))
  {
    assert Links(hash, records[|records| - 1].payload, Head(records[..|records| - 1]));
  }

  /** Any edit, insertion, deletion or reordering of records that keeps the head is rejected. */
  lemma TamperingIsRejected(hash: Digest, original: seq<Line>, edited: seq<Line>)
    requires Collisionless(hash) && Chained(hash, Records(original))
    requires Records(edited) != Records(original) && Head(Records(edited)) == Head(Records(original))
    ensures !Chained(hash, Records(edited))
  {
    if Chained(hash, Records(edited)) {
      HeadCommitsToHistory(hash, Records(original), Records(edited));
    }
  }

  // ----- AuditLogger -----

  /** The line appended for these fields after a record with this digest. */
  function Signed(hash: Digest, fields: Payload, last: string): Payload {
    var unsigned := (fields - {"record_hash"})["previous_hash" := JString(last)];
    unsigned["record_hash" := JString(hash(unsigned))]
  }

  /** The payload is these fields with the two digests: nothing is dropped, added or changed. */
  predicate Carries(p: Payload, fields: Payload, last: string) {
    && p.Keys == fields.Keys + {"previous_hash", "record_hash"}
    && (forall k | k in fields && k != "previous_hash" && k != "record_hash" :: p[k] == fields[k])
    && p["previous_hash"] == JString(last)
  }

  lemma SignedCarries(hash: Digest, fields: Payload, last: string)
    ensures Carries(Signed(hash, fields, last), fields, last)
  {
  }

  lemma SignedLinks(hash: Digest, fields: Payload, last: string)
    ensures Links(hash, Signed(hash, fields, last), last)
  {
    var unsigned := (fields - {"record_hash"})["previous_hash" := JString(last)];
    assert Unsigned(Signed(hash, fields, last)) == unsigned;
  }

  /** Appending keeps a file valid exactly when the file was valid and the writer's last digest
      is the file's head: a second writer on the same file, or one whose file was changed under
      it, breaks the chain with its next record. */
  lemma AppendKeepsChain(hash: Digest, lines: seq<Line>, fields: Payload, last: string)
    ensures Chained(hash, Records(lines + [Object(Signed(hash, fields, last))]))
            <==> Chained(hash, Records(lines)) && last == Head(Records(lines))
    ensures Head(Records(lines + [Object(Signed(hash, fields, last))]))
            == hash(Unsigned(Signed(hash, fields, last)))
  {
    hide Chained, Records;
    var record := Object(Signed(hash, fields, last));
    var whole := lines + [record];
    assert whole[..|lines|] == lines && whole[|lines|] == record;
    RecordsSplit(whole, |lines|);
    assert whole[..|lines| + 1] == whole;
    SignedLinks(hash, fields, last);
    ChainedExtend(hash, Records(lines), record);
  }

  class AuditFile {
    var lines: Option<seq<Line>>

    constructor (lines: Option<seq<Line>>)
      ensures this.lines == lines
    {
      this.lines := lines;
    }

    /** The file's lines; none while it does not exist. */
    function Lines(): seq<Line>
      reads this
    {
      if lines.Some? then lines.value else []
    }
  }

  /** The last line that is not blank; a blank one when there is none. */
  function LastLine(lines: seq<Line>): Line {
    if Records(lines) == [] then BlankLine else Records(lines)[|Records(lines)| - 1]
  }

  /** The resume path fails on a last line that is not a JSON object, and falls back to the
      genesis value when that object carries no digest. */
  function Resumed(lines: seq<Line>): Option<string> {
    match LastLine(lines)
    case BlankLine => Some(GENESIS)
    case Object(p) => (match TextOf(p, "record_hash") case Some(h) => Some(h) case None => Some(GENESIS))
    case _ => None
  }

  method ReadLastHash(file: AuditFile) returns (last: Option<string>)
    ensures last == Resumed(file.Lines())
    ensures last.Some? ==> last.value == Head(Records(file.Lines()))
  {
    if file.lines == None {
      return Some(GENESIS);
    }
    var lines := file.lines.value;
    var lastLine := BlankLine;
    for n := 0 to |lines|
      invariant lastLine == LastLine(lines[..n])
    {
      assert lines[..n + 1][..n] == lines[..n];
      if !lines[n].BlankLine? {
        lastLine := lines[n];
      }
    }
    assert lines[..|lines|] == lines;
    if lastLine.BlankLine? {
      return Some(GENESIS);
    }
    if !lastLine.Object? {
      return None;
    }
    var value := TextOf(lastLine.payload, "record_hash");
    last := Some(if value.Some? then value.value else GENESIS);
  }

  class AuditLogger {
    const hash: Digest
    const file: AuditFile
    var lastHash: string

    /** `last` is what `ReadLastHash` returned for the file; a file it fails on yields no logger. */
    constructor (hash: Digest, file: AuditFile, last: string)
      requires Resumed(file.Lines()) == Some(last)
      ensures this.hash == hash && this.file == file && lastHash == last
      ensures lastHash == Head(Records(file.Lines()))
    {
      this.hash := hash;
      this.file := file;
      lastHash := last;
    }

    /** Raises after the line is written when it cannot be synchronised to disk: the record is in
        the file, and the logger still holds the digest before it. */
    method Append(fields: Payload, synced: bool) returns (record: Option<Payload>)
      modifies this, file
      ensures file.Lines() == old(file.Lines()) + [Object(Signed(hash, fields, old(lastHash)))]
      ensures record == if synced then Some(Signed(hash, fields, old(lastHash))) else None
      ensures var line := file.Lines()[|file.Lines()| - 1];
              && line.Object?
              && line.payload.Keys == fields.Keys + {"previous_hash", "record_hash"}
              && (forall k | k in fields && k != "previous_hash" && k != "record_hash" :: line.payload[k] == fields[k])
              && line.payload["previous_hash"] == JString(old(lastHash))
      ensures lastHash == if synced then Head(Records(file.Lines())) else old(lastHash)
      ensures Chained(hash, Records(file.Lines()))
              <==> Chained(hash, Records(old(file.Lines()))) && old(lastHash) == Head(Records(old(file.Lines())))
    {
      var unsigned := (fields - {"record_hash"})["previous_hash" := JString(lastHash)];
      var digest := hash(unsigned);
      var signed := unsigned["record_hash" := JString(digest)];
      assert Unsigned(signed) == unsigned;
      AppendKeepsChain(hash, file.Lines(), fields, lastHash);
      SignedCarries(hash, fields, lastHash);
      file.lines := Some((if file.lines.Some? then file.lines.value else []) + [Object(signed)]);
      if !synced {
        return None;
      }
      lastHash := digest;
      record := Some(signed);
    }
  }

  // ----- Any number of restarts -----

  /** One append; it raises after writing its line when the line cannot be synchronised. */
  datatype Write = Write(fields: Payload, synced: bool)

  /** One life of the service: blank lines that appeared in the file, then a logger that resumes
      and makes these appends. */
  datatype Session = Session(blanks: nat, writes: seq<Write>)

  function Blanks(n: nat): seq<Line> {
    seq(n, _ => BlankLine)
  }

  function AppendAll(hash: Digest, lines: seq<Line>, last: string, writes: seq<Write>): seq<Line>
    decreases |writes|
  {
    if writes == [] then lines
    else var record := Signed(hash, writes[0].fields, last);
         AppendAll(hash, lines + [Object(record)], if writes[0].synced then hash(Unsigned(record)) else last,
                   writes[1..])
  }

  /** The file after the sessions; `None` if a logger could not resume. */
  function FileAfter(hash: Digest, sessions: seq<Session>): Option<seq<Line>> {
    if sessions == [] then Some([])
    else match FileAfter(hash, sessions[..|sessions| - 1])
         case None => None
         case Some(before) =>
           var s := sessions[|sessions| - 1];
           var lines := before + Blanks(s.blanks);
           match Resumed(lines)
           case None => None
           case Some(last) => Some(AppendAll(hash, lines, last, s.writes))
  }

  function CountWrites(sessions: seq<Session>): nat {
    if sessions == [] then 0
    else CountWrites(sessions[..|sessions| - 1]) + |sessions[|sessions| - 1].writes|
  }

  /** All appends of all sessions, in order. */
  function AllWrites(sessions: seq<Session>): seq<Write> {
    if sessions == [] then [] else AllWrites(sessions[..|sessions| - 1]) + sessions[|sessions| - 1].writes
  }

  /** The records are the written fields, in order, each with its two digests. */
  predicate Holds(records: seq<Line>, writes: seq<Write>) {
    && |records| == |writes|
    && forall i | 0 <= i < |records| ::
         && records[i].Object?
         && records[i].payload.Keys == writes[i].fields.Keys + {"previous_hash", "record_hash"}
         && forall k | k in writes[i].fields && k != "previous_hash" && k != "record_hash" ::
              records[i].payload[k] == writes[i].fields[k]
  }

  lemma HoldsMore(hash: Digest, records: seq<Line>, writes: seq<Write>, w: Write, last: string)
    requires Holds(records, writes)
    ensures Holds(records + [Object(Signed(hash, w.fields, last))], writes + [w])
  {
    SignedCarries(hash, w.fields, last);
    hide Signed;
  }

  lemma {:induction false} AppendAllHolds(hash: Digest, lines: seq<Line>, last: string, before: seq<Write>,
                                          writes: seq<Write>)
    requires Holds(Records(lines), before)
    ensures Holds(Records(AppendAll(hash, lines, last, writes)), before + writes)
    decreases |writes|
  {
    hide Holds, Signed, Records, Unsigned;
    if writes == [] {
      assert before + writes == before;
    } else {
      var record := Signed(hash, writes[0].fields, last);
      var next := lines + [Object(record)];
      assert next[..|lines|] == lines && next[..|lines| + 1] == next;
      RecordsSplit(next, |lines|);
      HoldsMore(hash, Records(lines), before, writes[0], last);
      var next' := if writes[0].synced then hash(Unsigned(record)) else last;
      AppendAllHolds(hash, next, next', before + [writes[0]], writes[1..]);
      assert before + [writes[0]] + writes[1..] == before + writes;
    }
  }

  /** After any restarts, the file's records are everything that was appended, in order. */
  lemma {:induction false} FileHoldsWrites(hash: Digest, sessions: seq<Session>)
    ensures FileAfter(hash, sessions).Some?
    ensures Holds(Records(FileAfter(hash, sessions).value), AllWrites(sessions))
  {
    RestartsResume(hash, sessions);
    if sessions != [] {
      var earlier, s := sessions[..|sessions| - 1], sessions[|sessions| - 1];
      FileHoldsWrites(hash, earlier);
      RestartsResume(hash, earlier);
      var before := FileAfter(hash, earlier).value;
      var lines := before + Blanks(s.blanks);
      BlanksAreNoRecords(before, s.blanks);
      ResumeFindsHead(lines);
      AppendAllHolds(hash, lines, Head(Records(lines)), AllWrites(earlier), s.writes);
      hide Records, Holds, AppendAll, Resumed, AllObjects, Blanks, Head;
    }
  }

  /** Nothing is appended after a line that could not be synchronised. */
  predicate Steady(writes: seq<Write>) {
    forall i | 0 <= i < |writes| - 1 :: writes[i].synced
  }

  lemma {:induction false} BlanksAreNoRecords(lines: seq<Line>, n: nat)
    ensures Records(lines + Blanks(n)) == Records(lines)
  {
    if n == 0 {
      assert lines + Blanks(0) == lines;
    } else {
      BlanksAreNoRecords(lines, n - 1);
      var whole := lines + Blanks(n);
      assert whole[..|whole| - 1] == lines + Blanks(n - 1);
    }
  }

  /** A record changes the head of a chain. */
  lemma HeadMoves(hash: Digest, lines: seq<Line>, fields: Payload, last: string)
    requires Collisionless(hash) && Chained(hash, Records(lines + [Object(Signed(hash, fields, last))]))
    ensures last == Head(Records(lines))
    ensures Head(Records(lines + [Object(Signed(hash, fields, last))])) != last
  {
    hide Chained, Records, Collisionless;
    var next := lines + [Object(Signed(hash, fields, last))];
    AppendKeepsChain(hash, lines, fields, last);
    assert next[..|lines|] == lines && next[..|lines| + 1] == next;
    RecordsSplit(next, |lines|);
    if Head(Records(next)) == last {
      HeadCommitsToHistory(hash, Records(lines), Records(next));
    }
  }

  /** The appends of one logger leave a valid file exactly when it was valid, the logger started
      from its head, and nothing follows an append that raised. */
  lemma {:induction false} AppendAllKeepsChain(hash: Digest, lines: seq<Line>, last: string, writes: seq<Write>)
    requires Collisionless(hash)
    ensures Chained(hash, Records(AppendAll(hash, lines, last, writes)))
            <==> Chained(hash, Records(lines)) && (writes == [] || last == Head(Records(lines))) && Steady(writes)
    decreases |writes|
  {
    hide Chained, Records, Collisionless, Signed, Head;
    if writes != [] {
      var record, rest := Signed(hash, writes[0].fields, last), writes[1..];
      var next := lines + [Object(record)];
      AppendKeepsChain(hash, lines, writes[0].fields, last);
      AppendAllKeepsChain(hash, next, if writes[0].synced then hash(Unsigned(record)) else last, rest);
      if Chained(hash, Records(next)) {
        HeadMoves(hash, lines, writes[0].fields, last);
      }
      assert Steady(writes) <==> (rest == [] || writes[0].synced) && Steady(rest) by {
        assert forall i | 1 <= i < |writes| :: writes[i] == rest[i - 1];
      }
    }
  }

  predicate AllObjects(records: seq<Line>) {
    forall i | 0 <= i < |records| :: records[i].Object?
  }

  lemma {:induction false} AppendAllCounts(hash: Digest, lines: seq<Line>, last: string, writes: seq<Write>)
    requires AllObjects(Records(lines))
    ensures var after := Records(AppendAll(hash, lines, last, writes));
            AllObjects(after) && |after| == |Records(lines)| + |writes|
    decreases |writes|
  {
    if writes != [] {
      var record := Signed(hash, writes[0].fields, last);
      var next := lines + [Object(record)];
      assert next[..|lines|] == lines;
      AppendAllCounts(hash, next, if writes[0].synced then hash(Unsigned(record)) else last, writes[1..]);
    }
  }

  lemma ResumeFindsHead(lines: seq<Line>)
    requires AllObjects(Records(lines))
    ensures Resumed(lines) == Some(Head(Records(lines)))
  {
  }

  /** Every append leaves one record and every restart can resume, whatever raised before. */
  lemma {:induction false} RestartsResume(hash: Digest, sessions: seq<Session>)
    ensures var file := FileAfter(hash, sessions);
            file.Some? && AllObjects(Records(file.value)) && |Records(file.value)| == CountWrites(sessions)
  {
    if sessions != [] {
      RestartsResume(hash, sessions[..|sessions| - 1]);
      var s, before := sessions[|sessions| - 1], FileAfter(hash, sessions[..|sessions| - 1]).value;
      BlanksAreNoRecords(before, s.blanks);
      ResumeFindsHead(before + Blanks(s.blanks));
      AppendAllCounts(hash, before + Blanks(s.blanks), Head(Records(before)), s.writes);
    }
  }

  lemma SessionKeepsChain(hash: Digest, before: seq<Line>, s: Session)
    requires Collisionless(hash) && AllObjects(Records(before))
    ensures var lines := before + Blanks(s.blanks);
            && Resumed(lines).Some?
            && (Chained(hash, Records(AppendAll(hash, lines, Resumed(lines).value, s.writes)))
                <==> Chained(hash, Records(before)) && Steady(s.writes))
  {
    var lines := before + Blanks(s.blanks);
    BlanksAreNoRecords(before, s.blanks);
    ResumeFindsHead(lines);
    AppendAllKeepsChain(hash, lines, Head(Records(lines)), s.writes);
    hide Chained, Records, Collisionless, Steady, Head, AppendAll, AllObjects, Resumed;
  }

  /** Any appends, split over any number of restarts, leave a file that verifies if and only if
      no logger appended again after an append that raised. */
  lemma {:induction false} RestartsKeepChain(hash: Digest, sessions: seq<Session>)
    requires Collisionless(hash)
    ensures FileAfter(hash, sessions).Some?
    ensures Chained(hash, Records(FileAfter(hash, sessions).value))
            <==> forall i | 0 <= i < |sessions| :: Steady(sessions[i].writes)
  {
    hide Chained, Records, Collisionless, Steady, AppendAll, Resumed, AllObjects, Blanks;
    RestartsResume(hash, sessions);
    if sessions == [] {
      EmptyIsChained(hash);
    } else {
      var earlier, s := sessions[..|sessions| - 1], sessions[|sessions| - 1];
      RestartsKeepChain(hash, earlier);
      RestartsResume(hash, earlier);
      SessionKeepsChain(hash, FileAfter(hash, earlier).value, s);
      assert forall i | 0 <= i < |earlier| :: sessions[i] == earlier[i];
    }
  }

  lemma EmptyIsChained(hash: Digest)
    ensures Chained(hash, Records([]))
  {
  }

  /** Two loggers opened on the same file: once the first has appended, the second's next record
      makes the file invalid. */
  lemma SecondWriterBreaksChain(hash: Digest, lines: seq<Line>, first: Payload, second: Payload)
    requires Collisionless(hash) && Chained(hash, Records(lines))
    ensures var last := Head(Records(lines));
            var both := lines + [Object(Signed(hash, first, last))] + [Object(Signed(hash, second, last))];
            !Chained(hash, Records(both))
  {
    hide Chained, Records, Collisionless;
    var last := Head(Records(lines));
    var one := lines + [Object(Signed(hash, first, last))];
    AppendKeepsChain(hash, lines, first, last);
    AppendKeepsChain(hash, one, second, last);
    assert one[..|lines|] == lines && one[..|lines| + 1] == one;
    RecordsSplit(one, |lines|);
    if Head(Records(one)) == last {
      HeadCommitsToHistory(hash, Records(lines), Records(one));
    }
  }
}
