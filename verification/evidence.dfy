// DeliveryDispatch's evidence file and the check that a delivery went through given statuses.
module Evidence {
  import opened Wrappers
  import opened Strings

  datatype Record = Record(deliveryId: string, status: string, courierId: Option<string>)

  function Line(r: Record): string {
    r.deliveryId + ":" + r.status + ":" + (if r.courierId.Some? then r.courierId.value else "none")
  }

  /** std::getline until the end of the file, without empty lines. */
  function Lines(file: string): seq<string>
    decreases |file|
  {
    if file == "" then []
    else
      var k := Find(file, '\n');
      (if k == 0 then [] else [file[..k]]) + (if k == |file| then [] else Lines(file[k + 1..]))
  }

  predicate StartsWith(line: string, prefix: string) {
    prefix <= line
  }

  /** The text between the delivery id's colon and the next colon. */
  function StatusIn(line: string, prefix: string): string
    requires StartsWith(line, prefix)
  {
    var rest := line[|prefix|..];
    rest[..Find(rest, ':')]
  }

  function Statuses(lines: seq<string>, prefix: string): seq<string> {
    if lines == [] then []
    else (if StartsWith(lines[0], prefix) then [StatusIn(lines[0], prefix)] else []) + Statuses(lines[1..], prefix)
  }

  /** How many expected statuses greedy matching has found after reading all of actual. */
  function Cursor(actual: seq<string>, expected: seq<string>, from: nat): (cursor: nat)
    requires from <= |expected|
    ensures from <= cursor <= |expected|
  {
    if actual == [] then from
    else Cursor(actual[1..], expected, if from < |expected| && actual[0] == expected[from] then from + 1 else from)
  }

  /** What has_sequence answers on the contents of a file. */
  predicate Matches(file: string, deliveryId: string, expected: seq<string>) {
    Cursor(Statuses(Lines(file), deliveryId + ":"), expected, 0) == |expected|
  }

  lemma {:induction false} LinesStep(file: string)
    ensures Lines(file) ==
            if file == "" then []
            else
              var k := Find(file, '\n');
              (if k == 0 then [] else [file[..k]]) + Lines(if k == |file| then "" else file[k + 1..])
  {
    hide Find;
  }

  lemma NoLines()
    ensures Lines("") == []
  {
  }

  /** The first line of what is left, and what is left after it. */
  lemma OneMoreLine(lines: seq<string>, rest: string)
    requires rest != ""
    ensures var k := Find(rest, '\n');
            lines + Lines(rest)
            == (if k == 0 then lines else lines + [rest[..k]]) + Lines(if k == |rest| then "" else rest[k + 1..])
  {
    hide Lines, Find;
    LinesStep(rest);
    var k := Find(rest, '\n');
    var tail := Lines(if k == |rest| then "" else rest[k + 1..]);
    assert lines + ([rest[..k]] + tail) == (lines + [rest[..k]]) + tail;
    assert [] + tail == tail;
  }

  class EvidenceStore {
    var file: string
    ghost var records: seq<Record>

    /** The file holds exactly the records appended so far. */
    ghost predicate Valid()
      reads this
    {
      file == FileOf(records)
    }

    constructor ()
      ensures Valid() && records == []
    {
      file, records := "", [];
    }

    method Append(r: Record)
      requires Valid()
      modifies this
      ensures Valid() && records == old(records) + [r]
    {
      FileGrows(records, r);
      records := records + [r];
      file := file + r.deliveryId + ":" + r.status + ":" + (if r.courierId.Some? then r.courierId.value else "none")
          + "\n";
    }

    method ReadLines() returns (lines: seq<string>)
      ensures lines == Lines(file)
    {
      hide Lines, Find;
      NoLines();
      lines := [];
      var rest := file;
      while rest != ""
        invariant lines + Lines(rest) == Lines(file)
        decreases |rest|
      {
        OneMoreLine(lines, rest);
        var k := Find(rest, '\n');
        var line := rest[..k];
        rest := if k == |rest| then "" else rest[k + 1..];
        if line != "" {
          lines := lines + [line];
        }
      }
      assert lines + [] == lines;
    }

    method HasSequence(deliveryId: string, expected: seq<string>) returns (found: bool)
      ensures found == Matches(file, deliveryId, expected)
      ensures Valid() && WellFormed(records) && !Confused(records, deliveryId) ==>
                (found <==> IsSubsequence(expected, StatusesOf(records, deliveryId)))
    {
      if WellFormed(records) && !Confused(records, deliveryId) {
        HasSequenceMeans(records, deliveryId, expected);
      }
      var lines := ReadLines();
      var cursor := 0;
      var prefix := deliveryId + ":";
      for i := 0 to |lines|
        invariant cursor <= |expected|
        invariant Cursor(Statuses(lines[i..], prefix), expected, cursor)
               == Cursor(Statuses(lines, prefix), expected, 0)
      {
        assert lines[i..][1..] == lines[i + 1..] && lines[i..][0] == lines[i];
        ghost var rest := Statuses(lines[i + 1..], prefix);
        if StartsWith(lines[i], prefix) {
          assert Statuses(lines[i..], prefix)[1..] == rest;
        } else {
          assert Statuses(lines[i..], prefix) == rest;
        }
        if !StartsWith(lines[i], prefix) || cursor >= |expected| {
          if StartsWith(lines[i], prefix) { CursorAtEnd(rest, expected); }
          continue;
        }
        var status := StatusIn(lines[i], prefix);
        if status == expected[cursor] {
          cursor := cursor + 1;
        }
      }
      found := cursor == |expected|;
    }
  }

  lemma {:induction false} CursorAtEnd(actual: seq<string>, expected: seq<string>)
    ensures Cursor(actual, expected, |expected|) == |expected|
  {
    if actual != [] {
      CursorAtEnd(actual[1..], expected);
    }
  }

  // ---- Greedy matching is complete -----------------------------------------------------

  /** at picks increasing positions of actual that spell expected. */
  ghost predicate Embeds(at: seq<nat>, expected: seq<string>, actual: seq<string>) {
    && |at| == |expected|
    && (forall i, j | 0 <= i < j < |at| :: at[i] < at[j])
    && (forall i | 0 <= i < |at| :: at[i] < |actual| && actual[at[i]] == expected[i])
  }

  ghost predicate IsSubsequence(expected: seq<string>, actual: seq<string>) {
    exists at :: Embeds(at, expected, actual)
  }

  function Shifted(at: seq<nat>): (r: seq<nat>)
    ensures |r| == |at|
  {
    seq(|at|, i requires 0 <= i < |at| => at[i] + 1)
  }

  lemma EmbedsLater(at: seq<nat>, expected: seq<string>, actual: seq<string>)
    requires actual != [] && Embeds(at, expected, actual[1..])
    ensures Embeds(Shifted(at), expected, actual)
  {
    assert forall i | 0 <= i < |at| :: actual[at[i] + 1] == actual[1..][at[i]];
  }

  lemma EmbedsFirst(at: seq<nat>, expected: seq<string>, actual: seq<string>)
    requires actual != [] && expected != [] && actual[0] == expected[0] && Embeds(at, expected[1..], actual)
    requires forall i | 0 <= i < |at| :: at[i] > 0
    ensures Embeds([0] + at, expected, actual)
  {
    assert forall i | 0 < i < |expected| :: expected[i] == expected[1..][i - 1];
  }

  lemma {:induction false} GreedyIsSound(actual: seq<string>, expected: seq<string>, from: nat) returns (at: seq<nat>)
    requires from <= |expected| && Cursor(actual, expected, from) == |expected|
    ensures Embeds(at, expected[from..], actual)
  {
    hide Embeds;
    if actual == [] {
      at := [];
      EmbedsNothing(actual);
      assert expected[from..] == [];
    } else if from < |expected| && actual[0] == expected[from] {
      var tail := GreedyIsSound(actual[1..], expected, from + 1);
      EmbedsLater(tail, expected[from + 1..], actual);
      assert expected[from..][1..] == expected[from + 1..];
      EmbedsFirst(Shifted(tail), expected[from..], actual);
      at := [0] + Shifted(tail);
    } else {
      var tail := GreedyIsSound(actual[1..], expected, from);
      EmbedsLater(tail, expected[from..], actual);
      at := Shifted(tail);
    }
  }

  lemma EmbedsNothing(actual: seq<string>)
    ensures Embeds([], [], actual)
  {
  }

  lemma {:induction false} GreedyIsComplete(actual: seq<string>, expected: seq<string>, from: nat, at: seq<nat>)
    requires from <= |expected| && Embeds(at, expected[from..], actual)
    ensures Cursor(actual, expected, from) == |expected|
  {
    if actual != [] {
      if from < |expected| && actual[0] == expected[from] {
        // Taking the first match is never worse: the embedding's own first position is no earlier.
        var tail := seq(|at| - 1, i requires 0 <= i < |at| - 1 => (at[i + 1] - 1) as nat);
        assert expected[from..][1..] == expected[from + 1..];
        GreedyIsComplete(actual[1..], expected, from + 1, tail);
      } else {
        if |at| > 0 { assert expected[from..][0] == expected[from] && at[0] != 0; }
        var shifted := seq(|at|, i requires 0 <= i < |at| => (at[i] - 1) as nat);
        GreedyIsComplete(actual[1..], expected, from, shifted);
      }
    }
  }

  /** The cursor reaches the end exactly when expected is a subsequence of actual. */
  lemma GreedyMatchesExactly(actual: seq<string>, expected: seq<string>)
    ensures Cursor(actual, expected, 0) == |expected| <==> IsSubsequence(expected, actual)
  {
    assert expected[0..] == expected;
    if Cursor(actual, expected, 0) == |expected| {
      var at := GreedyIsSound(actual, expected, 0);
    }
    if at :| Embeds(at, expected, actual) {
      GreedyIsComplete(actual, expected, 0, at);
    }
  }

  // ---- What the file records -----------------------------------------------------------

  function FileOf(records: seq<Record>): string {
    if records == [] then "" else Line(records[0]) + "\n" + FileOf(records[1..])
  }

  /** The delivery's own recorded statuses, in order. */
  function StatusesOf(records: seq<Record>, deliveryId: string): seq<string> {
    if records == [] then []
    else (if records[0].deliveryId == deliveryId then [records[0].status] else [])
         + StatusesOf(records[1..], deliveryId)
  }

  /** A record whose line is one line and whose status ends at the next colon. Ids may hold colons. */
  ghost predicate RecordOk(r: Record) {
    && '\n' !in r.deliveryId && '\n' !in r.status && (r.courierId.Some? ==> '\n' !in r.courierId.value)
    && ':' !in r.status
  }

  ghost predicate WellFormed(records: seq<Record>) {
    forall i | 0 <= i < |records| :: RecordOk(records[i])
  }

  /** The line of another delivery begins like a line of this one. */
  ghost predicate Confused(records: seq<Record>, deliveryId: string) {
    exists i | 0 <= i < |records| :: Confuses(records[i], deliveryId)
  }

  predicate Confuses(r: Record, deliveryId: string) {
    r.deliveryId != deliveryId && StartsWith(Line(r), deliveryId + ":")
  }

  /** The status of any line is what stands between the prefix and the next colon, or the line's end. */
  lemma StatusEndsAtColon(prefix: string, status: string, tail: string)
    requires ':' !in status && (tail == "" || tail[0] == ':')
    ensures StartsWith(prefix + (status + tail), prefix) && StatusIn(prefix + (status + tail), prefix) == status
  {
    assert (prefix + (status + tail))[|prefix|..] == status + tail;
    FindSkips(status, tail, ':');
  }

  /** The line of a delivery begins with its id and holds its status up to the next colon. */
  lemma OwnLine(r: Record)
    requires RecordOk(r)
    ensures StartsWith(Line(r), r.deliveryId + ":") && StatusIn(Line(r), r.deliveryId + ":") == r.status
  {
    var prefix := r.deliveryId + ":";
    var tail := ":" + (if r.courierId.Some? then r.courierId.value else "none");
    assert Line(r) == prefix + (r.status + tail);
    StatusEndsAtColon(prefix, r.status, tail);
  }

  lemma LineIsOneLine(r: Record)
    requires RecordOk(r)
    ensures '\n' !in Line(r)
  {
    var courier := if r.courierId.Some? then r.courierId.value else "none";
    assert '\n' !in courier;
    assert Line(r) == (r.deliveryId + ":" + r.status) + (":" + courier);
  }

  /** A record's line names its delivery, its status and its courier, or none. */
  lemma LineNames(d: string, status: string, courier: string)
    ensures Line(Record(d, status, Some(courier))) == d + (":" + (status + (":" + courier)))
    ensures Line(Record(d, status, None)) == d + (":" + (status + ":none"))
  {
    assert ":" + "none" == ":none";
  }

  /** Text without a line end is one line, if it is not empty. */
  lemma OneLine(text: string)
    requires '\n' !in text
    ensures Lines(text) == if text == "" then [] else [text]
  {
    assert text + "" == text;
    FindSkips(text, "", '\n');
  }

  lemma FindFirst(head: string, tail: string, c: char)
    requires c in head
    ensures Find(head + tail, c) == Find(head, c) < |head|
  {
    if head[0] != c {
      assert (head + tail)[1..] == head[1..] + tail;
      FindFirst(head[1..], tail, c);
    }
  }

  /** The lines of two texts with a line end between them are the lines of the one and those of the other. */
  lemma {:induction false} LinesSplit(a: string, b: string)
    ensures Lines(a + ("\n" + b)) == Lines(a) + Lines(b)
    decreases |a|
  {
    hide Lines, Find;
    var file := a + ("\n" + b);
    LinesStep(file);
    if '\n' in a {
      FindFirst(a, "\n" + b, '\n');
      var k := Find(a, '\n');
      LinesStep(a);
      LinesSplit(a[k + 1..], b);
      NoLines();
      assert file[..k] == a[..k] && file[k + 1..] == a[k + 1..] + ("\n" + b);
    } else {
      FindSkips(a, "\n" + b, '\n');
      OneLine(a);
      assert file[..|a|] == a && file[|a| + 1..] == b;
    }
  }

  /** The lines of the file are the lines of the records. */
  lemma FirstLine(records: seq<Record>)
    requires records != [] && RecordOk(records[0])
    ensures Lines(FileOf(records)) == [Line(records[0])] + Lines(FileOf(records[1..]))
  {
    var r, rest, file := records[0], FileOf(records[1..]), FileOf(records);
    assert file == Line(r) + ("\n" + rest);
    LineIsOneLine(r);
    FindSkips(Line(r), "\n" + rest, '\n');
    assert file[..|Line(r)|] == Line(r) && file[|Line(r)| + 1..] == rest;
  }

  lemma StatusesStep(records: seq<Record>, deliveryId: string)
    requires records != [] && RecordOk(records[0])
    ensures var rest := Statuses(Lines(FileOf(records[1..])), deliveryId + ":");
            Statuses(Lines(FileOf(records)), deliveryId + ":")
            == (if StartsWith(Line(records[0]), deliveryId + ":") then [StatusIn(Line(records[0]), deliveryId + ":")]
                else []) + rest
  {
    hide Lines, FileOf, Line, StatusIn;
    FirstLine(records);
    var lines := Lines(FileOf(records));
    assert lines[1..] == Lines(FileOf(records[1..]));
  }

  /** Without confusing lines the statuses read from the file are the delivery's own, in order. */
  lemma {:induction false} RecordsReadBack(records: seq<Record>, deliveryId: string)
    requires WellFormed(records) && !Confused(records, deliveryId)
    ensures Statuses(Lines(FileOf(records)), deliveryId + ":") == StatusesOf(records, deliveryId)
  {
    hide Lines, FileOf, Line, StatusIn, Statuses, StartsWith;
    if records == [] {
      NothingRead(deliveryId);
    } else {
      var tail := records[1..];
      assert forall i | 0 <= i < |tail| :: tail[i] == records[i + 1];
      assert RecordOk(records[0]) && !Confuses(records[0], deliveryId);
      RecordsReadBack(tail, deliveryId);
      StatusesStep(records, deliveryId);
      OwnLine(records[0]);
    }
  }

  lemma NothingRead(deliveryId: string)
    ensures Statuses(Lines(FileOf([])), deliveryId + ":") == []
  {
  }

  /** Each confusing line adds a status that is not the delivery's. */
  lemma {:induction false} ConfusionAdds(records: seq<Record>, deliveryId: string)
    requires WellFormed(records)
    ensures |Statuses(Lines(FileOf(records)), deliveryId + ":")| >= |StatusesOf(records, deliveryId)|
    ensures Confused(records, deliveryId) ==>
              |Statuses(Lines(FileOf(records)), deliveryId + ":")| > |StatusesOf(records, deliveryId)|
  {
    hide Lines, FileOf, Line, StatusIn, Statuses, StartsWith;
    if records != [] {
      var tail := records[1..];
      assert forall i | 0 <= i < |tail| :: tail[i] == records[i + 1];
      assert RecordOk(records[0]);
      ConfusionAdds(tail, deliveryId);
      StatusesStep(records, deliveryId);
      OwnLine(records[0]);
      if Confused(records, deliveryId) && !Confuses(records[0], deliveryId) {
        var i :| 0 <= i < |records| && Confuses(records[i], deliveryId);
        assert Confuses(tail[i - 1], deliveryId);
      }
    }
  }

  /** has_sequence over the file of any records, colons in ids included, unless a line of another
      delivery begins like one of this: the expected statuses are a subsequence of the delivery's. */
  lemma HasSequenceMeans(records: seq<Record>, deliveryId: string, expected: seq<string>)
    requires WellFormed(records) && !Confused(records, deliveryId)
    ensures Matches(FileOf(records), deliveryId, expected) <==> IsSubsequence(expected, StatusesOf(records, deliveryId))
  {
    hide Lines, FileOf, Statuses, StatusesOf, Confused, WellFormed, Cursor, IsSubsequence;
    RecordsReadBack(records, deliveryId);
    GreedyMatchesExactly(StatusesOf(records, deliveryId), expected);
  }

  lemma SubsequenceIsShorter(expected: seq<string>, actual: seq<string>)
    requires IsSubsequence(expected, actual)
    ensures |expected| <= |actual|
  {
    var at :| Embeds(at, expected, actual);
    AtLeastIndex(at, |actual|);
  }

  /** Increasing positions below n are at most n. */
  lemma {:induction false} AtLeastIndex(at: seq<nat>, n: nat)
    requires forall i, j | 0 <= i < j < |at| :: at[i] < at[j]
    requires forall i | 0 <= i < |at| :: at[i] < n
    ensures |at| <= n
  {
    if at != [] {
      var last := |at| - 1;
      AtLeastIndex(at[..last], at[last]);
    }
  }

  lemma SubsequenceOfItself(statuses: seq<string>)
    ensures IsSubsequence(statuses, statuses)
  {
    assert Embeds(seq(|statuses|, i requires 0 <= i < |statuses| => i), statuses, statuses);
  }

  /** has_sequence answers what it promises for every question about a delivery exactly when no line
      of another delivery begins with its id and a colon. */
  lemma HasSequenceIsRightExactly(records: seq<Record>, deliveryId: string)
    requires WellFormed(records)
    ensures (forall expected ::
               Matches(FileOf(records), deliveryId, expected)
               <==> IsSubsequence(expected, StatusesOf(records, deliveryId)))
       <==> !Confused(records, deliveryId)
  {
    hide Lines, FileOf, Statuses, StatusesOf, Confused, WellFormed, Cursor, IsSubsequence;
    if Confused(records, deliveryId) {
      var read := Statuses(Lines(FileOf(records)), deliveryId + ":");
      ConfusionAdds(records, deliveryId);
      SubsequenceOfItself(read);
      GreedyMatchesExactly(read, read);
      assert Matches(FileOf(records), deliveryId, read);
      if IsSubsequence(read, StatusesOf(records, deliveryId)) {
        SubsequenceIsShorter(read, StatusesOf(records, deliveryId));
      }
    } else {
      forall expected
        ensures Matches(FileOf(records), deliveryId, expected)
                <==> IsSubsequence(expected, StatusesOf(records, deliveryId))
      {
        HasSequenceMeans(records, deliveryId, expected);
      }
    }
  }

  /** Ids without colons are never confused. */
  lemma ColonFreeIdsAreSafe(records: seq<Record>, deliveryId: string)
    requires ':' !in deliveryId && forall i | 0 <= i < |records| :: ':' !in records[i].deliveryId
    ensures !Confused(records, deliveryId)
  {
    forall i | 0 <= i < |records| ensures !Confuses(records[i], deliveryId) {
      ColonFreeLine(records[i], deliveryId);
    }
    hide Confuses;
  }

  lemma ColonFreeLine(r: Record, deliveryId: string)
    requires ':' !in deliveryId && ':' !in r.deliveryId
    ensures !Confuses(r, deliveryId)
  {
    var prefix := deliveryId + ":";
    var rest := ":" + (r.status + (":" + (if r.courierId.Some? then r.courierId.value else "none")));
    assert Line(r) == r.deliveryId + rest;
    FindSkips(r.deliveryId, rest, ':');
    if StartsWith(Line(r), prefix) {
      assert Line(r) == deliveryId + Line(r)[|deliveryId|..];
      assert Line(r)[|deliveryId|] == prefix[|deliveryId|] == ':';
      FindSkips(deliveryId, Line(r)[|deliveryId|..], ':');
      assert r.deliveryId == Line(r)[..|deliveryId|] == deliveryId;
    }
  }

  /** Appending is recording: the file of the records so far grows by the new record's line. */
  lemma {:induction false} FileGrows(records: seq<Record>, r: Record)
    ensures FileOf(records + [r]) == FileOf(records) + Line(r) + "\n"
  {
    if records == [] {
      assert [r][1..] == [];
      assert Line(r) + "\n" + "" == "" + Line(r) + "\n";
    } else {
      assert (records + [r])[1..] == records[1..] + [r];
      FileGrows(records[1..], r);
      assert Line(records[0]) + "\n" + (FileOf(records[1..]) + Line(r) + "\n")
          == (Line(records[0]) + "\n" + FileOf(records[1..])) + Line(r) + "\n";
    }
  }

  /** A line of delivery d with status s is confusing for the delivery "d:s". */
  lemma ColonIdsConfuse(r: Record)
    ensures Confuses(r, r.deliveryId + ":" + r.status)
  {
    var q := r.deliveryId + ":" + r.status;
    assert Line(r) == (q + ":") + (if r.courierId.Some? then r.courierId.value else "none");
    assert |q| > |r.deliveryId|;
  }
}
