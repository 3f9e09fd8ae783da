/** What the window writes to its recovery storage and how it reads it back, down to the key of a target. */
module RunRecovery {
  import opened Sequences
  import opened Machines
  import opened RunCommands
  import opened RunCommandTheorems

  datatype Result<+T> = Ok(value: T) | Invalid(message: string)

  // ---- the key of a target ---------------------------------------------------------------------

  const Hex := "0123456789abcdef"

  /** How JSON writes one character of a string. */
  function Escape(c: char): string {
    if c == '\"' then "\\\""
    else if c == '\\' then "\\\\"
    else if c as int == 8 then "\\b"
    else if c == '\t' then "\\t"
    else if c == '\n' then "\\n"
    else if c as int == 12 then "\\f"
    else if c == '\r' then "\\r"
    else if c as int < 32 then "\\u00" + [Hex[c as int / 16], Hex[c as int % 16]]
    else [c]
  }

  function Escaped(s: string): string {
    if s == "" then "" else Escape(s[0]) + Escaped(s[1..])
  }

  function Quoted(s: string): string {
    "\"" + Escaped(s) + "\""
  }

  function InputPart(input: Option<string>): string {
    "," + (if input.Some? then Quoted(input.value) else "null") + "]"
  }

  function ControlKey(t: Target): string {
    "[" + Quoted(t.run) + InputPart(t.input)
  }

  lemma EscapeShape(c: char)
    ensures |Escape(c)| == 1 || |Escape(c)| == 2 || |Escape(c)| == 6
    ensures |Escape(c)| == 1 ==> Escape(c) == [c] && c != '\\' && c != '\"'
    ensures |Escape(c)| > 1 ==> Escape(c)[0] == '\\' && (Escape(c)[1] == 'u' <==> |Escape(c)| == 6)
  {
  }

  lemma HexDigitsDiffer(i: nat, j: nat)
    requires i < 16 && j < 16 && Hex[i] == Hex[j]
    ensures i == j
  {
  }

  lemma EscapesDiffer(c: char, d: char)
    requires |Escape(c)| == |Escape(d)| > 1 && Escape(c)[1] == Escape(d)[1]
    requires |Escape(c)| == 6 ==> Escape(c)[4] == Escape(d)[4] && Escape(c)[5] == Escape(d)[5]
    ensures c == d
  {
    if |Escape(c)| == 6 {
      HexDigitsDiffer(c as int / 16, d as int / 16);
      HexDigitsDiffer(c as int % 16, d as int % 16);
    }
  }

  lemma EscapeIsPrefixFree(c: char, d: char, x: string, y: string)
    requires Escape(c) + x == Escape(d) + y
    ensures c == d && x == y
  {
    hide Escape;
    var m, n, u := |Escape(c)|, |Escape(d)|, Escape(c) + x;
    EscapeShape(c);
    EscapeShape(d);
    assert u[0] == Escape(c)[0] == Escape(d)[0];
    if m > 1 && n > 1 {
      assert u[1] == Escape(c)[1] == Escape(d)[1];
      if m == 6 {
        assert u[4] == Escape(c)[4] == Escape(d)[4] && u[5] == Escape(c)[5] == Escape(d)[5];
      }
      EscapesDiffer(c, d);
    }
    assert x == u[m..] && y == u[n..];
  }

  /** A quoted string ends where it says it does, whatever follows. */
  lemma {:induction false} EscapedEnds(a: string, b: string, x: string, y: string)
    requires Escaped(a) + "\"" + x == Escaped(b) + "\"" + y
    ensures a == b && x == y
    decreases |a|
  {
    hide Escape;
    if a != "" { EscapeShape(a[0]); }
    if b != "" { EscapeShape(b[0]); }
    if a != "" && b != "" {
      var u, v := Escaped(a[1..]) + "\"" + x, Escaped(b[1..]) + "\"" + y;
      assert Escape(a[0]) + u == Escaped(a) + "\"" + x && Escape(b[0]) + v == Escaped(b) + "\"" + y;
      EscapeIsPrefixFree(a[0], b[0], u, v);
      EscapedEnds(a[1..], b[1..], x, y);
      assert a == [a[0]] + a[1..] && b == [b[0]] + b[1..];
    } else if a != "" {
      assert Escaped(b) + "\"" + y == "\"" + y;
      EscapedStarts(a, x);
      assert false;
    } else if b != "" {
      assert Escaped(a) + "\"" + x == "\"" + x;
      EscapedStarts(b, y);
      assert false;
    } else {
      assert Escaped(a) + "\"" + x == "\"" + x && Escaped(b) + "\"" + y == "\"" + y;
      assert x == ("\"" + x)[1..] && y == ("\"" + y)[1..];
    }
  }

  lemma EscapedStarts(a: string, x: string)
    requires a != ""
    ensures (Escaped(a) + "\"" + x)[0] != '\"'
  {
    EscapeShape(a[0]);
    assert (Escaped(a) + "\"" + x)[0] == Escape(a[0])[0];
  }

  lemma QuotedEnds(a: string, b: string, x: string, y: string)
    requires Quoted(a) + x == Quoted(b) + y
    ensures a == b && x == y
  {
    hide Escaped;
    assert (Quoted(a) + x)[1..] == Escaped(a) + "\"" + x;
    assert (Quoted(b) + y)[1..] == Escaped(b) + "\"" + y;
    EscapedEnds(a, b, x, y);
  }

  lemma InputPartIsInjective(a: Option<string>, b: Option<string>)
    requires InputPart(a) == InputPart(b)
    ensures a == b
  {
    hide Escaped;
    assert InputPart(a)[1] == InputPart(b)[1];
    if a.Some? && b.Some? {
      assert InputPart(a)[1..] == Quoted(a.value) + "]" && InputPart(b)[1..] == Quoted(b.value) + "]";
      QuotedEnds(a.value, b.value, "]", "]");
    }
  }

  /** Distinct targets have distinct keys, whatever their names contain. */
  lemma ControlKeyIsInjective(s: Target, t: Target)
    requires ControlKey(s) == ControlKey(t)
    ensures s == t
  {
    hide Quoted, InputPart;
    assert ControlKey(s)[1..] == Quoted(s.run) + InputPart(s.input);
    assert ControlKey(t)[1..] == Quoted(t.run) + InputPart(t.input);
    QuotedEnds(s.run, t.run, InputPart(s.input), InputPart(t.input));
    InputPartIsInjective(s.input, t.input);
  }

  // ---- the records -----------------------------------------------------------------------------

  /** A record as storage holds it: any strings and numbers. */
  datatype SavedRequest = SavedRequest(
    idempotencyKey: string, runId: string, expectedRunRevision: int, kind: string, reason: string,
    runInputId: string, expectedDispositionRevision: int)

  datatype SavedReceipt = SavedReceipt(
    commandType: string, entityId: string, revision: int, runId: string, runRevision: int)

  datatype Record = Record(key: string, request: SavedRequest, principalId: string, receipt: Option<SavedReceipt>)

  const CancelReason := "Cancelled by Human from Run controls."
  const WithdrawReason := "Withdrawn by Human from Run controls."

  function WriteRequest(r: Request): SavedRequest {
    match r.target.input
    case None => SavedRequest(r.key, r.target.run, r.revision, "cancel", CancelReason, "", 0)
    case Some(input) =>
      SavedRequest(r.key, r.target.run, r.revision, "withdraw", WithdrawReason, input, r.disposition)
  }

  function WriteReceipt(r: Receipt): SavedReceipt {
    match r.target.input
    case None => SavedReceipt("CancelRun", r.target.run, r.revision, "", 0)
    case Some(input) => SavedReceipt("WithdrawRunInput", input, r.revision, r.target.run, r.runRevision)
  }

  function WriteRecord(t: Target, s: Saved): Record {
    Record(ControlKey(t), WriteRequest(s.request), s.principal,
           match s.receipt case None => None case Some(receipt) => Some(WriteReceipt(receipt)))
  }

  /** What `changed` writes: one record for each kept entry, in the order of the table. */
  function Written(entries: map<Target, Entry>, order: seq<Target>): seq<Record>
    requires forall t :: t in order ==> t in entries
  {
    if order == [] then [] else
    (if Kept(entries[order[0]]) then [WriteRecord(order[0], SavedOf(entries[order[0]]))] else [])
      + Written(entries, order[1..])
  }

  predicate SafeInteger(n: int) { 1 <= n <= MaxSafeInteger }

  function RequireRequest(v: SavedRequest): Result<Request> {
    if v.idempotencyKey == "" || v.runId == "" || !SafeInteger(v.expectedRunRevision) then
      Invalid("Invalid Run control recovery request.")
    else if v.kind == "cancel" && v.reason == CancelReason then
      Ok(Request(v.idempotencyKey, Target(v.runId, None), v.expectedRunRevision, 0))
    else if v.kind == "withdraw" && v.reason == WithdrawReason && v.runInputId != ""
            && SafeInteger(v.expectedDispositionRevision) then
      Ok(Request(v.idempotencyKey, Target(v.runId, Some(v.runInputId)), v.expectedRunRevision,
                 v.expectedDispositionRevision))
    else Invalid("Invalid Run control recovery request.")
  }

  function RequireReceipt(v: SavedReceipt, r: Request): Result<Receipt> {
    match r.target.input
    case None =>
      if v.commandType == "CancelRun" && v.entityId == r.target.run && v.revision == r.revision + 1
      then Ok(Receipt(r.target, r.revision + 1, r.revision + 1))
      else Invalid("The server response did not confirm the requested Run control action.")
    case Some(input) =>
      if v.commandType == "WithdrawRunInput" && v.entityId == input && v.revision == r.disposition + 1
         && v.runId == r.target.run && v.runRevision == r.revision + 1
      then Ok(Receipt(r.target, r.disposition + 1, r.revision + 1))
      else Invalid("The server response did not confirm the requested Run control action.")
  }

  /** One turn of the loop that reads the records. */
  function ReadRecord(entries: map<string, Entry>, v: Record): Result<map<string, Entry>> {
    if v.principalId == "" then Invalid("Invalid recovery principal.") else
    match RequireRequest(v.request)
    case Invalid(message) => Invalid(message)
    case Ok(r) =>
      var key := ControlKey(r.target);
      if v.key != key || key in entries then Invalid("Invalid recovery target.") else
      match v.receipt
      case None => Ok(entries[key := Restored(Saved(r, v.principalId, None))])
      case Some(saved) =>
        match RequireReceipt(saved, r)
        case Invalid(message) => Invalid(message)
        case Ok(receipt) => Ok(entries[key := Restored(Saved(r, v.principalId, Some(receipt)))])
  }

  function ReadRecords(entries: map<string, Entry>, values: seq<Record>): Result<map<string, Entry>>
    decreases |values|
  {
    if values == [] then Ok(entries) else
    match ReadRecord(entries, values[0])
    case Invalid(message) => Invalid(message)
    case Ok(next) => ReadRecords(next, values[1..])
  }

  method ReadRecovery(values: seq<Record>) returns (r: Result<map<string, Entry>>)
    ensures r == ReadRecords(map[], values)
  {
    var entries: map<string, Entry> := map[];
    for i := 0 to |values|
      invariant ReadRecords(map[], values) == ReadRecords(entries, values[i..])
    {
      assert values[i..][0] == values[i] && values[i..][1..] == values[i + 1..];
      match ReadRecord(entries, values[i])
      case Invalid(message) => return Invalid(message);
      case Ok(next) => entries := next;
    }
    return Ok(entries);
  }

  // ---- round trip ------------------------------------------------------------------------------

  ghost predicate Writable(t: Target, s: Saved) {
    && s.principal != "" && Sound(s.request) && s.request.target == t
    && (s.receipt.Some? ==> Confirms(s.receipt.value, s.request))
  }

  lemma RecordRoundTrip(entries: map<string, Entry>, t: Target, s: Saved)
    requires Writable(t, s) && ControlKey(t) !in entries
    ensures ReadRecord(entries, WriteRecord(t, s)) == Ok(entries[ControlKey(t) := Restored(s)])
  {
    hide RequireRequest, WriteRequest, RequireReceipt, WriteReceipt, ControlKey, Restored;
    RequestRoundTrip(s.request);
    if s.receipt.Some? { ReceiptRoundTrip(s.receipt.value, s.request); }
  }

  lemma RequestRoundTrip(r: Request)
    requires Sound(r)
    ensures RequireRequest(WriteRequest(r)) == Ok(r)
  {
    assert |"withdraw"| != |"cancel"|;
  }

  lemma ReceiptRoundTrip(receipt: Receipt, r: Request)
    requires Confirms(receipt, r)
    ensures RequireReceipt(WriteReceipt(receipt), r) == Ok(receipt)
  {
  }

  /** What a reload makes of the kept entries among `order`, under their keys. */
  function RestoredUnderKeys(entries: map<Target, Entry>, order: seq<Target>): map<string, Entry>
    requires forall t :: t in order ==> t in entries
  {
    if order == [] then map[] else
    var n := |order| - 1;
    var t := order[n];
    var rest := RestoredUnderKeys(entries, order[..n]);
    if Kept(entries[t]) then rest[ControlKey(t) := Restored(SavedOf(entries[t]))] else rest
  }

  lemma {:induction false} KeysOfOrder(entries: map<Target, Entry>, order: seq<Target>, t: Target)
    requires forall x :: x in order ==> x in entries
    ensures ControlKey(t) in RestoredUnderKeys(entries, order) <==> t in order && Kept(entries[t])
    ensures t in order && Kept(entries[t]) ==>
      RestoredUnderKeys(entries, order)[ControlKey(t)] == Restored(SavedOf(entries[t]))
    decreases |order|
  {
    if order != [] {
      var n := |order| - 1;
      assert order == order[..n] + [order[n]];
      KeysOfOrder(entries, order[..n], t);
      if ControlKey(t) == ControlKey(order[n]) {
        ControlKeyIsInjective(t, order[n]);
      }
    }
  }

  lemma NextInOrder(done: seq<Target>, order: seq<Target>)
    requires Distinct(done + order) && order != []
    ensures done + order == (done + [order[0]]) + order[1..] && order[0] !in done
  {
    var t := order[0];
    forall i | 0 <= i < |done| ensures done[i] != t {
      assert (done + order)[i] == done[i] && (done + order)[|done|] == t;
    }
  }

  lemma ReadNext(entries: map<string, Entry>, first: Record, rest: seq<Record>, next: map<string, Entry>)
    requires ReadRecord(entries, first) == Ok(next)
    ensures ReadRecords(entries, [first] + rest) == ReadRecords(next, rest)
  {
    hide ReadRecord;
    assert ([first] + rest)[1..] == rest;
  }

  lemma RestoredNext(entries: map<Target, Entry>, done: seq<Target>, t: Target)
    requires forall x :: x in done + [t] ==> x in entries
    ensures t in entries && forall x :: x in done ==> x in done + [t]
    ensures RestoredUnderKeys(entries, done + [t]) ==
      if Kept(entries[t]) then RestoredUnderKeys(entries, done)[ControlKey(t) := Restored(SavedOf(entries[t]))]
      else RestoredUnderKeys(entries, done)
  {
    hide ControlKey, Restored, SavedOf;
    assert (done + [t])[..|done|] == done && (done + [t])[|done|] == t;
  }

  lemma {:induction false} ReadsWhatWasWritten(entries: map<Target, Entry>, done: seq<Target>, order: seq<Target>)
    requires Distinct(done + order) && forall t :: t in done + order ==> t in entries
    requires forall t :: t in order && Kept(entries[t]) ==> Writable(t, SavedOf(entries[t]))
    ensures ReadRecords(RestoredUnderKeys(entries, done), Written(entries, order))
         == Ok(RestoredUnderKeys(entries, done + order))
    decreases |order|
  {
    hide ControlKey, Restored, Writable, WriteRecord, ReadRecord, SavedOf, RestoredUnderKeys, Distinct;
    if order == [] {
      assert done + order == done;
    } else {
      var t := order[0];
      var rest := order[1..];
      NextInOrder(done, order);
      RestoredNext(entries, done, t);
      KeysOfOrder(entries, done, t);
      if Kept(entries[t]) {
        var first := WriteRecord(t, SavedOf(entries[t]));
        RecordRoundTrip(RestoredUnderKeys(entries, done), t, SavedOf(entries[t]));
        ReadNext(RestoredUnderKeys(entries, done), first, Written(entries, rest),
                 RestoredUnderKeys(entries, done + [t]));
      } else {
        assert Written(entries, order) == Written(entries, rest);
      }
      ReadsWhatWasWritten(entries, done + [t], rest);
    }
  }

  /** Reading back what any reachable window writes succeeds, in whatever order the table is listed, and
      gives each target its pending request as unknown and uncertain, or its acknowledgement with the same
      receipt; drafts, errors and rejections are gone. */
  lemma RecoveryRoundTrip(steps: seq<Step>, order: seq<Target>)
    requires Legal(Controls(), Initial, steps)
    requires var entries := After(Controls(), Initial, steps).window.entries;
      Distinct(order) && forall t :: t in order <==> t in entries
    ensures var entries := After(Controls(), Initial, steps).window.entries;
      var read := ReadRecords(map[], Written(entries, order));
      && read.Ok?
      && forall t :: (ControlKey(t) in read.value <==> t in Recovered(Persisted(entries)))
                     && (t in Recovered(Persisted(entries)) ==>
                           read.value[ControlKey(t)] == Recovered(Persisted(entries))[t])
  {
    hide Good, Enabled, RunCommands.Take;
    EveryRunIsGood(steps);
    var s := After(Controls(), Initial, steps);
    var entries := s.window.entries;
    forall t | t in order && Kept(entries[t]) ensures Writable(t, SavedOf(entries[t])) {
      KeptIsWritable(s, t);
    }
    assert [] + order == order;
    ReadsWhatWasWritten(entries, [], order);
    forall t ensures
      (ControlKey(t) in RestoredUnderKeys(entries, order) <==> t in Recovered(Persisted(entries)))
      && (t in Recovered(Persisted(entries)) ==>
            RestoredUnderKeys(entries, order)[ControlKey(t)] == Recovered(Persisted(entries))[t])
    {
      KeysOfOrder(entries, order, t);
    }
  }

  lemma KeptIsWritable(s: State, t: Target)
    requires Good(s) && t in s.window.entries && Kept(s.window.entries[t])
    ensures Writable(t, SavedOf(s.window.entries[t]))
  {
    assert Here(s, t);
    var e := s.window.entries[t];
    assert IsMinted(s, s.storage[t].request, s.storage[t].principal);
  }

  // ---- what recovery refuses -------------------------------------------------------------------

  /** A request is read only if it could have been written: nothing but the fields a cancellation has no use for
      may differ. */
  lemma OnlyRequestsAreRead(v: SavedRequest)
    requires RequireRequest(v).Ok?
    ensures var r := RequireRequest(v).value;
      && Sound(r)
      && WriteRequest(r) == if r.target.input.None? then v.(runInputId := "", expectedDispositionRevision := 0) else v
  {
  }

  /** And a receipt only if it confirms the request. */
  lemma OnlyConfirmationsAreRead(v: SavedReceipt, r: Request)
    requires RequireReceipt(v, r).Ok?
    ensures var receipt := RequireReceipt(v, r).value;
      && Confirms(receipt, r)
      && WriteReceipt(receipt) == if r.target.input.None? then v.(runId := "", runRevision := 0) else v
  {
  }

  /** A record of somebody's request, stored under the key of its target, with a receipt that fits if it has one. */
  ghost predicate ValidRecord(v: Record) {
    && v.principalId != "" && RequireRequest(v.request).Ok?
    && v.key == ControlKey(RequireRequest(v.request).value.target)
    && (v.receipt.Some? ==> RequireReceipt(v.receipt.value, RequireRequest(v.request).value).Ok?)
  }

  ghost function RecordEntry(v: Record): Entry
    requires ValidRecord(v)
  {
    var r := RequireRequest(v.request).value;
    Restored(Saved(r, v.principalId,
                   if v.receipt.Some? then Some(RequireReceipt(v.receipt.value, r).value) else None))
  }

  lemma RecordDecides(entries: map<string, Entry>, v: Record)
    ensures ReadRecord(entries, v).Ok? <==> ValidRecord(v) && v.key !in entries
    ensures ReadRecord(entries, v).Ok? ==> ReadRecord(entries, v).value == entries[v.key := RecordEntry(v)]
  {
    hide RequireRequest, RequireReceipt, ControlKey, Restored;
  }

  ghost predicate DistinctKeys(values: seq<Record>) {
    forall i, j :: 0 <= i < j < |values| ==> values[i].key != values[j].key
  }

  ghost predicate Recoverable(entries: map<string, Entry>, values: seq<Record>) {
    && DistinctKeys(values)
    && forall i :: 0 <= i < |values| ==> ValidRecord(values[i]) && values[i].key !in entries
  }

  /** The table has what it had and the records' entries. */
  ghost predicate Gains(was: map<string, Entry>, values: seq<Record>, now: map<string, Entry>)
    requires forall i :: 0 <= i < |values| ==> ValidRecord(values[i])
  {
    && (forall k :: k in now <==> k in was || exists i :: 0 <= i < |values| && values[i].key == k)
    && (forall k :: k in was ==> k in now && now[k] == was[k])
    && forall i :: 0 <= i < |values| ==> values[i].key in now && now[values[i].key] == RecordEntry(values[i])
  }

  /** Recovery succeeds exactly when every record is valid, under the key of its own target, and no two have the
      same target; one record that is not stops all of it. What is recovered is then one entry for each record. */
  lemma {:induction false} RecoveryDecides(entries: map<string, Entry>, values: seq<Record>)
    ensures ReadRecords(entries, values).Ok? <==> Recoverable(entries, values)
    ensures ReadRecords(entries, values).Ok? ==> Gains(entries, values, ReadRecords(entries, values).value)
    decreases |values|
  {
    hide ReadRecord, ValidRecord, RecordEntry;
    if values != [] {
      var v, rest := values[0], values[1..];
      RecordDecides(entries, v);
      assert values == [v] + rest;
      if ReadRecord(entries, v).Ok? {
        var next := ReadRecord(entries, v).value;
        RecoveryDecides(next, rest);
        OneMoreRecord(entries, v, rest);
        if ReadRecords(next, rest).Ok? { GainsOneMore(entries, v, rest, ReadRecords(next, rest).value); }
      } else {
        assert values[0] == v;
      }
    }
  }

  lemma OneMoreRecord(entries: map<string, Entry>, v: Record, rest: seq<Record>)
    requires ValidRecord(v) && v.key !in entries
    ensures Recoverable(entries, [v] + rest) <==> Recoverable(entries[v.key := RecordEntry(v)], rest)
  {
    hide ValidRecord, RecordEntry;
    var values, next := [v] + rest, entries[v.key := RecordEntry(v)];
    assert forall i :: 0 <= i < |rest| ==> values[i + 1] == rest[i];
    if Recoverable(entries, values) {
      forall i | 0 <= i < |rest| ensures ValidRecord(rest[i]) && rest[i].key !in next {
        assert values[i + 1] == rest[i] && values[0].key != values[i + 1].key;
      }
      forall i, j | 0 <= i < j < |rest| ensures rest[i].key != rest[j].key {
        assert values[i + 1].key != values[j + 1].key;
      }
    }
    if Recoverable(next, rest) {
      forall i | 0 <= i < |values| ensures ValidRecord(values[i]) && values[i].key !in entries {
        assert i > 0 ==> values[i] == rest[i - 1];
      }
      forall i, j | 0 <= i < j < |values| ensures values[i].key != values[j].key {
        assert values[j] == rest[j - 1] && (i > 0 ==> values[i] == rest[i - 1]);
      }
    }
  }

  lemma GainsOneMore(was: map<string, Entry>, v: Record, rest: seq<Record>, now: map<string, Entry>)
    requires ValidRecord(v) && v.key !in was && forall i :: 0 <= i < |rest| ==> ValidRecord(rest[i])
    requires Gains(was[v.key := RecordEntry(v)], rest, now)
    ensures forall i :: 0 <= i < |[v] + rest| ==> ValidRecord(([v] + rest)[i])
    ensures Gains(was, [v] + rest, now)
  {
    hide ValidRecord, RecordEntry;
    var values, next := [v] + rest, was[v.key := RecordEntry(v)];
    assert values[0] == v && forall i :: 0 < i < |values| ==> values[i] == rest[i - 1];
    forall k ensures k in now <==> k in was || exists i :: 0 <= i < |values| && values[i].key == k {
      if exists i :: 0 <= i < |rest| && rest[i].key == k {
        var i :| 0 <= i < |rest| && rest[i].key == k;
        assert values[i + 1].key == k;
      }
    }
  }
}
