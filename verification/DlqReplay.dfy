/**
 internal/mq/dlq.go as code: the Kafka key under which a dead letter is stored, its JSON form, and the replay of
 exported letters to their original topics.
 */
module DlqReplay {
  import opened Basics
  import opened Events
  import opened DeadLetters

  /** The JSON form of a letter: an empty key is left out and comes back as no key at all. */
  function Exported(d: DeadLetter): DeadLetter {
    d.(key := if d.key == Some("") then None else d.key)
  }

  /** string(dead.Key) */
  function KeyText(d: DeadLetter): string {
    if d.key.Some? then d.key.value else ""
  }

  /** The key of the record that WriteDeadLetter produces. */
  function LetterKey(d: DeadLetter): string {
    if KeyText(d) != "" then KeyText(d) else Decimal(d.partition) + ":" + Decimal(d.offset)
  }

  /** One record that ProduceRawSync sent. */
  datatype Sent = Sent(topic: string, rec: Record)

  function Replay(d: DeadLetter): Sent {
    Sent(d.sourceTopic, Record(Some(KeyText(d)), d.value))
  }

  // ----- round trip -----

  /** A rejected record comes back as it was exactly when it had a key; a missing key comes back empty. */
  lemma ReplayRestoresIff(group: string, topic: string, partition: int, offset: int, rec: Record, cause: string)
    ensures var sent := Replay(Exported(NewDeadLetter(group, topic, partition, offset, rec, cause)));
      && sent.topic == topic && sent.rec.value == rec.value
      && (sent.rec == rec <==> rec.key.Some?)
      && (rec.key.None? ==> sent.rec.key == Some(""))
  {
  }

  /** Exporting changes nothing that Validate looks at. */
  lemma ExportStaysValid(d: DeadLetter)
    ensures Valid(Exported(d)) <==> Valid(d)
    ensures LetterKey(Exported(d)) == LetterKey(d)
  {
  }

  lemma {:induction false} DecimalHasNoColon(n: nat)
    ensures ':' !in Decimal(n)
  {
    if n >= 10 { DecimalHasNoColon(n / 10); }
  }

  function FirstColon(s: string): nat {
    if s == "" || s[0] == ':' then 0 else 1 + FirstColon(s[1..])
  }

  lemma {:induction false} FirstColonAt(a: string, b: string)
    requires ':' !in a
    ensures FirstColon(a + ":" + b) == |a|
  {
    if a == "" {
      assert (a + ":" + b)[0] == ':';
    } else {
      assert (a + ":" + b)[0] == a[0] && (a + ":" + b)[1..] == a[1..] + ":" + b;
      FirstColonAt(a[1..], b);
    }
  }

  /** The first colon splits a string in only one way. */
  lemma SplitOnce(a: string, b: string, c: string, d: string)
    requires a + ":" + b == c + ":" + d && ':' !in a && ':' !in c
    ensures a == c && b == d
  {
    FirstColonAt(a, b);
    FirstColonAt(c, d);
    var s, t := a + ":" + b, c + ":" + d;
    assert a == s[..|a|] && c == t[..|c|] && b == s[|a| + 1..] && d == t[|c| + 1..];
  }

  /** Letters of records without a key never share a Kafka key unless they are of the same record. */
  lemma KeylessLettersDiffer(d: DeadLetter, e: DeadLetter)
    requires Valid(d) && Valid(e) && KeyText(d) == "" && KeyText(e) == ""
    ensures LetterKey(d) == LetterKey(e) <==> (d.partition, d.offset) == (e.partition, e.offset)
    ensures LetterKey(d) != ""
  {
    if LetterKey(d) == LetterKey(e) {
      DecimalHasNoColon(d.partition);
      DecimalHasNoColon(e.partition);
      SplitOnce(Decimal(d.partition), Decimal(d.offset), Decimal(e.partition), Decimal(e.offset));
      DecimalInjective(d.partition, e.partition);
      DecimalInjective(d.offset, e.offset);
    }
  }

  /** A letter keeps what it is told, and as much of a long error text as fits into 2048 characters. */
  lemma LetterKeeps(group: string, topic: string, partition: int, offset: int, rec: Record, cause: string)
    ensures var d := NewDeadLetter(group, topic, partition, offset, rec, cause);
      && d.group == group && d.sourceTopic == topic && d.partition == partition && d.offset == offset
      && d.key == rec.key && d.value == rec.value && d.stamped
      && d.error <= cause && |d.error| == if |cause| <= 2048 then |cause| else 2048
  {
  }

  // ----- the replay loop -----

  /** One scanned line: only white space, not a letter, or a letter that may or may not be valid. */
  datatype Line = White | Malformed | Letter(letter: DeadLetter)

  datatype ReplayError =
    | ActorRequired | ProducerRequired | ReadFailed
    | DecodeFailed(line: nat) | Invalid(line: nat) | ProduceFailed(line: nat) | AuditFailed(line: nat)

  predicate Replayable(line: Line) {
    line.White? || (line.Letter? && Valid(line.letter))
  }

  /** What a list of lines stands for, in order. */
  function Replayed(lines: seq<Line>): seq<Sent> {
    if lines == [] then []
    else Replayed(lines[..|lines| - 1]) +
         if lines[|lines| - 1].Letter? then [Replay(lines[|lines| - 1].letter)] else []
  }

  /** The first `k` lines have been replayed and counted. */
  ghost predicate Progress(lines: seq<Line>, k: nat, before: seq<Sent>, after: seq<Sent>, count: nat) {
    && k <= |lines| && (forall i :: 0 <= i < k ==> Replayable(lines[i]))
    && after == before + Replayed(lines[..k]) && count == |Replayed(lines[..k])|
  }

  lemma WhiteProgress(lines: seq<Line>, k: nat, before: seq<Sent>, after: seq<Sent>, count: nat)
    requires k < |lines| && lines[k].White? && Progress(lines, k, before, after, count)
    ensures Progress(lines, k + 1, before, after, count)
  {
    assert lines[..k + 1][..k] == lines[..k];
  }

  lemma LetterProgress(lines: seq<Line>, k: nat, before: seq<Sent>, after: seq<Sent>, count: nat)
    requires k < |lines| && lines[k].Letter? && Valid(lines[k].letter) && Progress(lines, k, before, after, count)
    ensures Progress(lines, k + 1, before, after + [Replay(lines[k].letter)], count + 1)
  {
    assert lines[..k + 1][..k] == lines[..k];
  }

  class RawProducer {
    var sent: seq<Sent>
    var audited: seq<Sent>

    constructor ()
      ensures sent == [] && audited == []
    {
      sent, audited := [], [];
    }

    /** A failure is ambiguous: the record may have been sent. */
    method ProduceRawSync(topic: string, key: string, value: Value, works: bool) returns (ok: bool)
      modifies this`sent
      ensures sent == old(sent) + [Sent(topic, Record(Some(key), value))] || (!ok && sent == old(sent))
      ensures works ==> ok
    {
      var executed: bool, acked: bool := *, *;
      if works || executed { sent := sent + [Sent(topic, Record(Some(key), value))]; }
      ok := works || (executed && acked);
    }

    /** One JSON line per replayed letter. */
    method Audit(d: DeadLetter, works: bool) returns (ok: bool)
      modifies this`audited
      ensures ok ==> audited == old(audited) + [Replay(d)]
      ensures !ok ==> audited == old(audited) && !works
    {
      ok := *;
      ok := works || ok;
      if ok { audited := audited + [Replay(d)]; }
    }
  }

  /** What the DLQ writer demands of a letter. */
  predicate Complete(d: DeadLetter) {
    && !Blank(d.sourceTopic) && !(|d.sourceTopic| >= 4 && d.sourceTopic[|d.sourceTopic| - 4..] == ".dlq") && !Blank(d.group)
    && d.partition >= 0 && d.offset >= 0 && d.value != Null && !Blank(d.error) && d.stamped
  }

  /**
   KafkaDeadLetterWriter.WriteDeadLetter; the value is the letter's JSON, handed on as the letter itself. The key is
   that of the record, or partition and offset if it had none.
   */
  method WriteDeadLetter(producer: RawProducer?, d: DeadLetter, json: DeadLetter -> Value, works: bool) returns (ok: bool)
    modifies if producer == null then {} else {producer}
    ensures ok ==> producer != null && Complete(d)
    ensures ok ==> producer.sent == old(producer.sent) + [Sent(d.sourceTopic + ".dlq", Record(Some(
      if d.key.Some? && d.key.value != "" then d.key.value else Decimal(d.partition) + ":" + Decimal(d.offset)),
      json(d.(key := if d.key == Some("") then None else d.key))))]
    ensures producer != null && !Complete(d) ==> !ok && producer.sent == old(producer.sent)
    ensures works && producer != null && Complete(d) ==> ok
  {
    if producer == null || !Valid(d) { return false; }
    var key := KeyText(d);
    if key == "" {
      key := Decimal(d.partition) + ":" + Decimal(d.offset);
    }
    ok := producer.ProduceRawSync(d.sourceTopic + SUFFIX, key, json(Exported(d)), works);
  }

  /** Sends one letter and writes its audit line, if audit lines are wanted. */
  method ReplayLetter(producer: RawProducer, dead: DeadLetter, line: nat, audit: bool, works: bool)
    returns (failure: Option<ReplayError>)
    modifies producer
    ensures failure == None || failure == Some(ProduceFailed(line)) || (audit && failure == Some(AuditFailed(line)))
    ensures producer.sent == old(producer.sent) + [Replay(dead)] ||
            (failure == Some(ProduceFailed(line)) && producer.sent == old(producer.sent))
    ensures producer.audited == old(producer.audited) + if audit && failure == None then [Replay(dead)] else []
    ensures works ==> failure == None
  {
    var ok := producer.ProduceRawSync(dead.sourceTopic, KeyText(dead), dead.value, works);
    if !ok { return Some(ProduceFailed(line)); }
    if audit {
      ok := producer.Audit(dead, works);
      if !ok { return Some(AuditFailed(line)); }
    }
    return None;
  }

  /** What has been sent and counted when a line stops the replay. */
  ghost predicate StoppedAt(lines: seq<Line>, err: ReplayError, before: seq<Sent>, after: seq<Sent>, count: nat) {
    match err
    case DecodeFailed(line) =>
      1 <= line <= |lines| && lines[line - 1].Malformed? && Progress(lines, line - 1, before, after, count)
    case Invalid(line) =>
      && 1 <= line <= |lines| && lines[line - 1].Letter? && !Valid(lines[line - 1].letter)
      && Progress(lines, line - 1, before, after, count)
    case ProduceFailed(line) =>
      && 1 <= line <= |lines| && lines[line - 1].Letter?
      && (Progress(lines, line - 1, before, after, count) || Progress(lines, line, before, after, count + 1))
    case AuditFailed(line) => 1 <= line <= |lines| && Progress(lines, line, before, after, count)
    case ReadFailed => Progress(lines, |lines|, before, after, count)
    case _ => false
  }

  /** The loop over the scanned lines. */
  method ReplayLines(lines: seq<Line>, readable: bool, producer: RawProducer, audit: bool, works: bool)
    returns (count: nat, err: Option<ReplayError>)
    modifies producer
    ensures err.None? ==> readable && Progress(lines, |lines|, old(producer.sent), producer.sent, count)
    ensures err.None? && audit ==> Progress(lines, |lines|, old(producer.audited), producer.audited, count)
    ensures err.Some? ==> StoppedAt(lines, err.value, old(producer.sent), producer.sent, count)
    ensures err == Some(ReadFailed) ==> !readable
    ensures works && err.Some? ==> !err.value.ProduceFailed? && !err.value.AuditFailed?
  {
    count := 0;
    var line := 1;
    while line <= |lines|
      invariant 1 <= line <= |lines| + 1
      invariant Progress(lines, line - 1, old(producer.sent), producer.sent, count)
      invariant audit ==> Progress(lines, line - 1, old(producer.audited), producer.audited, count)
    {
      match lines[line - 1] {
      case White =>
        WhiteProgress(lines, line - 1, old(producer.sent), producer.sent, count);
        if audit { WhiteProgress(lines, line - 1, old(producer.audited), producer.audited, count); }
      case Malformed => return count, Some(DecodeFailed(line));
      case Letter(dead) =>
        if !Valid(dead) { return count, Some(Invalid(line)); }
        LetterProgress(lines, line - 1, old(producer.sent), producer.sent, count);
        if audit { LetterProgress(lines, line - 1, old(producer.audited), producer.audited, count); }
        var failure := ReplayLetter(producer, dead, line, audit, works);
        if failure == Some(ProduceFailed(line)) { return count, failure; }
        count := count + 1;
        if failure.Some? { return count, failure; }
      }
      line := line + 1;
    }
    return count, if readable then None else Some(ReadFailed);
  }

  /**
   Letters go out in file order until the first line that cannot be replayed; the count is the number of letters
   known to be out.
   */
  method ReplayJSONLines(lines: seq<Line>, readable: bool, producer: RawProducer?, actor: string, audit: bool, works: bool)
    returns (count: nat, err: Option<ReplayError>)
    modifies if producer == null then {} else {producer}
    ensures Blank(actor) <==> err == Some(ActorRequired)
    ensures !Blank(actor) && producer == null <==> err == Some(ProducerRequired)
    ensures Blank(actor) && producer != null ==> producer.sent == old(producer.sent)
    ensures err.None? ==>
      producer != null && readable && Progress(lines, |lines|, old(producer.sent), producer.sent, count)
    ensures err.None? && audit ==> Progress(lines, |lines|, old(producer.audited), producer.audited, count)
    ensures err.Some? && !err.value.ActorRequired? && !err.value.ProducerRequired? ==>
      producer != null && StoppedAt(lines, err.value, old(producer.sent), producer.sent, count)
    ensures works && err.Some? ==> !err.value.ProduceFailed? && !err.value.AuditFailed?
    ensures err == Some(ReadFailed) ==> !readable
  {
    hide Progress;
    if Blank(actor) { return 0, Some(ActorRequired); }
    if producer == null { return 0, Some(ProducerRequired); }
    count, err := ReplayLines(lines, readable, producer, audit, works);
  }
}
