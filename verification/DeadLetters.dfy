/** internal/mq/dlq.go: dead letters, their validation and the replay of exported ones. */
module DeadLetters {
  import opened Basics
  import opened Events

  const SUFFIX := ".dlq"
  const MAX_ERROR: nat := 2048

  datatype DeadLetter = DeadLetter(
    sourceTopic: string, partition: int, offset: int, group: string,
    key: Option<string>, value: Value, error: string, stamped: bool)

  function NewDeadLetter(group: string, topic: string, partition: int, offset: int, rec: Record, cause: string): DeadLetter {
    DeadLetter(topic, partition, offset, group, rec.key, rec.value,
               if |cause| > MAX_ERROR then cause[..MAX_ERROR] else cause, true)
  }

  predicate HasSuffix(s: string, suffix: string) {
    |suffix| <= |s| && s[|s| - |suffix|..] == suffix
  }

  predicate ValidSource(topic: string, group: string) {
    !Blank(topic) && !HasSuffix(topic, SUFFIX) && !Blank(group)
  }

  /** DeadLetter.Validate. */
  predicate Valid(d: DeadLetter) {
    && ValidSource(d.sourceTopic, d.group)
    && d.partition >= 0 && d.offset >= 0
    && d.value != Null
    && !Blank(d.error) && d.stamped
  }
}
