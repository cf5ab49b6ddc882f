// Child attempts are named after what they continue. The names of attempts are
// as distinct as the generated names they are built from, so that an identity
// can stand for the text, and repeating a call finds the row of the first one.
module Names {
  import opened Rows

  // The text of an attempt id, given the generated parts: the hexadecimal tail
  // of an initial attempt, and the whole id of a dead letter.
  function Text(a: AttemptId, tail: Key -> string, letter: DeadLetterId -> string): string {
    match a
    case Initial(key) => "attempt_" + tail(key)
    case Retry(scheduled) => "retry-" + Text(scheduled, tail, letter)
    case Replay(d) => "replay_" + letter(d)
  }

  ghost predicate Injective<T(!new)>(f: T -> string) {
    forall x, y :: f(x) == f(y) ==> x == y
  }

  lemma SamePrefix(p: string, x: string, y: string)
    requires p + x == p + y
    ensures x == y
  {
    assert (p + x)[|p|..] == x && (p + y)[|p|..] == y;
  }

  lemma {:induction false} TextsDistinct(a: AttemptId, b: AttemptId, tail: Key -> string, letter: DeadLetterId -> string)
    requires Injective(tail) && Injective(letter)
    requires Text(a, tail, letter) == Text(b, tail, letter)
    ensures a == b
  {
    var s, t := Text(a, tail, letter), Text(b, tail, letter);
    assert s[0] == t[0] && s[2] == t[2];
    match a
    case Initial(key) =>
      SamePrefix("attempt_", tail(key), tail(b.key));
    case Retry(scheduled) =>
      SamePrefix("retry-", Text(scheduled, tail, letter), Text(b.scheduled, tail, letter));
      TextsDistinct(scheduled, b.scheduled, tail, letter);
    case Replay(d) =>
      SamePrefix("replay_", letter(d), letter(b.deadLetter));
  }
}
