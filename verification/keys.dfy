/** Idempotency keys. The partial unique index compares key text, so two keys
    stand for the same thing only if the formatted strings agree. */
module Keys {

  datatype Key =
    | IntentKey(callId: string)
    | ResultKey(callId: string)
    | ProposedKey(checkpoint: int)
    | DecidedKey(checkpoint: int, accepted: bool)
    | OutcomeKey(checkpoint: int)
    | CustomKey(text: string)

  function Digit(d: nat): char
    requires d < 10
  {
    '0' + d as char
  }

  function Decimal(n: nat): string {
    if n < 10 then [Digit(n)] else Decimal(n / 10) + [Digit(n % 10)]
  }

  function Integer(n: int): string {
    if n < 0 then "-" + Decimal(-n) else Decimal(n)
  }

  /** The text each call site formats. */
  function Text(key: Key): string {
    match key
    case IntentKey(id) => "tool_call:" + id
    case ResultKey(id) => "tool_result:" + id
    case ProposedKey(n) => CheckpointText(n, "proposed")
    case DecidedKey(n, accepted) => CheckpointText(n, if accepted then "accepted" else "rejected")
    case OutcomeKey(n) => CheckpointText(n, "tool_result")
    case CustomKey(text) => text
  }

  function CheckpointText(n: int, suffix: string): string {
    "checkpoint:" + Integer(n) + ":" + suffix
  }

  // ---------- Decimal numerals can be read back ----------

  function ReadDecimal(s: string): int {
    if s == [] then 0 else 10 * ReadDecimal(s[..|s| - 1]) + (s[|s| - 1] as int - '0' as int)
  }

  lemma {:induction false} DecimalReadsBack(n: nat)
    ensures Decimal(n) != []
    ensures forall i :: 0 <= i < |Decimal(n)| ==> '0' <= Decimal(n)[i] <= '9'
    ensures ReadDecimal(Decimal(n)) == n
  {
    if n < 10 {
      assert Decimal(n)[..0] == [];
    } else {
      DecimalReadsBack(n / 10);
      assert Decimal(n)[..|Decimal(n)| - 1] == Decimal(n / 10);
    }
  }

  lemma {:induction false} IntegerInjective(m: int, n: int)
    requires Integer(m) == Integer(n)
    ensures m == n
  {
    DecimalReadsBack(if m < 0 then -m else m);
    DecimalReadsBack(if n < 0 then -n else n);
    assert Integer(m)[0] == '-' <==> m < 0;
    assert Integer(n)[0] == '-' <==> n < 0;
    if m < 0 {
      assert Integer(m)[1..] == Decimal(-m) && Integer(n)[1..] == Decimal(-n);
    }
  }

  lemma {:induction false} IntegerHasNoColon(n: int)
    ensures ':' !in Integer(n)
  {
    DecimalReadsBack(if n < 0 then -n else n);
  }

  // ---------- The families are injective and pairwise disjoint ----------

  /** A separator that does not occur in the heads fixes where they end. */
  lemma {:induction false} SplitAtSeparator(head1: string, tail1: string, head2: string, tail2: string)
    requires ':' !in head1 && ':' !in head2
    requires head1 + ":" + tail1 == head2 + ":" + tail2
    ensures head1 == head2 && tail1 == tail2
  {
    var s1, s2 := head1 + ":" + tail1, head2 + ":" + tail2;
    assert s1[|head1|] == ':' && s2[|head2|] == ':';
    assert forall i :: 0 <= i < |head1| ==> s1[i] == head1[i];
    assert forall i :: 0 <= i < |head2| ==> s2[i] == head2[i];
    assert head1 == s1[..|head1|] && head2 == s2[..|head2|];
    assert tail1 == s1[|head1| + 1..] && tail2 == s2[|head2| + 1..];
  }

  lemma {:induction false} CheckpointTextInjective(m: int, suffix1: string, n: int, suffix2: string)
    requires CheckpointText(m, suffix1) == CheckpointText(n, suffix2)
    ensures m == n && suffix1 == suffix2
  {
    IntegerHasNoColon(m);
    IntegerHasNoColon(n);
    assert CheckpointText(m, suffix1)[11..] == Integer(m) + ":" + suffix1;
    assert CheckpointText(n, suffix2)[11..] == Integer(n) + ":" + suffix2;
    SplitAtSeparator(Integer(m), suffix1, Integer(n), suffix2);
    IntegerInjective(m, n);
  }

  predicate Formatted(key: Key) {
    !key.CustomKey?
  }

  function Suffix(key: Key): string
    requires key.ProposedKey? || key.DecidedKey? || key.OutcomeKey?
  {
    match key
    case ProposedKey(_) => "proposed"
    case DecidedKey(_, accepted) => if accepted then "accepted" else "rejected"
    case OutcomeKey(_) => "tool_result"
  }

  /** Keys formatted by different call sites, or for different calls or
      checkpoints, never have the same text. */
  lemma {:induction false} TextInjective(a: Key, b: Key)
    requires Formatted(a) && Formatted(b)
    requires Text(a) == Text(b)
    ensures a == b
  {
    assert a.IntentKey? ==> Text(a)[5] == 'c' && Text(a)[10..] == a.callId;
    assert b.IntentKey? ==> Text(b)[5] == 'c' && Text(b)[10..] == b.callId;
    assert a.ResultKey? ==> Text(a)[5] == 'r' && Text(a)[12..] == a.callId;
    assert b.ResultKey? ==> Text(b)[5] == 'r' && Text(b)[12..] == b.callId;
    var call1, call2 := a.IntentKey? || a.ResultKey?, b.IntentKey? || b.ResultKey?;
    assert Text(a)[0] == (if call1 then 't' else 'c');
    assert Text(b)[0] == (if call2 then 't' else 'c');
    if !call1 {
      CheckpointTextInjective(a.checkpoint, Suffix(a), b.checkpoint, Suffix(b));
      assert "proposed"[0] == 'p' && "accepted"[0] == 'a' && "rejected"[0] == 'r' && "tool_result"[0] == 't';
    }
  }

  /** A caller of append_event_with_lease chooses its own key text. It counts as
      a custom key only when no call site could have formatted it. */
  ghost predicate Canonical(key: Key) {
    key.CustomKey? ==> forall k :: Formatted(k) ==> Text(k) != key.text
  }

  /** The key that a stored text stands for. */
  ghost function Parse(text: string): (key: Key)
    ensures Canonical(key) && Text(key) == text
  {
    if exists k :: Formatted(k) && Text(k) == text then
      var k :| Formatted(k) && Text(k) == text;
      k
    else CustomKey(text)
  }

  /** The unique index compares texts; that is the same as comparing keys. */
  lemma {:induction false} SameText(a: Key, b: Key)
    requires Canonical(a) && Canonical(b)
    ensures Text(a) == Text(b) <==> a == b
    ensures Parse(Text(a)) == a
  {
    if Text(a) == Text(b) && Formatted(a) && Formatted(b) {
      TextInjective(a, b);
    }
    var parsed := Parse(Text(a));
    if Formatted(a) && Formatted(parsed) {
      TextInjective(a, parsed);
    }
  }
}
