/** Message identifiers (`src/common/idempotency/ids.py`): fields joined by ':'.
  * Deduplication everywhere in the pipeline is by these strings, so what matters is that
  * two different messages of one flow never share an id. */
module Ids {
  import opened Options

  const SEPARATOR: char := ':'
  const RING_PHASE_COUNT: string := "count"
  const RING_PHASE_FLUSH: string := "flush"
  const RING_PHASE_CLEANUP: string := "cleanup"
  const EOF_FIELD: string := "eof"
  const EOF_CLEANUP_DISC: string := "cleanup"
  const CLEANUP_EXPECTED_COUNT: int := -1

  // --- decimal numerals: str() and int() ---

  predicate IsDigit(c: char) { '0' <= c <= '9' }

  function DigitChar(d: nat): (c: char)
    requires d < 10
    ensures IsDigit(c) && c as int - '0' as int == d
  {
    ('0' as int + d) as char
  }

  function DigitOf(c: char): (d: nat)
    requires IsDigit(c)
    ensures d < 10 && DigitChar(d) == c
  {
    c as int - '0' as int
  }

  function Numeral(n: nat): (s: string)
    ensures |s| > 0 && forall c :: c in s ==> IsDigit(c)
  {
    if n < 10 then [DigitChar(n)] else Numeral(n / 10) + [DigitChar(n % 10)]
  }

  function DigitsValue(s: string): nat
    requires forall c :: c in s ==> IsDigit(c)
  {
    if s == [] then 0
    else DigitsValue(s[..|s| - 1]) * 10 + DigitOf(s[|s| - 1])
  }

  /** `int(s)` for an optionally signed decimal numeral; None stands for ValueError. */
  function ParseInt(s: string): Option<int> {
    if |s| > 0 && forall c :: c in s ==> IsDigit(c) then Some(DigitsValue(s))
    else if |s| > 1 && (s[0] == '-' || s[0] == '+') && forall c :: c in s[1..] ==> IsDigit(c) then
      (var v: int := DigitsValue(s[1..]); Some(if s[0] == '-' then -v else v))
    else None
  }

  function Str(i: int): (s: string)
    ensures |s| > 0 && forall c :: c in s ==> IsDigit(c) || c == '-'
  {
    if i < 0 then ['-'] + Numeral(-i) else Numeral(i)
  }

  lemma {:induction false} NumeralValue(n: nat)
    ensures DigitsValue(Numeral(n)) == n
  {
    var s := Numeral(n);
    if n < 10 {
      assert s[..|s| - 1] == [] && DigitsValue(s[..|s| - 1]) == 0;
      assert s[|s| - 1] == DigitChar(n);
    } else {
      NumeralValue(n / 10);
      assert s[..|s| - 1] == Numeral(n / 10);
      assert s[|s| - 1] == DigitChar(n % 10);
    }
  }

  lemma StrRoundTrip(i: int)
    ensures ParseInt(Str(i)) == Some(i)
  {
    if i < 0 {
      NumeralValue(-i);
      assert Str(i)[0] == '-' && Str(i)[0] in Str(i);
      assert Str(i)[1..] == Numeral(-i);
    } else {
      NumeralValue(i);
    }
  }

  lemma StrInjective(i: int, j: int)
    requires Str(i) == Str(j)
    ensures i == j
  {
    StrRoundTrip(i);
    StrRoundTrip(j);
  }

  // --- splitting on the separator ---

  /** Python's `s.split(":")`. */
  function Split(s: string): (parts: seq<string>)
    ensures |parts| > 0
  {
    if s == [] then [[]]
    else
      var rest := Split(s[1..]);
      if s[0] == SEPARATOR then [[]] + rest else [[s[0]] + rest[0]] + rest[1..]
  }

  lemma {:induction false} SplitJoin(a: string, b: string)
    ensures Split(a + [SEPARATOR] + b) == Split(a) + Split(b)
  {
    var whole := a + [SEPARATOR] + b;
    if a == [] {
      assert whole[1..] == b;
    } else {
      assert whole[1..] == a[1..] + [SEPARATOR] + b;
      SplitJoin(a[1..], b);
    }
  }

  lemma {:induction false} SplitPlain(s: string)
    requires SEPARATOR !in s
    ensures Split(s) == [s]
  {
    if s != [] {
      assert s[0] in s;
      SplitPlain(s[1..]);
      assert s == [s[0]] + s[1..];
    }
  }

  // --- the ids ---

  function Join2(a: string, b: string): string { a + [SEPARATOR] + b }

  function Join3(a: string, b: string, c: string): string { Join2(Join2(a, b), c) }

  function RootId(client: string, batchIndex: nat): string { Join2(client, Str(batchIndex)) }

  function FlushId(origin: nat, client: string, bucket: nat): string {
    Join3(client, Str(origin), Str(bucket))
  }

  function RingId(client: string, phase: string, hop: int): string {
    Join3(client, phase, Str(hop))
  }

  /** The hop number carried by a ring id, -1 if the id has none. */
  function RingSeqOf(messageId: string): int {
    var parts := Split(messageId);
    if |parts| < 3 then -1
    else match ParseInt(parts[|parts| - 1])
      case Some(hop) => hop
      case None => -1
  }

  function EofId(client: string, disc: Option<string>): string {
    match disc
    case None => Join2(client, EOF_FIELD)
    case Some(d) => Join3(client, EOF_FIELD, d)
  }

  function FinalEofId(client: string, count: int, disc: Option<string>): string {
    if count == CLEANUP_EXPECTED_COUNT then
      EofId(client, Some(match disc case None => EOF_CLEANUP_DISC case Some(d) => Join2(d, EOF_CLEANUP_DISC)))
    else EofId(client, disc)
  }

  /** The ids as they are written. */
  lemma DataIdFormats(client: string, i: nat, o: nat)
    ensures RootId(client, i) == client + ":" + Str(i)
    ensures FlushId(o, client, i) == client + ":" + Str(o) + ":" + Str(i)
  {
    hide Str;
  }

  lemma RingIdFormats(client: string, hop: int)
    ensures RingId(client, RING_PHASE_COUNT, hop) == client + ":count:" + Str(hop)
    ensures RingId(client, RING_PHASE_FLUSH, hop) == client + ":flush:" + Str(hop)
    ensures RingId(client, RING_PHASE_CLEANUP, hop) == client + ":cleanup:" + Str(hop)
  {
    hide Str;
    assert client + ":" + "count" + ":" == client + ":count:";
    assert client + ":" + "flush" + ":" == client + ":flush:";
    assert client + ":" + "cleanup" + ":" == client + ":cleanup:";
  }

  lemma EofIdFormats(client: string, count: int, disc: string)
    ensures count != -1 ==> FinalEofId(client, count, None) == client + ":eof"
    ensures count != -1 ==> FinalEofId(client, count, Some(disc)) == client + ":eof:" + disc
    ensures FinalEofId(client, -1, None) == client + ":eof:cleanup"
    ensures FinalEofId(client, -1, Some(disc)) == client + ":eof:" + disc + ":cleanup"
  {
    assert client + ":" + "eof" == client + ":eof" && client + ":eof" + ":" == client + ":eof:";
    assert client + ":eof:" + "cleanup" == client + ":eof:cleanup";
    assert client + ":eof:" + (disc + ":" + "cleanup") == client + ":eof:" + disc + ":cleanup";
  }

  // --- facts about them ---

  lemma SplitJoin3(a: string, b: string, c: string)
    requires SEPARATOR !in b && SEPARATOR !in c
    ensures Split(Join3(a, b, c)) == Split(a) + [b, c]
  {
    SplitJoin(Join2(a, b), c);
    SplitJoin(a, b);
    SplitPlain(b);
    SplitPlain(c);
  }

  /** Whatever the client id and the phase contain, the hop number survives the id. */
  lemma RingSeqRoundTrip(client: string, phase: string, hop: int)
    ensures RingSeqOf(RingId(client, phase, hop)) == hop
  {
    SplitJoin(Join2(client, phase), Str(hop));
    SplitJoin(client, phase);
    SplitPlain(Str(hop));
    StrRoundTrip(hop);
  }

  /** The ids of the gateway's batches and of a stage's EOF carry no hop number (the client id, as the
    * gateway makes it, having no separator). */
  lemma NoHopNumber(client: string, i: nat)
    requires SEPARATOR !in client
    ensures RingSeqOf(RootId(client, i)) == -1 && RingSeqOf(EofId(client, None)) == -1 && RingSeqOf("") == -1
  {
    SplitPlain(client);
    SplitPlain(Str(i));
    SplitJoin(client, Str(i));
    SplitPlain(EOF_FIELD);
    SplitJoin(client, EOF_FIELD);
  }

  /** The tokens of one flow have pairwise different ids: the phase and the hop can be read back. */
  lemma RingIdInjective(client: string, p: string, i: int, q: string, j: int)
    requires SEPARATOR !in p && SEPARATOR !in q
    requires RingId(client, p, i) == RingId(client, q, j)
    ensures p == q && i == j
  {
    SplitJoin3(client, p, Str(i));
    SplitJoin3(client, q, Str(j));
    var n := |Split(client)|;
    assert (Split(client) + [p, Str(i)])[n] == (Split(client) + [q, Str(j)])[n];
    assert (Split(client) + [p, Str(i)])[n + 1] == (Split(client) + [q, Str(j)])[n + 1];
    StrInjective(i, j);
  }

  /** A flush id names its producing replica and its bucket (but not the destination shard). */
  lemma FlushIdInjective(client: string, o: nat, b: nat, o': nat, b': nat)
    requires FlushId(o, client, b) == FlushId(o', client, b')
    ensures o == o' && b == b'
  {
    SplitJoin3(client, Str(o), Str(b));
    SplitJoin3(client, Str(o'), Str(b'));
    var n := |Split(client)|;
    assert (Split(client) + [Str(o), Str(b)])[n] == (Split(client) + [Str(o'), Str(b')])[n];
    assert (Split(client) + [Str(o), Str(b)])[n + 1] == (Split(client) + [Str(o'), Str(b')])[n + 1];
    StrInjective(o, o');
    StrInjective(b, b');
  }

  /** Every data message has an id, so that its duplicates are recognised. */
  lemma DataIdsAreNonempty(client: string, i: nat, o: nat, b: nat)
    ensures RootId(client, i) != "" && FlushId(o, client, b) != ""
  {
  }

  lemma RootIdInjective(client: string, i: nat, j: nat)
    requires RootId(client, i) == RootId(client, j)
    ensures i == j
  {
    SplitJoin(client, Str(i));
    SplitJoin(client, Str(j));
    SplitPlain(Str(i));
    SplitPlain(Str(j));
    var n := |Split(client)|;
    assert (Split(client) + [Str(i)])[n] == (Split(client) + [Str(j)])[n];
    StrInjective(i, j);
  }

  /** No final EOF, of a flow or of its cleanup, is mistaken for a data message. */
  lemma FinalEofIdIsFresh(client: string, count: int, disc: Option<string>, i: nat, o: nat, b: nat)
    ensures FinalEofId(client, count, disc) != RootId(client, i)
    ensures FinalEofId(client, count, disc) != FlushId(o, client, b)
  {
    var rest := if count == CLEANUP_EXPECTED_COUNT
      then Some(if disc.Some? then Join2(disc.value, EOF_CLEANUP_DISC) else EOF_CLEANUP_DISC) else disc;
    var n := |Split(client)|;
    SplitJoin(client, EOF_FIELD);
    SplitPlain(EOF_FIELD);
    if rest.Some? { SplitJoin(Join2(client, EOF_FIELD), rest.value); }
    assert Split(FinalEofId(client, count, disc))[n] == EOF_FIELD;
    SplitJoin(client, Str(i));
    SplitPlain(Str(i));
    SplitJoin3(client, Str(o), Str(b));
    assert (Split(client) + [Str(i)])[n] == Str(i);
    assert EOF_FIELD[0] == 'e';
  }

  /** The EOF of a cleanup is not dropped as a duplicate of the flow's own. */
  lemma CleanupEofIsNew(client: string, count: int, disc: Option<string>)
    requires count != CLEANUP_EXPECTED_COUNT
    ensures FinalEofId(client, CLEANUP_EXPECTED_COUNT, disc) != FinalEofId(client, count, disc)
  {
    assert |FinalEofId(client, CLEANUP_EXPECTED_COUNT, disc)| > |FinalEofId(client, count, disc)|;
  }

  /** The EOF that closes a stage's input is never mistaken for one of its data messages. */
  lemma EofIdIsFresh(client: string, i: nat, o: nat, b: nat)
    ensures EofId(client, None) != RootId(client, i)
    ensures EofId(client, None) != FlushId(o, client, b)
  {
    SplitJoin(client, EOF_FIELD);
    SplitPlain(EOF_FIELD);
    SplitJoin(client, Str(i));
    SplitPlain(Str(i));
    SplitJoin3(client, Str(o), Str(b));
    var n := |Split(client)|;
    assert (Split(client) + [EOF_FIELD])[n] == EOF_FIELD;
    assert (Split(client) + [Str(i)])[n] == Str(i);
    assert EOF_FIELD[0] == 'e';
  }
}
