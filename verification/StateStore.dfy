/** The write-ahead log file (`src/common/persistence/state_store.py`), byte by byte: one encoded
  * record and a newline per append, a tail torn by a crash, and its removal by the next load. */
module StateStores {
  import opened Options

  type Byte = bv8

  const NEWLINE: Byte := 10

  /** How records become bytes. `dec` is None where the parser raises. */
  datatype Codec<!R> = Codec(enc: R -> seq<Byte>, dec: seq<Byte> -> Option<R>)

  /** JSON: decoding inverts encoding, and no encoding is empty or contains a newline. */
  ghost predicate Sound<R(!new)>(c: Codec<R>) {
    forall r :: c.dec(c.enc(r)) == Some(r) && c.enc(r) != [] && NEWLINE !in c.enc(r)
  }

  // --- what a file says ---

  function FirstNewline(b: seq<Byte>): (n: nat)
    ensures n <= |b| && (n < |b| ==> b[n] == NEWLINE)
    ensures forall k :: 0 <= k < n ==> b[k] != NEWLINE
  {
    if b == [] || b[0] == NEWLINE then 0 else 1 + FirstNewline(b[1..])
  }

  /** The part of the file up to and including its last newline. */
  function Kept(b: seq<Byte>): (n: nat)
    ensures n <= |b| && (0 < n ==> b[n - 1] == NEWLINE)
    ensures forall k :: n <= k < |b| ==> b[k] != NEWLINE
    decreases |b|
  {
    var n := FirstNewline(b);
    if n == |b| then 0 else n + 1 + Kept(b[n + 1..])
  }

  function Onto<R>(first: seq<R>, rest: Option<seq<R>>): Option<seq<R>> {
    match rest case None => None case Some(rs) => Some(first + rs)
  }

  lemma OntoOnto<R>(a: seq<R>, b: seq<R>, rest: Option<seq<R>>)
    ensures Onto(a, Onto(b, rest)) == Onto(a + b, rest)
    ensures Onto([], rest) == rest && Onto(a, Some([])) == Some(a)
  {
    if rest.Some? { assert a + (b + rest.value) == a + b + rest.value; }
    assert a + [] == a && (rest.Some? ==> [] + rest.value == rest.value);
  }

  /** The records of the complete lines, or None if one of them does not parse. */
  function Parsed<R>(c: Codec<R>, b: seq<Byte>): Option<seq<R>>
    decreases |b|
  {
    var n := FirstNewline(b);
    if n == |b| then Some([])
    else if n == 0 then Parsed(c, b[1..])
    else
      match c.dec(b[..n])
      case None => None
      case Some(r) => Onto([r], Parsed(c, b[n + 1..]))
  }

  function Line<R>(c: Codec<R>, r: R): seq<Byte> { c.enc(r) + [NEWLINE] }

  function Encode<R>(c: Codec<R>, rs: seq<R>): seq<Byte> {
    if rs == [] then [] else Line(c, rs[0]) + Encode(c, rs[1..])
  }

  /** The first `good` bytes are complete lines with the records `loaded`. */
  ghost predicate ReadUpTo<R>(c: Codec<R>, bytes: seq<Byte>, good: nat, loaded: seq<R>)
    requires good <= |bytes|
  {
    && Kept(bytes) == good + Kept(bytes[good..])
    && Parsed(c, bytes) == Onto(loaded, Parsed(c, bytes[good..]))
  }

  method LineEnd(bytes: seq<Byte>, from: nat) returns (end: nat)
    requires from <= |bytes|
    ensures from <= end <= |bytes| && FirstNewline(bytes[from..]) == end - from
  {
    end := from;
    while end < |bytes| && bytes[end] != NEWLINE
      invariant from <= end <= |bytes|
      invariant forall k :: from <= k < end ==> bytes[k] != NEWLINE
    {
      end := end + 1;
    }
    FirstNewlineAt(bytes[from..], end - from);
  }

  lemma NextLine<R>(c: Codec<R>, bytes: seq<Byte>, good: nat, end: nat, loaded: seq<R>)
    requires good <= end <= |bytes| && FirstNewline(bytes[good..]) == end - good && ReadUpTo(c, bytes, good, loaded)
    ensures end < |bytes| && end == good ==> ReadUpTo(c, bytes, end + 1, loaded)
    ensures end < |bytes| && end > good && c.dec(bytes[good..end]).None? ==> Parsed(c, bytes) == None
    ensures end < |bytes| && end > good && c.dec(bytes[good..end]).Some? ==>
      ReadUpTo(c, bytes, end + 1, loaded + [c.dec(bytes[good..end]).value])
  {
    if end < |bytes| {
      FirstLine(c, bytes[good..], end - good);
      hide Parsed, Kept, FirstNewline, Onto;
      assert bytes[good..][end - good + 1..] == bytes[end + 1..] && bytes[good..][..end - good] == bytes[good..end];
      NoneOnto(loaded);
      if end > good && c.dec(bytes[good..end]).Some? {
        OntoOnto(loaded, [c.dec(bytes[good..end]).value], Parsed(c, bytes[end + 1..]));
      }
    }
  }

  lemma NoneOnto<R>(a: seq<R>)
    ensures Onto(a, None) == None
  {
  }

  lemma FirstLine<R>(c: Codec<R>, b: seq<Byte>, n: nat)
    requires FirstNewline(b) == n < |b|
    ensures Kept(b) == n + 1 + Kept(b[n + 1..])
    ensures n == 0 ==> Parsed(c, b) == Parsed(c, b[n + 1..])
    ensures n > 0 ==> Parsed(c, b) == match c.dec(b[..n])
      case None => None
      case Some(r) => Onto([r], Parsed(c, b[n + 1..]))
  {
  }

  lemma NothingRead<R>(c: Codec<R>, bytes: seq<Byte>)
    ensures ReadUpTo(c, bytes, 0, [])
  {
    assert bytes[0..] == bytes;
    OntoOnto([], [], Parsed(c, bytes));
  }

  lemma AllRead<R>(c: Codec<R>, bytes: seq<Byte>, good: nat, loaded: seq<R>)
    requires good <= |bytes| && FirstNewline(bytes[good..]) == |bytes| - good && ReadUpTo(c, bytes, good, loaded)
    ensures Parsed(c, bytes) == Some(loaded) && Kept(bytes) == good && bytes[..|bytes|] == bytes
  {
    OntoOnto(loaded, [], Some([]));
  }

  // --- the store ---

  class StateStore<R> {
    const codec: Codec<R>
    /** The file on disk; a missing file reads as an empty one. */
    var file: seq<Byte>
    var handleOpen: bool

    constructor (codec: Codec<R>, file: seq<Byte>)
      ensures this.codec == codec && this.file == file && !handleOpen
    {
      this.codec, this.file, this.handleOpen := codec, file, false;
    }

    /** `load`, consumed to its end: the records of all complete lines, in order; a torn tail, and
      * nothing else, is cut off. A line that does not parse raises, before any truncation. */
    method Load() returns (records: Option<seq<R>>)
      modifies this`file
      ensures records == Parsed(codec, old(file))
      ensures file == if records.Some? then old(file)[..Kept(old(file))] else old(file)
    {
      hide Parsed, Kept, FirstNewline;
      var bytes, good, torn, loaded := file, 0, false, [];
      NothingRead(codec, bytes);
      while good < |bytes| && !torn
        invariant good <= |bytes| && file == bytes
        invariant ReadUpTo(codec, bytes, good, loaded)
        invariant torn ==> good < |bytes| && FirstNewline(bytes[good..]) == |bytes| - good
        decreases |bytes| - good, !torn
      {
        var end := LineEnd(bytes, good);
        NextLine(codec, bytes, good, end, loaded);
        if end == |bytes| {
          torn := true;
        } else {
          var line := bytes[good..end];
          if line != [] {
            match codec.dec(line) {
              case None => return None;
              case Some(r) => loaded := loaded + [r];
            }
          }
          good := end + 1;
        }
      }
      AllRead(codec, bytes, good, loaded);
      if torn { file := bytes[..good]; }
      return Some(loaded);
    }

    method Append(r: R)
      modifies this
      ensures file == old(file) + Line(codec, r) && handleOpen
    {
      if !handleOpen { handleOpen := true; }
      file := file + codec.enc(r) + [NEWLINE];
    }

    /** `compact`: the new file is complete before it replaces the old one. */
    method Compact(records: seq<R>)
      modifies this
      ensures file == Encode(codec, records) && !handleOpen
    {
      var tmp: seq<Byte> := [];
      for i := 0 to |records|
        invariant tmp + Encode(codec, records[i..]) == Encode(codec, records)
      {
        tmp := tmp + codec.enc(records[i]) + [NEWLINE];
        assert records[i..][1..] == records[i + 1..];
      }
      file := tmp;
      handleOpen := false;
    }
  }

  lemma {:induction false} FirstNewlineAt(b: seq<Byte>, n: nat)
    requires n <= |b| && (n < |b| ==> b[n] == NEWLINE)
    requires forall k :: 0 <= k < n ==> b[k] != NEWLINE
    ensures FirstNewline(b) == n
  {
    var m := FirstNewline(b);
    assert (m < |b| ==> b[m] == NEWLINE) && (n < |b| ==> b[n] == NEWLINE);
  }

  /** Blank lines are skipped. */
  lemma BlankLineSkipped<R>(c: Codec<R>, b: seq<Byte>)
    ensures Parsed(c, [NEWLINE] + b) == Parsed(c, b)
  {
    assert ([NEWLINE] + b)[1..] == b;
  }

  lemma BadLineFirst<R(!new)>(c: Codec<R>, bad: seq<Byte>, rest: seq<Byte>)
    requires bad != [] && NEWLINE !in bad && c.dec(bad) == None
    ensures Parsed(c, bad + [NEWLINE] + rest) == None
  {
    var tail := bad + [NEWLINE] + rest;
    forall k | 0 <= k < |bad| ensures tail[k] != NEWLINE { assert tail[k] == bad[k] && bad[k] in bad; }
    FirstNewlineAt(tail, |bad|);
    assert tail[..|bad|] == bad;
  }

  /** If the rest of a log does not parse, the log does not. */
  lemma {:induction false} BadTailFails<R(!new)>(c: Codec<R>, rs: seq<R>, tail: seq<Byte>)
    requires Sound(c) && Parsed(c, tail) == None
    ensures Parsed(c, Encode(c, rs) + tail) == None
  {
    hide Parsed, Line;
    if rs == [] {
      assert Encode(c, rs) + tail == tail;
    } else {
      var after := Encode(c, rs[1..]) + tail;
      BadTailFails(c, rs[1..], tail);
      LineParses(c, rs[0], after);
      assert Encode(c, rs) + tail == Line(c, rs[0]) + after;
    }
  }

  /** A complete line that does not parse, after any number of records, makes loading fail, whatever follows. */
  lemma BadLineFails<R(!new)>(c: Codec<R>, rs: seq<R>, bad: seq<Byte>, rest: seq<Byte>)
    requires Sound(c) && bad != [] && NEWLINE !in bad && c.dec(bad) == None
    ensures Parsed(c, Encode(c, rs) + (bad + [NEWLINE] + rest)) == None
  {
    BadLineFirst(c, bad, rest);
    BadTailFails(c, rs, bad + [NEWLINE] + rest);
  }

  // --- torn tails ---

  /** How many of the records are complete, newline included, in the first n bytes of their encoding. */
  ghost function Survivors<R>(c: Codec<R>, rs: seq<R>, n: nat): (k: nat)
    ensures k <= |rs|
  {
    if rs == [] || n < |Line(c, rs[0])| then 0 else 1 + Survivors(c, rs[1..], n - |Line(c, rs[0])|)
  }

  lemma {:induction false} SurvivorsMeaning<R>(c: Codec<R>, rs: seq<R>, n: nat, k: nat)
    requires k <= |rs|
    ensures k <= Survivors(c, rs, n) <==> |Encode(c, rs[..k])| <= n
  {
    if k > 0 {
      assert rs[..k][1..] == rs[1..][..k - 1];
      if n >= |Line(c, rs[0])| { SurvivorsMeaning(c, rs[1..], n - |Line(c, rs[0])|, k - 1); }
    }
  }

  /** Reading one more complete line. */
  lemma LineParses<R(!new)>(c: Codec<R>, r: R, tail: seq<Byte>)
    requires Sound(c)
    ensures var b := Line(c, r) + tail;
      && Kept(b) == |Line(c, r)| + Kept(tail)
      && Parsed(c, b) == Onto([r], Parsed(c, tail))
  {
    var first, b := c.enc(r), Line(c, r) + tail;
    forall k | 0 <= k < |first| ensures b[k] != NEWLINE { assert b[k] == first[k] && first[k] in first; }
    FirstNewlineAt(b, |first|);
    assert b[..|first|] == first && b[|first| + 1..] == tail;
  }

  lemma PieceIgnored<R(!new)>(c: Codec<R>, r: R, n: nat)
    requires Sound(c) && n < |Line(c, r)|
    ensures Kept(Line(c, r)[..n]) == 0 && Parsed(c, Line(c, r)[..n]) == Some([])
  {
    var first, b := c.enc(r), Line(c, r)[..n];
    forall k | 0 <= k < n ensures b[k] != NEWLINE { assert b[k] == first[k] && first[k] in first; }
    FirstNewlineAt(b, n);
  }

  /** Torn-tail round trip: whatever number of bytes of a log a crash leaves, loading gives exactly the
    * records whose newline survived, and cuts the file to exactly their encoding. */
  lemma {:induction false} TornTail<R(!new)>(c: Codec<R>, rs: seq<R>, n: nat)
    requires Sound(c) && n <= |Encode(c, rs)|
    ensures var b, k := Encode(c, rs)[..n], Survivors(c, rs, n);
      Parsed(c, b) == Some(rs[..k]) && b[..Kept(b)] == Encode(c, rs[..k])
  {
    hide Parsed, Kept, Line;
    if rs == [] {
      EmptyFile(c);
    } else {
      var b, line, rest := Encode(c, rs)[..n], Line(c, rs[0]), Encode(c, rs[1..]);
      if n < |line| {
        assert b == line[..n];
        PieceIgnored(c, rs[0], n);
      } else {
        var tail := rest[..n - |line|];
        var k := Survivors(c, rs[1..], n - |line|);
        assert b == line + tail;
        LineParses(c, rs[0], tail);
        TornTail(c, rs[1..], n - |line|);
        assert rs[..k + 1] == [rs[0]] + rs[1..][..k];
        assert rs[..k + 1][1..] == rs[1..][..k];
        assert b[..Kept(b)] == line + tail[..Kept(tail)];
      }
    }
  }

  lemma EmptyFile<R>(c: Codec<R>)
    ensures Parsed(c, []) == Some([]) && Kept([]) == 0
  {
  }

  lemma {:induction false} EncodeConcat<R>(c: Codec<R>, a: seq<R>, b: seq<R>)
    ensures Encode(c, a + b) == Encode(c, a) + Encode(c, b)
  {
    if a == [] {
      assert a + b == b;
    } else {
      assert (a + b)[1..] == a[1..] + b;
      EncodeConcat(c, a[1..], b);
    }
  }

  /** An undamaged log loads completely. */
  lemma WholeLog<R(!new)>(c: Codec<R>, rs: seq<R>)
    requires Sound(c)
    ensures Parsed(c, Encode(c, rs)) == Some(rs) && Kept(Encode(c, rs)) == |Encode(c, rs)|
  {
    hide Parsed, Kept, Line, Encode, Survivors;
    var b := Encode(c, rs);
    TornTail(c, rs, |b|);
    SurvivorsMeaning(c, rs, |b|, |rs|);
    assert b[..|b|] == b && rs[..|rs|] == rs;
  }

  // --- whole lives of a log ---

  /** A crash in the middle of an append leaves some of the line's bytes; the restarted process loads
    * before it appends. A crash during a compaction leaves either the old file or the new one. */
  datatype Op<R> =
    | Append(record: R)
    | TornAppend(record: R, bytes: nat)
    | Compact(records: seq<R>)
    | TornCompact(records: seq<R>, replaced: bool)
    | Reload

  ghost function Loaded(b: seq<Byte>): seq<Byte> { b[..Kept(b)] }

  ghost function FileAfter<R>(c: Codec<R>, ops: seq<Op<R>>): seq<Byte> {
    if ops == [] then []
    else
      var b := FileAfter(c, ops[..|ops| - 1]);
      match ops[|ops| - 1]
      case Append(r) => b + Line(c, r)
      case TornAppend(r, n) => Loaded(b + if n <= |Line(c, r)| then Line(c, r)[..n] else Line(c, r))
      case Compact(rs) => Encode(c, rs)
      case TornCompact(rs, replaced) => Loaded(if replaced then Encode(c, rs) else b)
      case Reload => Loaded(b)
  }

  /** The records the log should hold: a torn append counts only if all of its bytes were written. */
  ghost function Holds<R>(c: Codec<R>, ops: seq<Op<R>>): seq<R> {
    if ops == [] then []
    else
      var rs := Holds(c, ops[..|ops| - 1]);
      match ops[|ops| - 1]
      case Append(r) => rs + [r]
      case TornAppend(r, n) => if n < |Line(c, r)| then rs else rs + [r]
      case Compact(other) => other
      case TornCompact(other, replaced) => if replaced then other else rs
      case Reload => rs
  }

  lemma TornAppendLoads<R(!new)>(c: Codec<R>, rs: seq<R>, r: R, n: nat)
    requires Sound(c) && n <= |Line(c, r)|
    ensures Loaded(Encode(c, rs) + Line(c, r)[..n]) == Encode(c, if n < |Line(c, r)| then rs else rs + [r])
  {
    hide Line, Kept, Parsed, Survivors;
    var all := rs + [r];
    EncodeConcat(c, rs, [r]);
    assert Encode(c, [r]) == Line(c, r);
    hide Encode;
    var b := Encode(c, rs) + Line(c, r)[..n];
    assert b == Encode(c, all)[..|b|];
    TornTail(c, all, |b|);
    assert all[..|rs|] == rs && all[..|all|] == all;
    SurvivorsMeaning(c, all, |b|, |rs|);
    SurvivorsMeaning(c, all, |b|, |all|);
  }

  /** Through any sequence of appends, compactions, crashes at any byte and reloads, loading the file
    * gives exactly the records it should hold: nothing complete is lost, nothing torn is read. */
  lemma {:induction false} LogIsDurable<R(!new)>(c: Codec<R>, ops: seq<Op<R>>)
    requires Sound(c)
    ensures FileAfter(c, ops) == Encode(c, Holds(c, ops))
    ensures Parsed(c, FileAfter(c, ops)) == Some(Holds(c, ops))
  {
    hide Parsed, Kept, Line;
    if ops != [] {
      var before := ops[..|ops| - 1];
      LogIsDurable(c, before);
      var rs := Holds(c, before);
      match ops[|ops| - 1]
      case Append(r) =>
        EncodeConcat(c, rs, [r]);
        assert Encode(c, [r]) == Line(c, r);
      case TornAppend(r, n) =>
        TornAppendLoads(c, rs, r, if n <= |Line(c, r)| then n else |Line(c, r)|);
        assert Line(c, r)[..|Line(c, r)|] == Line(c, r);
      case Compact(_) =>
      case TornCompact(other, replaced) => WholeLog(c, if replaced then other else rs);
      case Reload => WholeLog(c, rs);
    }
    WholeLog(c, Holds(c, ops));
  }
}
