/**
 * The evidence archive: a hash-chained file that grows by atomic replacement.
 *
 * `append` hashes the canonical text of the event in memory, and every later read hashes the canonical
 * text of the event that it has read back.  The two texts differ for some events, so a codec gives both
 * functions; the file is kept as the list of records that a read returns.
 */
module Archive {
  import opened Common

  datatype Codec<!E> = Codec(canon: E -> string, readBack: E -> E, fp: string -> string)

  datatype Record<E> = Record(recordId: string, createdAt: int, event: E, previousHash: string, recordHash: string)

  /** Where the process dies or fails during one append. */
  datatype Fate =
    | Survives
    | DiesWritingTemp(written: nat)  // only this many lines of the temporary file were written
    | DiesBeforeReplace
    | DiesBeforeManifest
    | WriterRaises                   // an exception: the temporary file is removed

  datatype Outcome<E> = Appended(record: Record<E>) | Invalid | Corrupt | Died | Raised | ManifestRaised

  // ---------- verification of the chain ----------

  function HashOf<E>(codec: Codec<E>, e: E): string {
    codec.fp(codec.canon(e))
  }

  ghost predicate ChainAt<E>(codec: Codec<E>, rs: seq<Record<E>>, i: nat)
    requires i < |rs|
  {
    && rs[i].previousHash == (if i == 0 then "" else rs[i - 1].recordHash)
    && rs[i].recordHash == HashOf(codec, rs[i].event)
  }

  ghost predicate Verifies<E>(codec: Codec<E>, rs: seq<Record<E>>) {
    forall i :: 0 <= i < |rs| ==> ChainAt(codec, rs, i)
  }

  function Head<E>(rs: seq<Record<E>>): string {
    if rs == [] then "" else rs[|rs| - 1].recordHash
  }

  /** The record that `append` writes after `rs`. */
  function Next<E>(codec: Codec<E>, rs: seq<Record<E>>, id: string, event: E, now: int): Record<E> {
    Record(id, now, event, Head(rs), HashOf(codec, event))
  }

  /** The record as every later read returns it. */
  function AsRead<E>(codec: Codec<E>, r: Record<E>): Record<E> {
    r.(event := codec.readBack(r.event))
  }

  /** The hash of the event survives writing and reading. */
  predicate Preserved<E>(codec: Codec<E>, e: E) {
    HashOf(codec, codec.readBack(e)) == HashOf(codec, e)
  }

  /** With an injective fingerprint that is a matter of the canonical text. */
  lemma PreservedText<E>(codec: Codec<E>, e: E)
    requires forall s, t :: codec.fp(s) == codec.fp(t) ==> s == t
    ensures Preserved(codec, e) <==> codec.canon(codec.readBack(e)) == codec.canon(e)
  {
  }

  /** The exact condition: after an append the file verifies if and only if the event is preserved. */
  lemma AppendVerifiesExactly<E>(codec: Codec<E>, rs: seq<Record<E>>, id: string, event: E, now: int)
    requires Verifies(codec, rs)
    ensures Verifies(codec, rs + [AsRead(codec, Next(codec, rs, id, event, now))]) <==> Preserved(codec, event)
  {
    var ys := rs + [AsRead(codec, Next(codec, rs, id, event, now))];
    forall i | 0 <= i < |rs|
      ensures ChainAt(codec, ys, i)
    {
      assert ChainAt(codec, rs, i);
    }
    assert Verifies(codec, ys) <==> ChainAt(codec, ys, |rs|);
  }

  // ---------- the archive object ----------

  /** Record `i` of the file was written for event `i` of the history. */
  ghost predicate WrittenAt<E>(codec: Codec<E>, file: seq<Record<E>>, replaced: seq<E>, i: nat)
    requires i < |file| == |replaced|
  {
    && file[i].event == codec.readBack(replaced[i]) && file[i].recordHash == HashOf(codec, replaced[i])
    && file[i].previousHash == (if i == 0 then "" else file[i - 1].recordHash)
  }

  ghost predicate Holds<E>(codec: Codec<E>, file: seq<Record<E>>, replaced: seq<E>) {
    |file| == |replaced| && forall i :: 0 <= i < |file| ==> WrittenAt(codec, file, replaced, i)
  }

  ghost predicate AllPreserved<E>(codec: Codec<E>, events: seq<E>) {
    forall i :: 0 <= i < |events| ==> Preserved(codec, events[i])
  }

  /** The archive verifies if and only if every event that reached the file is preserved. */
  lemma VerifiesExactly<E>(codec: Codec<E>, file: seq<Record<E>>, replaced: seq<E>)
    requires Holds(codec, file, replaced)
    ensures Verifies(codec, file) <==> AllPreserved(codec, replaced)
  {
    forall i | 0 <= i < |file|
      ensures ChainAt(codec, file, i) <==> Preserved(codec, replaced[i])
    {
      assert WrittenAt(codec, file, replaced, i);
    }
  }

  lemma HoldsNext<E>(codec: Codec<E>, file: seq<Record<E>>, replaced: seq<E>, id: string, event: E, now: int)
    requires Holds(codec, file, replaced)
    ensures Holds(codec, file + [AsRead(codec, Next(codec, file, id, event, now))], replaced + [event])
  {
    var file', replaced' := file + [AsRead(codec, Next(codec, file, id, event, now))], replaced + [event];
    forall i | 0 <= i < |file'|
      ensures WrittenAt(codec, file', replaced', i)
    {
      assert i < |file| ==> WrittenAt(codec, file, replaced, i);
    }
  }

  class EvidenceArchive<E> {
    const codec: Codec<E>
    var file: seq<Record<E>>
    var temp: Option<seq<Record<E>>>
    var manifestCount: nat
    ghost var replaced: seq<E>  // the events whose append reached the replace, in order

    /**
     * The file holds exactly the events that reached the replace, in order, and all of them but the last
     * are preserved.
     */
    ghost predicate Valid()
      reads this
    {
      && Holds(codec, file, replaced) && manifestCount <= |file|
      && (replaced != [] ==> AllPreserved(codec, replaced[..|replaced| - 1]))
    }

    constructor (codec: Codec<E>)
      ensures Valid() && this.codec == codec && file == [] && replaced == []
    {
      this.codec := codec;
      file, temp, manifestCount := [], None, 0;
      replaced := [];
    }

    /** `_records`: scan with a running previous hash; `false` is the ValueError. */
    method Verify() returns (ok: bool)
      ensures ok <==> Verifies(codec, file)
    {
      var previousHash := "";
      for i := 0 to |file|
        invariant Verifies(codec, file[..i]) && previousHash == Head(file[..i])
      {
        assert file[..i + 1][..i] == file[..i];
        if file[i].previousHash != previousHash || file[i].recordHash != HashOf(codec, file[i].event) {
          assert !ChainAt(codec, file, i);
          return false;
        }
        ghost var longer := file[..i + 1];
        forall k | 0 <= k < |longer|
          ensures ChainAt(codec, longer, k)
        {
          assert k < i ==> ChainAt(codec, file[..i], k);
        }
        previousHash := file[i].recordHash;
      }
      assert file[..|file|] == file;
      return true;
    }

    /** `atomic_write`: the target changes at the replace or not at all. */
    method AtomicWrite(content: seq<Record<E>>, fate: Fate) returns (done: bool)
      modifies this`file, this`temp
      ensures done <==> fate.Survives? || fate.DiesBeforeManifest?
      ensures file == if done then content else old(file)
      ensures done || fate.WriterRaises? ==> temp == None
    {
      match fate {
        case WriterRaises =>
          temp := None;
          return false;
        case DiesWritingTemp(written) =>
          temp := Some(if written < |content| then content[..written] else content);
          return false;
        case DiesBeforeReplace =>
          temp := Some(content);
          return false;
        case _ =>
          temp := Some(content);
          file := content;
          temp := None;
          return true;
      }
    }

    /**
     * `append`, for every fate; `valid` is the verdict of the envelope validation.  An event that is not
     * preserved reaches the file, and then the manifest, which reads the file, raises.
     */
    method Append(id: string, event: E, valid: bool, now: int, fate: Fate) returns (outcome: Outcome<E>)
      requires Valid()
      modifies this
      ensures Valid()
      ensures var reaches := valid && AllPreserved(codec, old(replaced)) && (fate.Survives? || fate.DiesBeforeManifest?);
              && file == (if reaches then old(file) + [AsRead(codec, Next(codec, old(file), id, event, now))] else old(file))
              && replaced == (if reaches then old(replaced) + [event] else old(replaced))
      ensures outcome == Invalid <==> !valid
      ensures outcome == Corrupt <==> valid && !AllPreserved(codec, old(replaced))
      ensures valid && AllPreserved(codec, old(replaced)) && fate.Survives? ==>
                outcome == if Preserved(codec, event) then Appended(Next(codec, old(file), id, event, now)) else ManifestRaised
      ensures outcome.Appended? ==>
                var previous := if old(file) == [] then "" else old(file)[|old(file)| - 1].recordHash;
                outcome.record == Record(id, now, event, previous, codec.fp(codec.canon(event)))
      ensures manifestCount == if outcome.Appended? then |file| else old(manifestCount)
      ensures Verifies(codec, file) <==> AllPreserved(codec, replaced)
    {
      hide Holds, Verifies, Next, AsRead, Preserved;
      VerifiesExactly(codec, file, replaced);
      if !valid {
        return Invalid;
      }
      var intact := Verify();
      if !intact {
        return Corrupt;
      }
      var record := Next(codec, file, id, event, now);
      NextMeans(codec, file, id, event, now);
      HoldsNext(codec, file, replaced, id, event, now);
      AllPreservedNext(codec, replaced, event);
      var done := AtomicWrite(file + [AsRead(codec, record)], fate);
      if !done {
        return if fate.WriterRaises? then Raised else Died;
      }
      HoldsLength(codec, old(file), replaced);
      replaced := replaced + [event];
      VerifiesExactly(codec, file, replaced);
      assert replaced[..|replaced| - 1] == old(replaced);
      if fate.DiesBeforeManifest? {
        return Died;
      }
      var readable := Verify();
      if !readable {
        return ManifestRaised;
      }
      manifestCount := |file|;
      return Appended(record);
    }
  }

  /** A record links to the last one and hashes the canonical text of its event. */
  lemma NextMeans<E>(codec: Codec<E>, rs: seq<Record<E>>, id: string, event: E, now: int)
    ensures Next(codec, rs, id, event, now)
         == Record(id, now, event, if rs == [] then "" else rs[|rs| - 1].recordHash, codec.fp(codec.canon(event)))
  {
  }

  lemma AllPreservedNext<E>(codec: Codec<E>, events: seq<E>, e: E)
    ensures AllPreserved(codec, events + [e]) <==> AllPreserved(codec, events) && Preserved(codec, e)
  {
    forall i | 0 <= i < |events + [e]|
      ensures (events + [e])[i] == if i < |events| then events[i] else e
    {
    }
    if AllPreserved(codec, events + [e]) {
      forall i | 0 <= i < |events|
        ensures Preserved(codec, events[i])
      {
        assert Preserved(codec, (events + [e])[i]);
      }
      assert Preserved(codec, (events + [e])[|events|]);
    }
  }

  lemma HoldsLength<E>(codec: Codec<E>, file: seq<Record<E>>, replaced: seq<E>)
    requires Holds(codec, file, replaced)
    ensures |file| == |replaced|
  {
  }

  // ---------- what verification guarantees ----------

  ghost predicate DrawnFrom<E(!new)>(xs: seq<Record<E>>, rs: seq<Record<E>>) {
    forall x :: x in xs ==> x in rs
  }

  ghost predicate DistinctHashes<E(!new)>(rs: seq<Record<E>>) {
    forall i, j :: 0 <= i < j < |rs| ==> rs[i].recordHash != rs[j].recordHash
  }

  /** Every verifying list of archive records, repeats allowed, is a prefix of the archive. */
  ghost predicate TamperEvident<E(!new)>(codec: Codec<E>, rs: seq<Record<E>>) {
    forall xs :: DrawnFrom(xs, rs) && Verifies(codec, xs) ==> xs <= rs
  }

  lemma {:induction false} VerifyingListIsPrefix<E(!new)>(codec: Codec<E>, rs: seq<Record<E>>, xs: seq<Record<E>>)
    requires Verifies(codec, rs) && DistinctHashes(rs) && (forall text :: codec.fp(text) != "")
    requires DrawnFrom(xs, rs) && Verifies(codec, xs)
    ensures xs <= rs
  {
    if xs != [] {
      var k := |xs| - 1;
      var front := xs[..k];
      forall i | 0 <= i < |front|
        ensures ChainAt(codec, front, i)
      {
        assert ChainAt(codec, xs, i);
      }
      VerifyingListIsPrefix(codec, rs, front);
      assert xs[k] in rs;
      var j :| 0 <= j < |rs| && rs[j] == xs[k];
      assert ChainAt(codec, xs, k) && ChainAt(codec, rs, j);
      if j > 0 {
        assert ChainAt(codec, rs, j - 1);
      }
      if k > 0 {
        assert xs[k - 1] == front[k - 1] == rs[k - 1];
        assert ChainAt(codec, xs, k - 1);
      }
    }
  }

  /** Splicing record `i + 1` after a record with the hash of record `i` still verifies. */
  lemma SpliceVerifies<E(!new)>(codec: Codec<E>, rs: seq<Record<E>>, i: nat, j: nat)
    requires Verifies(codec, rs) && i < j < |rs| && rs[i].recordHash == rs[j].recordHash
    ensures Verifies(codec, rs[..j + 1] + [rs[i + 1]]) && DrawnFrom(rs[..j + 1] + [rs[i + 1]], rs)
  {
    var xs := rs[..j + 1] + [rs[i + 1]];
    assert ChainAt(codec, rs, i + 1);
    forall k | 0 <= k < |xs|
      ensures ChainAt(codec, xs, k)
    {
      assert k <= j ==> ChainAt(codec, rs, k);
    }
  }

  lemma {:induction false} RepeatedHashSplices<E(!new)>(codec: Codec<E>, rs: seq<Record<E>>, i: nat, j: nat)
    requires Verifies(codec, rs) && i < j < |rs| && rs[i].recordHash == rs[j].recordHash
    ensures !TamperEvident(codec, rs)
    decreases |rs| - j
  {
    var xs := rs[..j + 1] + [rs[i + 1]];
    SpliceVerifies(codec, rs, i, j);
    if xs <= rs {
      assert rs[j + 1] == xs[j + 1] == rs[i + 1];
      RepeatedHashSplices(codec, rs, i + 1, j + 1);
    }
  }

  /**
   * The exact strength of the chain.  The hash covers the event alone, so the archive is tamper
   * evident if and only if no two of its records share a hash.
   */
  lemma TamperEvidentExactly<E(!new)>(codec: Codec<E>, rs: seq<Record<E>>)
    requires Verifies(codec, rs) && (forall text :: codec.fp(text) != "")
    ensures TamperEvident(codec, rs) <==> DistinctHashes(rs)
  {
    if DistinctHashes(rs) {
      forall xs | DrawnFrom(xs, rs) && Verifies(codec, xs)
        ensures xs <= rs
      {
        VerifyingListIsPrefix(codec, rs, xs);
      }
    } else {
      var i, j :| 0 <= i < j < |rs| && rs[i].recordHash == rs[j].recordHash;
      RepeatedHashSplices(codec, rs, i, j);
    }
  }

  /** With an injective fingerprint, that means events with distinct canonical texts. */
  lemma DistinctEventsTamperEvident<E(!new)>(codec: Codec<E>, rs: seq<Record<E>>)
    requires Verifies(codec, rs) && (forall text :: codec.fp(text) != "") && (forall s, t :: codec.fp(s) == codec.fp(t) ==> s == t)
    ensures TamperEvident(codec, rs) <==> forall i, j :: 0 <= i < j < |rs| ==> codec.canon(rs[i].event) != codec.canon(rs[j].event)
  {
    forall i | 0 <= i < |rs|
      ensures rs[i].recordHash == HashOf(codec, rs[i].event)
    {
      assert ChainAt(codec, rs, i);
    }
    TamperEvidentExactly(codec, rs);
  }

  /** Archiving an event twice is enough to lose it: the second record can be repeated at the end. */
  lemma RepeatedEventSplices<E(!new)>(codec: Codec<E>, first: string, second: string, e: E, n1: int, n2: int)
    requires Preserved(codec, e)
    ensures var one := [AsRead(codec, Next(codec, [], first, e, n1))];
            var rs := one + [AsRead(codec, Next(codec, one, second, e, n2))];
            && Verifies(codec, rs) && Verifies(codec, rs + [rs[1]]) && DrawnFrom(rs + [rs[1]], rs) && !TamperEvident(codec, rs)
  {
    var one := [AsRead(codec, Next(codec, [], first, e, n1))];
    var rs := one + [AsRead(codec, Next(codec, one, second, e, n2))];
    AppendVerifiesExactly(codec, [], first, e, n1);
    assert [] + one == one;
    AppendVerifiesExactly(codec, one, second, e, n2);
    SpliceVerifies(codec, rs, 0, 1);
    assert rs[..2] + [rs[0 + 1]] == rs + [rs[1]];
    assert !(rs + [rs[1]] <= rs);
  }

  // ---------- an event that is not preserved ----------

  /** A two-entry object inside an event, with integer or with text keys. */
  datatype Nested = IntKeys(a: nat, b: nat) | TextKeys(c: string, d: string)

  function Digits(n: nat): string {
    if n < 10 then ["0123456789"[n]] else Digits(n / 10) + ["0123456789"[n % 10]]
  }

  predicate TextBefore(s: string, t: string) {
    t != [] && (s == [] || s[0] < t[0] || (s[0] == t[0] && TextBefore(s[1..], t[1..])))
  }

  function Line(first: string, second: string): string {
    "{" + first + ":1," + second + ":1}"
  }

  /** `canonical_json`: keys are sorted as they are, and integer keys are written as text. */
  function CanonNested(e: Nested): string {
    match e
    case IntKeys(a, b) => if a < b then Line(Digits(a), Digits(b)) else Line(Digits(b), Digits(a))
    case TextKeys(c, d) => if TextBefore(c, d) then Line(c, d) else Line(d, c)
  }

  function ReadNested(e: Nested): Nested {
    match e
    case IntKeys(a, b) => TextKeys(Digits(a), Digits(b))
    case TextKeys(_, _) => e
  }

  lemma LineStarts(first: string, second: string)
    requires first != []
    ensures |Line(first, second)| > 1 && Line(first, second)[1] == first[0]
  {
  }

  /** The keys 9 and 10 are written in this order, and read back the text "10" comes before "9". */
  lemma IntegerKeysBreakArchive(fp: string -> string, id: string, now: int)
    requires forall s, t :: fp(s) == fp(t) ==> s == t
    ensures var codec := Codec(CanonNested, ReadNested, fp);
            var rs := [AsRead(codec, Next(codec, [], id, IntKeys(9, 10), now))];
            !Preserved(codec, IntKeys(9, 10)) && !Verifies(codec, rs)
  {
    var codec := Codec(CanonNested, ReadNested, fp);
    assert Digits(9) == "9" && Digits(10) == Digits(1) + "0" && Digits(1) == "1";
    assert "1" + "0" == "10";
    assert CanonNested(IntKeys(9, 10)) == Line("9", "10") && CanonNested(TextKeys("9", "10")) == Line("10", "9");
    LineStarts("9", "10");
    LineStarts("10", "9");
    PreservedText(codec, IntKeys(9, 10));
    var rs := [AsRead(codec, Next(codec, [], id, IntKeys(9, 10), now))];
    AppendVerifiesExactly(codec, [], id, IntKeys(9, 10), now);
    assert [] + rs == rs;
  }
}
