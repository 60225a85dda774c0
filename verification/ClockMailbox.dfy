/** The clock mailbox: one writer publishes eight words behind a version, readers
    take one attempt each, and every atomic store and load is a step of its own. */
module ClockMailbox {
  import opened Outcomes

  const WORDS: nat := 8
  const SEQUENCE_WORD: nat := 6
  const TWO_64: nat := 0x1_0000_0000_0000_0000

  /** Publications after which the version would repeat. */
  const LIMIT: nat := 0x8000_0000_0000_0000

  type Words = seq<nat>

  /** One attempt: the version it started from and the words loaded so far. */
  datatype Reader = Resting | Loading(before: nat, values: Words)

  /** `stored` words of the newest publication are in place. */
  datatype Writer = Quiet | Storing(stored: nat)

  /** The two shared cells, both sides' positions, everything handed to `publish`
      so far (its last entry possibly in progress) and everything read. */
  datatype Mailbox = Mailbox(
    version: nat, fields: Words, writer: Writer, published: seq<Words>, readers: seq<Reader>, taken: seq<seq<Words>>)

  datatype Step = BeginPublish(words: Words) | StoreNext | BeginRead(reader: nat) | LoadNext(reader: nat)

  /** Version words of publication number n, as 64-bit arithmetic gives them. */
  function Closed(n: nat): nat { (2 * n) % TWO_64 }

  function Open(n: nat): nat { (2 * n - 1) % TWO_64 }

  function Start(readers: nat): Mailbox
  {
    Mailbox(0, [0, 0, 0, 0, 0, 0, 0, 0], Quiet, [], seq(readers, i => Resting), seq(readers, i => []))
  }

  /** A publication carries its own number, counting from one. */
  predicate Numbered(words: Words, n: nat)
  {
    |words| == WORDS && words[SEQUENCE_WORD] == n
  }

  /** Store one word, or close the version once all are stored. */
  function Store(m: Mailbox): Mailbox
    requires m.writer.Storing? && m.published != [] && |m.fields| == WORDS
    requires |m.published[|m.published| - 1]| == WORDS
  {
    var words := m.published[|m.published| - 1];
    var k := m.writer.stored;
    if k < WORDS then m.(fields := m.fields[k := words[k]], writer := Storing(k + 1))
    else m.(version := Closed(|m.published|), writer := Quiet)
  }

  /** Load one word, or compare the version and finish the attempt. */
  function Load(m: Mailbox, i: nat): Mailbox
    requires i < |m.readers| == |m.taken| && m.readers[i].Loading? && |m.fields| == WORDS
  {
    var r := m.readers[i];
    if |r.values| < WORDS then
      m.(readers := m.readers[i := Loading(r.before, r.values + [m.fields[|r.values|]])])
    else if m.version == r.before then
      m.(readers := m.readers[i := Resting], taken := m.taken[i := m.taken[i] + [r.values]])
    else m.(readers := m.readers[i := Resting])
  }

  function Attempt(m: Mailbox, i: nat): Mailbox
    requires i < |m.readers|
  {
    if m.version == 0 || m.version % 2 != 0 then m
    else m.(readers := m.readers[i := Loading(m.version, [])])
  }

  function Exec(m: Mailbox, step: Step): Mailbox
    requires Shape(m)
  {
    match step
    case BeginPublish(words) =>
      if m.writer.Quiet? && Numbered(words, |m.published| + 1) && |m.published| + 1 < LIMIT then
        m.(version := Open(|m.published| + 1), published := m.published + [words], writer := Storing(0))
      else m
    case StoreNext => if m.writer.Storing? then Store(m) else m
    case BeginRead(i) => if i < |m.readers| && m.readers[i].Resting? then Attempt(m, i) else m
    case LoadNext(i) => if i < |m.readers| && m.readers[i].Loading? then Load(m, i) else m
  }

  // ---------------------------------------------------------------- invariant

  ghost predicate Shape(m: Mailbox)
  {
    && |m.fields| == WORDS && |m.readers| == |m.taken|
    && (m.writer.Storing? ==> m.published != [] && m.writer.stored <= WORDS)
    && AllNumbered(m.published)
  }

  ghost predicate AllNumbered(published: seq<Words>)
  {
    forall n :: 0 <= n < |published| ==> Numbered(published[n], n + 1)
  }

  /** The version tells how far the writer is; a quiet mailbox holds exactly the
      last publication. */
  ghost predicate WriterOk(m: Mailbox)
    requires Shape(m)
  {
    var n := |m.published|;
    && n < LIMIT
    && (m.writer.Quiet? ==> m.version == 2 * n && (n > 0 ==> m.fields == m.published[n - 1]))
    && (m.writer.Storing? ==>
          m.version == 2 * n - 1 && forall k :: 0 <= k < m.writer.stored ==> m.fields[k] == m.published[n - 1][k])
  }

  /** What was loaded is part of one publication for as long as the version has
      not moved on. */
  ghost predicate LoadOk(version: nat, published: seq<Words>, r: Reader)
    requires AllNumbered(published)
  {
    r.Loading? ==>
      && r.before % 2 == 0 && 0 < r.before <= version && r.before / 2 <= |published| && |r.values| <= WORDS
      && (r.before == version ==> r.values == published[r.before / 2 - 1][..|r.values|])
  }

  /** Everything taken is one whole publication, in order, none newer than an
      attempt under way. */
  ghost predicate TakenOk(version: nat, published: seq<Words>, r: Reader, taken: seq<Words>)
  {
    && (forall j :: 0 <= j < |taken| ==>
          |taken[j]| == WORDS && 1 <= taken[j][SEQUENCE_WORD] <= |published| && taken[j] == published[taken[j][SEQUENCE_WORD] - 1])
    && (forall j :: 0 < j < |taken| ==> taken[j - 1][SEQUENCE_WORD] <= taken[j][SEQUENCE_WORD])
    && (taken != [] ==>
          && 2 * taken[|taken| - 1][SEQUENCE_WORD] <= version
          && (r.Loading? ==> 2 * taken[|taken| - 1][SEQUENCE_WORD] <= r.before))
  }

  ghost predicate ReaderOk(m: Mailbox, i: nat)
    requires Shape(m) && i < |m.readers|
  {
    LoadOk(m.version, m.published, m.readers[i]) && TakenOk(m.version, m.published, m.readers[i], m.taken[i])
  }

  ghost predicate Inv(m: Mailbox)
  {
    && Shape(m) && WriterOk(m)
    && (forall i :: 0 <= i < |m.readers| ==> ReaderOk(m, i))
  }

  lemma {:induction false} NoWrap(n: nat)
    requires 0 < n < LIMIT
    ensures Closed(n) == 2 * n && Open(n) == 2 * n - 1
  {
  }

  lemma {:induction false} StoreKeeps(m: Mailbox)
    requires Inv(m) && m.writer.Storing?
    ensures Inv(Store(m))
  {
    NoWrap(|m.published|);
    var next := Store(m);
    forall i | 0 <= i < |m.readers| ensures ReaderOk(next, i) {
      assert ReaderOk(m, i);
    }
  }

  lemma {:induction false} BeginPublishKeeps(m: Mailbox, words: Words)
    requires Inv(m)
    ensures Inv(Exec(m, BeginPublish(words)))
  {
    if |m.published| + 1 < LIMIT { NoWrap(|m.published| + 1); }
    var next := Exec(m, BeginPublish(words));
    forall i | 0 <= i < |m.readers| ensures ReaderOk(next, i) {
      assert ReaderOk(m, i);
    }
  }

  lemma {:induction false} AttemptKeeps(m: Mailbox, i: nat)
    requires Inv(m) && i < |m.readers| && m.readers[i].Resting?
    ensures Inv(Attempt(m, i))
  {
    var next := Attempt(m, i);
    assert ReaderOk(m, i) && ReaderOk(next, i);
    hide LoadOk, TakenOk;
    forall j | 0 <= j < |m.readers| ensures ReaderOk(next, j) {
      assert ReaderOk(m, j);
    }
  }

  /** A load while the version stands still reads the publication it names. */
  lemma {:induction false} LoadKeeps(m: Mailbox, i: nat)
    requires Inv(m) && i < |m.readers| && m.readers[i].Loading?
    ensures Inv(Load(m, i))
  {
    var next := Load(m, i);
    var r := m.readers[i];
    assert ReaderOk(m, i);
    assert ReaderOk(next, i) by {
      if r.before == m.version {
        var words := m.published[r.before / 2 - 1];
        assert m.fields == words;
        assert |r.values| == WORDS ==> r.values == words;
        assert |r.values| < WORDS ==> r.values + [words[|r.values|]] == words[..|r.values| + 1];
      }
    }
    hide LoadOk, TakenOk;
    forall j | 0 <= j < |m.readers| ensures ReaderOk(next, j) {
      assert ReaderOk(m, j);
    }
  }

  lemma {:induction false} StepKeeps(m: Mailbox, step: Step)
    requires Inv(m)
    ensures Inv(Exec(m, step))
  {
    match step
    case BeginPublish(words) => BeginPublishKeeps(m, words);
    case StoreNext => if m.writer.Storing? { StoreKeeps(m); }
    case BeginRead(i) => if i < |m.readers| && m.readers[i].Resting? { AttemptKeeps(m, i); }
    case LoadNext(i) => if i < |m.readers| && m.readers[i].Loading? { LoadKeeps(m, i); }
  }

  ghost function Run(readers: nat, steps: seq<Step>): (m: Mailbox)
    ensures Inv(m)
  {
    if steps == [] then Start(readers)
    else
      var before := Run(readers, steps[..|steps| - 1]);
      StepKeeps(before, steps[|steps| - 1]);
      Exec(before, steps[|steps| - 1])
  }

  /** In every interleaving, each reader only ever takes publications that were
      closed, whole, and never goes back to an earlier one. */
  lemma {:induction false} ReadsAreWholeAndMonotone(readers: nat, steps: seq<Step>, i: nat, j: nat, k: nat)
    requires i < |Run(readers, steps).taken|
    requires j <= k < |Run(readers, steps).taken[i]|
    ensures var m := Run(readers, steps);
            && m.version / 2 <= |m.published|
            && m.taken[i][j] in m.published[..m.version / 2] && m.taken[i][k] in m.published[..m.version / 2]
            && |m.taken[i][j]| == |m.taken[i][k]| == WORDS
            && m.taken[i][j][SEQUENCE_WORD] <= m.taken[i][k][SEQUENCE_WORD]
  {
    var m := Run(readers, steps);
    assert ReaderOk(m, i);
    hide Run;
    InOrder(m.version, m.published, m.readers[i], m.taken[i], j, k);
    TakenIsClosed(m, i, j);
    TakenIsClosed(m, i, k);
  }

  lemma {:induction false} TakenIsClosed(m: Mailbox, i: nat, j: nat)
    requires Inv(m) && i < |m.taken| && j < |m.taken[i]|
    ensures m.version / 2 <= |m.published| && m.taken[i][j] in m.published[..m.version / 2]
  {
    var taken := m.taken[i];
    assert ReaderOk(m, i);
    InOrder(m.version, m.published, m.readers[i], taken, j, |taken| - 1);
    var n := taken[j][SEQUENCE_WORD] - 1;
    assert taken[j] == m.published[n] && n < m.version / 2;
    assert m.published[..m.version / 2][n] == m.published[n];
  }

  lemma {:induction false} InOrder(version: nat, published: seq<Words>, r: Reader, taken: seq<Words>, j: nat, k: nat)
    requires TakenOk(version, published, r, taken) && j <= k < |taken|
    ensures taken[j][SEQUENCE_WORD] <= taken[k][SEQUENCE_WORD]
  {
    if j < k { InOrder(version, published, r, taken, j, k - 1); }
  }

  /** The same reader's next n loads, with nothing in between. */
  ghost function Loads(m: Mailbox, i: nat, n: nat): (r: Mailbox)
    requires Inv(m)
    ensures Inv(r)
  {
    if n == 0 then m
    else
      var before := Loads(m, i, n - 1);
      StepKeeps(before, LoadNext(i));
      Exec(before, LoadNext(i))
  }

  lemma {:induction false} LoadsSoFar(m: Mailbox, i: nat, n: nat)
    requires Inv(m) && i < |m.readers| && m.readers[i] == Loading(m.version, []) && n <= WORDS
    ensures Loads(m, i, n) == m.(readers := m.readers[i := Loading(m.version, m.fields[..n])])
  {
    assert Shape(m);
    hide Inv;
    if n == 0 {
      assert m.readers[i := m.readers[i]] == m.readers && m.fields[..0] == [];
    } else {
      var before := Loads(m, i, n - 1);
      assert Loads(m, i, n) == Exec(before, LoadNext(i));
      LoadsSoFar(m, i, n - 1);
      hide Loads, Shape;
      assert m.fields[..n - 1] + [m.fields[n - 1]] == m.fields[..n];
      assert before.readers[i := Loading(m.version, m.fields[..n])] == m.readers[i := Loading(m.version, m.fields[..n])];
    }
  }

  /** An attempt that no publication disturbs takes the newest one; an attempt
      made during a publication is put off. */
  lemma {:induction false} UndisturbedReadTakesTheNewest(m: Mailbox, i: nat)
    requires Inv(m) && i < |m.readers| && m.readers[i].Resting? && m.published != []
    ensures m.writer.Storing? ==> Exec(m, BeginRead(i)) == m
    ensures m.writer.Quiet? ==>
              && Inv(Exec(m, BeginRead(i)))
              && Loads(Exec(m, BeginRead(i)), i, WORDS + 1)
                 == m.(taken := m.taken[i := m.taken[i] + [m.published[|m.published| - 1]]])
  {
    if m.writer.Quiet? {
      var begun := Exec(m, BeginRead(i));
      StepKeeps(m, BeginRead(i));
      assert begun == m.(readers := m.readers[i := Loading(m.version, [])]);
      LoadsSoFar(begun, i, WORDS);
      assert m.fields[..WORDS] == m.fields == m.published[|m.published| - 1];
      hide Inv;
      var loaded := Loads(begun, i, WORDS);
      assert loaded.readers[i := Resting] == m.readers;
      assert Loads(begun, i, WORDS + 1) == Exec(loaded, LoadNext(i));
    }
  }
}
