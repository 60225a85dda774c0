/** Word alignment: the two-row table returns the cheapest edit script's cost
    and the counts of one real script with that cost. */
module EditDistance {
  import opened Outcomes

  const MAX_ALIGNMENT_CELLS := 12_000_000

  datatype Edit = Match | Substitute | Delete | Insert

  /** One table entry: a cost and the substitutions, deletions and insertions
      behind it. */
  datatype Cell = Cell(cost: nat, subs: nat, dels: nat, ins: nat)

  datatype Report = Report(
    referenceWords: nat, hypothesisWords: nat, matches: int, substitutions: nat,
    deletions: nat, insertions: nat, errors: nat, wer: Option<real>)

  /** The script turns the reference into the hypothesis. Substituting a word by
      itself is allowed, so that minimality is over more scripts. */
  ghost predicate Edits<T>(script: seq<Edit>, ref: seq<T>, hyp: seq<T>)
    decreases |script|
  {
    var n, r, h := |script| - 1, |ref| - 1, |hyp| - 1;
    if script == [] then ref == [] && hyp == []
    else match script[n]
      case Match => 0 <= r && 0 <= h && ref[r] == hyp[h] && Edits(script[..n], ref[..r], hyp[..h])
      case Substitute => 0 <= r && 0 <= h && Edits(script[..n], ref[..r], hyp[..h])
      case Delete => 0 <= r && Edits(script[..n], ref[..r], hyp)
      case Insert => 0 <= h && Edits(script[..n], ref, hyp[..h])
  }

  ghost function Count(script: seq<Edit>, kind: Edit): nat
  {
    if script == [] then 0
    else Count(script[..|script| - 1], kind) + if script[|script| - 1] == kind then 1 else 0
  }

  ghost function Cost(script: seq<Edit>): nat
  {
    Count(script, Substitute) + Count(script, Delete) + Count(script, Insert)
  }

  /** The entry's counts are those of one script. */
  ghost predicate Describes<T>(script: seq<Edit>, cell: Cell, ref: seq<T>, hyp: seq<T>)
  {
    && Edits(script, ref, hyp)
    && cell == Cell(Cost(script), Count(script, Substitute), Count(script, Delete), Count(script, Insert))
  }

  ghost predicate Real<T>(cell: Cell, ref: seq<T>, hyp: seq<T>)
  {
    exists script :: Describes(script, cell, ref, hyp)
  }

  /** No script is cheaper than the entry. */
  ghost predicate Least<T(!new)>(cost: nat, ref: seq<T>, hyp: seq<T>)
  {
    forall script :: Edits(script, ref, hyp) ==> cost <= Cost(script)
  }

  ghost predicate Best<T(!new)>(cell: Cell, ref: seq<T>, hyp: seq<T>)
  {
    Real(cell, ref, hyp) && Least(cell.cost, ref, hyp)
  }

  // Every script's counts account for every word on both sides.
  lemma {:induction false} CountsAddUp<T>(script: seq<Edit>, ref: seq<T>, hyp: seq<T>)
    requires Edits(script, ref, hyp)
    ensures |ref| == Count(script, Match) + Count(script, Substitute) + Count(script, Delete)
    ensures |hyp| == Count(script, Match) + Count(script, Substitute) + Count(script, Insert)
    decreases |script|
  {
    if script != [] {
      var n, r, h := |script| - 1, |ref| - 1, |hyp| - 1;
      match script[n]
      case Match => CountsAddUp(script[..n], ref[..r], hyp[..h]);
      case Substitute => CountsAddUp(script[..n], ref[..r], hyp[..h]);
      case Delete => CountsAddUp(script[..n], ref[..r], hyp);
      case Insert => CountsAddUp(script[..n], ref, hyp[..h]);
    }
  }

  function Charge(cell: Cell, edit: Edit): Cell
  {
    match edit
    case Match => cell
    case Substitute => cell.(cost := cell.cost + 1, subs := cell.subs + 1)
    case Delete => cell.(cost := cell.cost + 1, dels := cell.dels + 1)
    case Insert => cell.(cost := cell.cost + 1, ins := cell.ins + 1)
  }

  lemma {:induction false} ExtendReal<T>(cell: Cell, edit: Edit, ref0: seq<T>, hyp0: seq<T>, ref: seq<T>, hyp: seq<T>)
    requires Real(cell, ref0, hyp0)
    requires edit != Insert ==> ref != [] && ref0 == ref[..|ref| - 1]
    requires edit == Insert ==> ref0 == ref
    requires edit != Delete ==> hyp != [] && hyp0 == hyp[..|hyp| - 1]
    requires edit == Delete ==> hyp0 == hyp
    requires edit == Match ==> ref[|ref| - 1] == hyp[|hyp| - 1]
    ensures Real(Charge(cell, edit), ref, hyp)
  {
    var script :| Describes(script, cell, ref0, hyp0);
    var longer := script + [edit];
    assert longer[..|longer| - 1] == script;
    assert Describes(longer, Charge(cell, edit), ref, hyp);
  }

  /** An entry no dearer than its three neighbours allow is least. */
  lemma {:induction false} ExtendLeast<T(!new)>(ref: seq<T>, hyp: seq<T>, diagonal: nat, above: nat, left: nat, cost: nat)
    requires ref != [] && hyp != []
    requires Least(diagonal, ref[..|ref| - 1], hyp[..|hyp| - 1])
    requires Least(above, ref[..|ref| - 1], hyp)
    requires Least(left, ref, hyp[..|hyp| - 1])
    requires cost <= above + 1 && cost <= left + 1
    requires cost <= diagonal + if ref[|ref| - 1] == hyp[|hyp| - 1] then 0 else 1
    ensures Least(cost, ref, hyp)
  {
    forall script | Edits(script, ref, hyp) ensures cost <= Cost(script) {
      var before := script[..|script| - 1];
      match script[|script| - 1]
      case Match => assert diagonal <= Cost(before);
      case Substitute => assert diagonal <= Cost(before);
      case Delete => assert above <= Cost(before);
      case Insert => assert left <= Cost(before);
    }
  }

  lemma {:induction false} FirstRow<T(!new)>(hyp: seq<T>)
    ensures Best(Cell(|hyp|, 0, 0, |hyp|), [], hyp)
  {
    if hyp == [] {
      assert Describes([], Cell(0, 0, 0, 0), [], hyp);
    } else {
      var h := |hyp| - 1;
      FirstRow(hyp[..h]);
      ExtendReal(Cell(h, 0, 0, h), Insert, [], hyp[..h], [], hyp);
      forall script | Edits(script, [], hyp) ensures |hyp| <= Cost(script) { CountsAddUp(script, [], hyp); }
    }
  }

  lemma {:induction false} FirstColumn<T(!new)>(ref: seq<T>)
    ensures Best(Cell(|ref|, 0, |ref|, 0), ref, [])
  {
    if ref == [] {
      assert Describes([], Cell(0, 0, 0, 0), ref, []);
    } else {
      var r := |ref| - 1;
      FirstColumn(ref[..r]);
      ExtendReal(Cell(r, 0, r, 0), Delete, ref[..r], [], ref, []);
      forall script | Edits(script, ref, []) ensures |ref| <= Cost(script) { CountsAddUp(script, ref, []); }
    }
  }

  /** The cheapest of the three continuations; ties go to the diagonal, then to
      the deletion. */
  function Cheapest(diagonal: Cell, deletion: Cell, insertion: Cell): (r: Cell)
    ensures r.cost <= diagonal.cost && r.cost <= deletion.cost && r.cost <= insertion.cost
    ensures r == diagonal || (r.cost < diagonal.cost && (r == deletion || (r.cost < deletion.cost && r == insertion)))
  {
    if diagonal.cost <= deletion.cost && diagonal.cost <= insertion.cost then diagonal
    else if deletion.cost <= insertion.cost then deletion
    else insertion
  }

  lemma {:induction false} NextCell<T(!new)>(ref: seq<T>, hyp: seq<T>, corner: Cell, above: Cell, left: Cell)
    requires ref != [] && hyp != []
    requires Best(corner, ref[..|ref| - 1], hyp[..|hyp| - 1])
    requires Best(above, ref[..|ref| - 1], hyp)
    requires Best(left, ref, hyp[..|hyp| - 1])
    ensures var change := if ref[|ref| - 1] == hyp[|hyp| - 1] then Match else Substitute;
            Best(Cheapest(Charge(corner, change), Charge(above, Delete), Charge(left, Insert)), ref, hyp)
  {
    var r, h := |ref| - 1, |hyp| - 1;
    var change := if ref[r] == hyp[h] then Match else Substitute;
    ExtendReal(corner, change, ref[..r], hyp[..h], ref, hyp);
    ExtendReal(above, Delete, ref[..r], hyp, ref, hyp);
    ExtendReal(left, Insert, ref, hyp[..h], ref, hyp);
    var best := Cheapest(Charge(corner, change), Charge(above, Delete), Charge(left, Insert));
    ExtendLeast(ref, hyp, corner.cost, above.cost, left.cost, best.cost);
  }

  /** Row i of the table: entry j aligns ref with the first j hypothesis words. */
  ghost predicate Row<T(!new)>(row: seq<Cell>, ref: seq<T>, hyp: seq<T>)
  {
    |row| <= |hyp| + 1 && forall j :: 0 <= j < |row| ==> Best(row[j], ref, hyp[..j])
  }

  method NextRow<T(==, !new)>(row: seq<Cell>, reference: seq<T>, i: nat, hypothesis: seq<T>) returns (current: seq<Cell>)
    requires i < |reference| && |row| == |hypothesis| + 1
    requires Row(row, reference[..i], hypothesis)
    ensures |current| == |hypothesis| + 1 && Row(current, reference[..i + 1], hypothesis)
  {
    ghost var ref := reference[..i + 1];
    assert ref[..|ref| - 1] == reference[..i];
    current := [Cell(i + 1, 0, i + 1, 0)];
    FirstColumn(ref);
    assert hypothesis[..0] == [];
    for j := 1 to |hypothesis| + 1
      invariant |current| == j && Row(current, ref, hypothesis)
    {
      ghost var hyp := hypothesis[..j];
      assert hyp[..|hyp| - 1] == hypothesis[..j - 1];
      NextCell(ref, hyp, row[j - 1], row[j], current[j - 1]);
      var diagonal := Charge(row[j - 1], if reference[i] == hypothesis[j - 1] then Match else Substitute);
      var deletion := Charge(row[j], Delete);
      var insertion := Charge(current[j - 1], Insert);
      current := current + [Cheapest(diagonal, deletion, insertion)];
    }
  }

  lemma {:induction false} BestAddsUp<T(!new)>(cell: Cell, ref: seq<T>, hyp: seq<T>)
    requires Best(cell, ref, hyp)
    ensures cell.cost == cell.subs + cell.dels + cell.ins
    ensures |ref| - cell.subs - cell.dels == |hyp| - cell.subs - cell.ins >= 0
  {
    var script :| Describes(script, cell, ref, hyp);
    CountsAddUp(script, ref, hyp);
  }

  /** Row after row of the table, keeping only the last two. */
  method Align<T(==, !new)>(reference: seq<T>, hypothesis: seq<T>) returns (last: Cell)
    ensures Best(last, reference, hypothesis)
  {
    hide Best;
    var row := [];
    for n := 0 to |hypothesis| + 1
      invariant |row| == n && Row(row, reference[..0], hypothesis)
    {
      FirstRow(hypothesis[..n]);
      assert reference[..0] == [];
      row := row + [Cell(n, 0, 0, n)];
    }
    for i := 0 to |reference|
      invariant |row| == |hypothesis| + 1 && Row(row, reference[..i], hypothesis)
    {
      row := NextRow(row, reference, i, hypothesis);
    }
    last := row[|hypothesis|];
    assert reference[..|reference|] == reference && hypothesis[..|hypothesis|] == hypothesis;
  }

  /** Word errors of a hypothesis, refused past the work limit. */
  method EditCounts<T(==, !new)>(reference: seq<T>, hypothesis: seq<T>, limit: Option<int>) returns (r: Result<Report>)
    ensures r.Err? <==> |reference| * |hypothesis| > (if limit.None? then MAX_ALIGNMENT_CELLS else limit.value)
    ensures r.Ok? ==>
              var out := r.value;
              && out.referenceWords == |reference| == out.matches + out.substitutions + out.deletions
              && out.hypothesisWords == |hypothesis| == out.matches + out.substitutions + out.insertions
              && out.errors == out.substitutions + out.deletions + out.insertions
              && Best(Cell(out.errors, out.substitutions, out.deletions, out.insertions), reference, hypothesis)
              && (out.wer.None? <==> reference == [])
              && (out.wer.Some? ==> out.wer.value * |reference| as real == out.errors as real)
  {
    hide Best;
    if |reference| * |hypothesis| > (if limit.None? then MAX_ALIGNMENT_CELLS else limit.value) {
      return Err("scoring alignment exceeds the documented work limit");
    }
    var last := Align(reference, hypothesis);
    BestAddsUp(last, reference, hypothesis);
    var wer := if reference == [] then None else Some(last.cost as real / |reference| as real);
    return Ok(Report(|reference|, |hypothesis|, |reference| - last.subs - last.dels,
                     last.subs, last.dels, last.ins, last.cost, wer));
  }
}
