/**
 A result set accumulated a page at a time: crates/sqlake-app/src/pages.rs.

 The pages are kept as they came. The reference is the flat sequence of rows.
 */
module Pages {
  import opened Wrappers

  /** A page as a driver answers it. */
  datatype ResultSet<Row> = ResultSet(columns: seq<string>, rows: seq<Row>, total: Option<nat>)

  datatype Paged<Row> = Paged(columns: seq<string>, pages: seq<seq<Row>>, rows: nat, total: Option<nat>)

  function Flat<Row>(pages: seq<seq<Row>>): seq<Row> {
    if pages == [] then [] else pages[0] + Flat(pages[1..])
  }

  /** What the accumulated pages hold: the rows of the relation so far. */
  function Rows<Row>(p: Paged<Row>): seq<Row> {
    Flat(p.pages)
  }

  /** The count kept beside the pages is their count, and only the first page may be empty. */
  predicate Sound<Row>(p: Paged<Row>) {
    && p.rows == |Rows(p)|
    && p.pages != []
    && forall i :: 1 <= i < |p.pages| ==> p.pages[i] != []
  }

  function New<Row>(result: ResultSet<Row>): Paged<Row> {
    Paged(result.columns, [result.rows], |result.rows|, result.total)
  }

  /** The same names in the same order; types may differ. */
  predicate SameColumns(a: seq<string>, b: seq<string>) {
    |a| == |b| && forall i :: 0 <= i < |a| ==> a[i] == b[i]
  }

  function Append<Row>(p: Paged<Row>, more: ResultSet<Row>): Option<Paged<Row>> {
    if !SameColumns(p.columns, more.columns) then None
    else
      Some(Paged(p.columns,
                 if more.rows == [] then p.pages else p.pages + [more.rows],
                 p.rows + |more.rows|,
                 if more.total.Some? then more.total else p.total))
  }

  /** The row at `index`, looked for page by page. */
  method RowAt<Row>(p: Paged<Row>, index: nat) returns (r: Option<Row>)
    ensures r == if index < |Rows(p)| then Some(Rows(p)[index]) else None
  {
    var remaining: nat := index;
    var i := 0;
    assert p.pages[0..] == p.pages;
    while i < |p.pages|
      invariant i <= |p.pages|
      invariant remaining + |Rows(p)| == index + |Flat(p.pages[i..])|
      invariant index < |Rows(p)| <==> remaining < |Flat(p.pages[i..])|
      invariant remaining < |Flat(p.pages[i..])| ==> Flat(p.pages[i..])[remaining] == Rows(p)[index]
    {
      var page := p.pages[i];
      assert p.pages[i..][1..] == p.pages[i + 1..];
      assert Flat(p.pages[i..]) == page + Flat(p.pages[i + 1..]);
      if remaining < |page| {
        return Some(page[remaining]);
      }
      remaining := remaining - |page|;
      i := i + 1;
    }
    r := None;
  }

  /** The first page, capped: what a front-end decides about a column from. */
  function Sample<Row>(p: Paged<Row>, max: nat): (r: seq<Row>)
    ensures |r| <= max
  {
    if p.pages == [] then []
    else if |p.pages[0]| <= max then p.pages[0]
    else p.pages[0][..max]
  }

  // ── the laws ────────────────────────────────────────────────────────────

  lemma {:induction false} FlatAppend<Row>(pages: seq<seq<Row>>, more: seq<Row>)
    ensures Flat(pages + [more]) == Flat(pages) + more
  {
    if pages == [] {
      assert [] + [more] == [more];
      assert [more][1..] == [];
    } else {
      assert (pages + [more])[1..] == pages[1..] + [more];
      FlatAppend(pages[1..], more);
      assert pages[0] + (Flat(pages[1..]) + more) == pages[0] + Flat(pages[1..]) + more;
    }
  }

  lemma NewIsSound<Row>(result: ResultSet<Row>)
    ensures Sound(New(result)) && Rows(New(result)) == result.rows
  {
    var pages := [result.rows];
    assert pages[1..] == [];
    assert Flat(pages) == pages[0] + Flat(pages[1..]) == result.rows + [];
  }

  /** One page more is its rows more, and what a sample says does not change. */
  lemma AppendIsConcat<Row>(p: Paged<Row>, more: ResultSet<Row>)
    requires Sound(p) && Append(p, more).Some?
    ensures var q := Append(p, more).value;
            && Sound(q) && Rows(q) == Rows(p) + more.rows
            && q.columns == p.columns
            && (forall max :: Sample(q, max) == Sample(p, max))
            && (more.rows == [] ==> q.pages == p.pages)
            && (more.total.Some? ==> q.total == more.total) && (more.total.None? ==> q.total == p.total)
  {
    hide Flat;
    FlatAppend(p.pages, more.rows);
  }

  /** A first page holds its own rows, and its sample is as many of them as fit. */
  lemma FirstPageIsItself<Row>(result: ResultSet<Row>, max: nat)
    ensures Rows(New(result)) == result.rows && New(result).columns == result.columns
    ensures New(result).total == result.total && New(result).rows == |result.rows|
    ensures Sample(New(result), max) <= result.rows
    ensures |Sample(New(result), max)| == if |result.rows| < max then |result.rows| else max
  {
    NewIsSound(result);
  }

  /** Every page in order, or none once one of them disagrees about its columns. */
  function AppendAll<Row>(p: Paged<Row>, more: seq<ResultSet<Row>>): Option<Paged<Row>>
    decreases |more|
  {
    if more == [] then Some(p)
    else
      match Append(p, more[0])
      case None => None
      case Some(q) => AppendAll(q, more[1..])
  }

  /** A chain of pages fits if and only if every page has the very columns of the first. */
  lemma {:induction false} FitsExactlyWhen<Row>(p: Paged<Row>, more: seq<ResultSet<Row>>)
    ensures AppendAll(p, more).Some? <==> forall i :: 0 <= i < |more| ==> more[i].columns == p.columns
    decreases |more|
  {
    if more != [] {
      assert forall i :: 1 <= i < |more| ==> more[i] == more[1..][i - 1];
      assert forall i :: 0 <= i < |more[1..]| ==> more[1..][i] == more[i + 1];
      if Append(p, more[0]).Some? {
        FitsExactlyWhen(Append(p, more[0]).value, more[1..]);
      }
    }
  }

  function AllRows<Row>(more: seq<ResultSet<Row>>): seq<Row> {
    if more == [] then [] else more[0].rows + AllRows(more[1..])
  }

  /** After any chain of pages that fit, the rows are the pages end to end. */
  lemma {:induction false} PagesRefineTheFlatSequence<Row>(p: Paged<Row>, more: seq<ResultSet<Row>>)
    requires Sound(p) && AppendAll(p, more).Some?
    ensures var q := AppendAll(p, more).value;
            && Sound(q) && Rows(q) == Rows(p) + AllRows(more) && q.rows == |Rows(p)| + |AllRows(more)|
            && (forall max :: Sample(q, max) == Sample(p, max))
    decreases |more|
  {
    if more == [] {
      assert Rows(p) + [] == Rows(p);
    } else {
      AppendIsConcat(p, more[0]);
      var q := Append(p, more[0]).value;
      PagesRefineTheFlatSequence(q, more[1..]);
      assert Rows(p) + more[0].rows + AllRows(more[1..]) == Rows(p) + (more[0].rows + AllRows(more[1..]));
    }
  }
}
