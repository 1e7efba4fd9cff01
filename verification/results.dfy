/** The results view of `displayVotes`: the tally projected to table rows,
    or a fixed message when the vote store could not be read. */
module Results {
  import opened Enumeration
  import opened Tally

  /** What the vote store's list operation resolves to. */
  datatype VotesRead = VotesRead(status: bool, data: seq<Vote>)

  const LabelPrefix: string := "Producto "
  const NoVotesMessage: string := "<p>No hay votos registrados</p>"

  /** One body row of the results table: a product id and its count. */
  datatype Row = Row(productId: string, count: nat) {
    /** The text of the row's product cell. */
    function Label(): string
    {
      LabelPrefix + productId
    }
  }

  /** The content written into the results container. */
  datatype ResultsView = Table(rows: seq<Row>) | Message(text: string)

  /** Different ids never share a label, so a row's product cell names its
      product unambiguously. */
  lemma LabelInjective(a: Row, b: Row)
    ensures a.Label() == b.Label() <==> a.productId == b.productId
  {
    if a.Label() == b.Label() {
      assert a.productId == a.Label()[|LabelPrefix|..];
    }
  }

  /** One row per id of `order`, in that order. */
  function Rows(counts: Counts, order: seq<string>): seq<Row>
    requires forall i :: 0 <= i < |order| ==> order[i] in counts
  {
    seq(|order|, i requires 0 <= i < |order| => Row(order[i], counts[order[i]]))
  }

  /** The sum of the counts shown in the rows. */
  function SumCounts(rows: seq<Row>): nat
  {
    if |rows| == 0 then 0 else rows[0].count + SumCounts(rows[1..])
  }

  /** Projecting a tally along any enumeration of its keys gives exactly one row
      per entry and nothing else: every row shows an entry's id and count, every
      entry has a row, and no two rows show the same product. */
  lemma RowsMatchTally(counts: Counts, order: seq<string>)
    requires Enumerates(order, counts.Keys)
    ensures |Rows(counts, order)| == |counts|
    ensures forall i :: 0 <= i < |order| ==> Rows(counts, order)[i].productId == order[i]
    ensures forall i :: 0 <= i < |order| ==>
      var row := Rows(counts, order)[i]; row.productId in counts && row.count == counts[row.productId]
    ensures forall id :: id in counts ==>
      exists i :: 0 <= i < |order| && Rows(counts, order)[i].productId == id
    ensures forall i, j :: 0 <= i < j < |order| ==>
      Rows(counts, order)[i].Label() != Rows(counts, order)[j].Label()
  {
    var rows := Rows(counts, order);
    EnumerationLength(order, counts.Keys);
    forall id | id in counts
      ensures exists i :: 0 <= i < |order| && rows[i].productId == id
    {
      var i :| 0 <= i < |order| && order[i] == id;
      assert rows[i].productId == id;
    }
    forall i, j | 0 <= i < j < |order|
      ensures rows[i].Label() != rows[j].Label()
    {
      LabelInjective(rows[i], rows[j]);
    }
  }

  /** The counts shown in the rows add up to the tally's total, whatever the order. */
  lemma {:induction false} RowsSumToTotal(counts: Counts, order: seq<string>)
    requires Enumerates(order, counts.Keys)
    ensures SumCounts(Rows(counts, order)) == Total(counts)
    decreases |order|
  {
    if |order| == 0 {
      assert counts.Keys == {};
      assert |counts| == 0;
    } else {
      var k := order[0];
      var rest := counts - {k};
      assert rest.Keys == counts.Keys - {k};
      EnumerationTail(order, counts.Keys);
      RowsSumToTotal(rest, order[1..]);
      RowsTail(counts, order);
      TotalRemove(counts, k);
    }
  }

  /** The rows after the first are those of the tally without the first id. */
  lemma RowsTail(counts: Counts, order: seq<string>)
    requires |order| > 0
    requires Enumerates(order, counts.Keys)
    ensures Rows(counts, order)[1..] == Rows(counts - {order[0]}, order[1..])
  {
  }

  /** The ids in the order of their first vote. */
  function FirstSeen(votes: seq<Vote>): (order: seq<string>)
    ensures NoDuplicates(order)
    ensures forall i :: 0 <= i < |order| ==> Voted(votes, order[i])
    ensures forall id :: Voted(votes, id) ==> id in order
    decreases |votes|
  {
    if |votes| == 0 then
      []
    else
      var prefix := votes[..|votes| - 1];
      var id := votes[|votes| - 1].productId;
      var seen := FirstSeen(prefix);
      VotedSnoc(votes);
      if id in seen then seen else seen + [id]
  }

  /** Whatever the vote records, some order enumerates their tally, so the
      results view below can always be drawn. */
  lemma TallyHasEnumeration(votes: seq<Vote>)
    ensures Enumerates(FirstSeen(votes), Aggregate(votes).Keys)
  {
  }

  /** Read against the votes themselves, each row is for a voted id and shows
      how many votes name it. */
  lemma RowsCountVotes(votes: seq<Vote>, order: seq<string>)
    requires Enumerates(order, Aggregate(votes).Keys)
    ensures forall i :: 0 <= i < |order| ==>
      Voted(votes, Rows(Aggregate(votes), order)[i].productId)
      && Rows(Aggregate(votes), order)[i].count == Count(votes, Rows(Aggregate(votes), order)[i].productId)
  {
    var counts := Aggregate(votes);
    var rows := Rows(counts, order);
    forall i | 0 <= i < |order|
      ensures Voted(votes, rows[i].productId) && rows[i].count == Count(votes, rows[i].productId)
    {
      assert rows[i] == Row(order[i], counts[order[i]]);
    }
  }

  /** An id listed in `order` has a row. */
  lemma RowsCover(counts: Counts, order: seq<string>, id: string)
    requires forall i :: 0 <= i < |order| ==> order[i] in counts
    requires id in order
    ensures exists i :: 0 <= i < |order| && Rows(counts, order)[i].productId == id
  {
    var i :| 0 <= i < |order| && order[i] == id;
    assert Rows(counts, order)[i].productId == id;
  }

  /** Every voted id has a row of the tally of the votes. */
  lemma VotedIdsHaveRows(votes: seq<Vote>, counts: Counts, order: seq<string>)
    requires counts == Aggregate(votes)
    requires Enumerates(order, counts.Keys)
    ensures forall id :: Voted(votes, id) ==>
      exists i :: 0 <= i < |order| && Rows(counts, order)[i].productId == id
  {
    forall id | Voted(votes, id)
      ensures exists i :: 0 <= i < |order| && Rows(counts, order)[i].productId == id
    {
      RowsCover(counts, order, id);
    }
  }

  /** No votes leave nothing to enumerate. */
  lemma NoVotesNoRows(votes: seq<Vote>, order: seq<string>)
    requires Enumerates(order, Aggregate(votes).Keys)
    ensures votes == [] ==> order == []
  {
    if votes == [] {
      NoVotesNoTally();
      EnumerationLength(order, Aggregate(votes).Keys);
    }
  }

  /** The content of the results container. `order` is the order in which the
      JavaScript engine enumerates the tally's keys, which the page does not
      control: any enumeration of the keys is accepted. A failed read shows the
      fixed message and never counts; a successful one shows one row per voted
      id with its number of votes, and an empty table when there are no votes. */
  function DisplayVotes(read: VotesRead, order: seq<string>): (view: ResultsView)
    requires read.status ==> Enumerates(order, Aggregate(read.data).Keys)
    ensures !read.status ==> view == Message(NoVotesMessage)
    ensures read.status ==> view.Table? && |view.rows| == |order|
    ensures read.status ==> forall i :: 0 <= i < |order| ==> view.rows[i].productId == order[i]
    ensures read.status ==> forall i :: 0 <= i < |view.rows| ==>
      Voted(read.data, view.rows[i].productId) && view.rows[i].count == Count(read.data, view.rows[i].productId)
    ensures read.status ==> forall id :: Voted(read.data, id) ==>
      exists i :: 0 <= i < |view.rows| && view.rows[i].productId == id
    ensures read.status ==> forall i, j :: 0 <= i < j < |view.rows| ==>
      view.rows[i].Label() != view.rows[j].Label()
    ensures read.status && read.data == [] ==> view == Table([])
  {
    if read.status then
      var counts := Aggregate(read.data);
      RowsMatchTally(counts, order);
      RowsCountVotes(read.data, order);
      VotedIdsHaveRows(read.data, counts, order);
      NoVotesNoRows(read.data, order);
      Table(Rows(counts, order))
    else
      Message(NoVotesMessage)
  }

  /** When the read succeeds, the counts shown in the table add up to the
      number of vote records read. */
  lemma ShownCountsSumToVotes(read: VotesRead, order: seq<string>)
    requires read.status
    requires Enumerates(order, Aggregate(read.data).Keys)
    ensures SumCounts(DisplayVotes(read, order).rows) == |read.data|
  {
    RowsSumToTotal(Aggregate(read.data), order);
    TallySumsToVotes(read.data);
  }

  /** The worked example: votes for A, B, A give a two-row table with counts 2 and 1. */
  lemma ExampleTable()
    ensures DisplayVotes(VotesRead(true, [Vote("A"), Vote("B"), Vote("A")]), ["A", "B"])
         == Table([Row("A", 2), Row("B", 1)])
  {
    ExampleTally();
  }

  lemma ExampleTally()
    ensures Aggregate([Vote("A"), Vote("B"), Vote("A")]) == map["A" := 2, "B" := 1]
  {
    var votes := [Vote("A"), Vote("B"), Vote("A")];
    assert votes[..2] == [Vote("A"), Vote("B")];
    assert [Vote("A"), Vote("B")][..1] == [Vote("A")];
    assert [Vote("A")][..0] == [];
    assert Aggregate([Vote("A")]) == map["A" := 1];
    assert Aggregate([Vote("A"), Vote("B")]) == map["A" := 1, "B" := 1];
  }
}
