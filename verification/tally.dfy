/** The vote tally built by `displayVotes`: one pass over the vote records,
    counting how often each product id occurs. Ids are strings because the
    page uses them as object keys. */
module Tally {

  /** A vote record as listed by the vote store; only its product id is read. */
  datatype Vote = Vote(productId: string)

  /** Product id to number of votes. */
  type Counts = map<string, nat>

  /** The product ids of the votes, in order. */
  function Ids(votes: seq<Vote>): seq<string>
  {
    seq(|votes|, i requires 0 <= i < |votes| => votes[i].productId)
  }

  /** Reference definition: how many of the votes name `id`. */
  function Count(votes: seq<Vote>, id: string): nat
  {
    multiset(Ids(votes))[id]
  }

  /** Some vote names `id`. */
  predicate Voted(votes: seq<Vote>, id: string)
  {
    exists i :: 0 <= i < |votes| && votes[i].productId == id
  }

  /** One step of the loop: an unseen id starts from zero, then gets one more vote. */
  function Increment(counts: Counts, id: string): (r: Counts)
    ensures r.Keys == counts.Keys + {id}
    ensures r[id] == (if id in counts then counts[id] else 0) + 1
    ensures forall k :: k in counts && k != id ==> r[k] == counts[k]
  {
    counts[id := (if id in counts then counts[id] else 0) + 1]
  }

  lemma IdsSnoc(votes: seq<Vote>)
    requires |votes| > 0
    ensures Ids(votes) == Ids(votes[..|votes| - 1]) + [votes[|votes| - 1].productId]
  {
  }

  /** An id is voted for by a non-empty sequence exactly when the last vote or
      an earlier one names it. */
  lemma VotedSnoc(votes: seq<Vote>)
    requires |votes| > 0
    ensures forall id :: Voted(votes, id) <==>
      Voted(votes[..|votes| - 1], id) || id == votes[|votes| - 1].productId
  {
  }

  /** The tally, folded over the votes in the order the loop visits them.
      Its keys are exactly the ids that were voted for, and each count is that
      id's number of occurrences (so never zero). */
  function Aggregate(votes: seq<Vote>): (counts: Counts)
    ensures forall id :: id in counts <==> Voted(votes, id)
    ensures forall id :: id in counts ==> counts[id] == Count(votes, id)
    ensures forall id :: id in counts ==> counts[id] >= 1
    decreases |votes|
  {
    if |votes| == 0 then
      map[]
    else
      var prefix := votes[..|votes| - 1];
      var last := votes[|votes| - 1];
      IdsSnoc(votes);
      VotedSnoc(votes);
      Increment(Aggregate(prefix), last.productId)
  }

  /** No votes, no tally entries. */
  lemma NoVotesNoTally()
    ensures Aggregate([]) == map[]
  {
  }

  /** Some key of a non-empty map. */
  ghost function Pick(counts: Counts): (k: string)
    requires |counts| > 0
    ensures k in counts
  {
    var k :| k in counts; k
  }

  /** The sum of all counts of a tally. */
  ghost function Total(counts: Counts): nat
    decreases |counts|
  {
    if |counts| == 0 then 0
    else
      var k := Pick(counts);
      assert (counts - {k}).Keys == counts.Keys - {k};
      counts[k] + Total(counts - {k})
  }

  /** The sum does not depend on which key is taken out first. */
  lemma {:induction false} TotalRemove(counts: Counts, k: string)
    requires k in counts
    ensures Total(counts) == counts[k] + Total(counts - {k})
    decreases |counts|
  {
    var j := Pick(counts);
    if j != k {
      assert (counts - {j}).Keys == counts.Keys - {j};
      assert (counts - {k}).Keys == counts.Keys - {k};
      TotalRemove(counts - {j}, k);
      TotalRemove(counts - {k}, j);
      assert counts - {j} - {k} == counts - {k} - {j};
    }
  }

  lemma RemoveIncremented(counts: Counts, id: string)
    ensures Increment(counts, id) - {id} == counts - {id}
  {
  }

  lemma RemoveAbsent(counts: Counts, id: string)
    requires id !in counts
    ensures counts - {id} == counts
  {
  }

  /** One loop step adds exactly one to the sum of the counts. */
  lemma TotalIncrement(counts: Counts, id: string)
    ensures Total(Increment(counts, id)) == Total(counts) + 1
  {
    TotalRemove(Increment(counts, id), id);
    RemoveIncremented(counts, id);
    if id in counts {
      TotalRemove(counts, id);
    } else {
      RemoveAbsent(counts, id);
    }
  }

  /** The counts of the tally add up to the number of vote records read. */
  lemma {:induction false} TallySumsToVotes(votes: seq<Vote>)
    ensures Total(Aggregate(votes)) == |votes|
    decreases |votes|
  {
    if |votes| > 0 {
      var prefix := votes[..|votes| - 1];
      TallySumsToVotes(prefix);
      TotalIncrement(Aggregate(prefix), votes[|votes| - 1].productId);
    }
  }
}
