/** The correlation store: the `TicketReference` container that remembers,
    for each open outage, which ticket was filed for which uptime test. Items
    are keyed by their id within the partition of their test id. */
module Correlation {
  import opened Seqs

  /** One stored item; `createdAt` is the store's own write time in whole seconds. */
  datatype Record = Record(
    id: string,
    testId: string,
    testName: string,
    url: string,
    ip: string,
    ticketId: int,
    createdAt: int)

  function HasTest(testId: string): Record -> bool
  {
    (r: Record) => r.testId == testId
  }

  function NotTest(testId: string): Record -> bool
  {
    (r: Record) => r.testId != testId
  }

  /** The record is not the item with this id in this test's partition. */
  function NotKey(id: string, testId: string): Record -> bool
  {
    (r: Record) => !(r.id == id && r.testId == testId)
  }

  /** No item with this id is stored in this test's partition. */
  predicate KeyFree(records: seq<Record>, id: string, testId: string)
  {
    forall r :: r in records ==> NotKey(id, testId)(r)
  }

  /** No two items share an id within a partition. */
  predicate DistinctKeys(records: seq<Record>)
  {
    forall i, j :: 0 <= i < j < |records| ==>
      !(records[i].id == records[j].id && records[i].testId == records[j].testId)
  }

  /** The records of one test, in store order. */
  function Matching(records: seq<Record>, testId: string): seq<Record>
  {
    Filter(records, HasTest(testId))
  }

  class CorrelationStore {
    var records: seq<Record>

    predicate Valid()
      reads this
    {
      DistinctKeys(records)
    }

    constructor()
      ensures records == [] && Valid()
    {
      records := [];
    }

    /** Stores a new item; an item whose key is taken is refused and nothing changes. */
    method Create(r: Record) returns (created: bool)
      requires Valid()
      modifies this
      ensures Valid()
      ensures created <==> KeyFree(old(records), r.id, r.testId)
      ensures records == if created then old(records) + [r] else old(records)
    {
      created := forall x :: x in records ==> NotKey(r.id, r.testId)(x);
      if created {
        AppendKeepsDistinct(records, r);
        records := records + [r];
      }
    }

    /** The query for one test's records. */
    method FindByTest(testId: string) returns (found: seq<Record>)
      ensures found == Matching(records, testId)
      ensures forall r :: r in found <==> r in records && r.testId == testId
    {
      found := Filter(records, HasTest(testId));
    }

    /** Deletes the item with this id in this test's partition, if there is one. */
    method Delete(id: string, testId: string) returns (deleted: bool)
      requires Valid()
      modifies this
      ensures Valid()
      ensures deleted <==> !KeyFree(old(records), id, testId)
      ensures records == Filter(old(records), NotKey(id, testId))
    {
      deleted := !(forall x :: x in records ==> NotKey(id, testId)(x));
      FilterKeepsDistinct(records, NotKey(id, testId));
      records := Filter(records, NotKey(id, testId));
    }
  }

  /** Adding an item whose key is free keeps the keys distinct. */
  lemma AppendKeepsDistinct(records: seq<Record>, r: Record)
    requires DistinctKeys(records) && KeyFree(records, r.id, r.testId)
    ensures DistinctKeys(records + [r])
  {
    var s := records + [r];
    forall i, j | 0 <= i < j < |s|
      ensures !(s[i].id == s[j].id && s[i].testId == s[j].testId)
    {
      if j == |records| {
        assert s[i] in records;
      }
    }
  }

  /** Removing items keeps the keys distinct. */
  lemma {:induction false} FilterKeepsDistinct(records: seq<Record>, p: Record -> bool)
    requires DistinctKeys(records)
    ensures DistinctKeys(Filter(records, p))
  {
    if records != [] {
      var rest := records[1..];
      assert DistinctKeys(rest) by {
        forall i, j | 0 <= i < j < |rest|
          ensures !(rest[i].id == rest[j].id && rest[i].testId == rest[j].testId)
        {
          assert rest[i] == records[i + 1] && rest[j] == records[j + 1];
        }
      }
      FilterKeepsDistinct(rest, p);
      if p(records[0]) {
        var tail := Filter(rest, p);
        forall x | x in tail
          ensures NotKey(records[0].id, records[0].testId)(x)
        {
          var j :| 0 <= j < |rest| && rest[j] == x;
          assert records[j + 1] == x;
        }
        AppendFront(records[0], tail);
      }
    }
  }

  /** Putting an item in front of others whose keys differ from it keeps the keys distinct. */
  lemma AppendFront(r: Record, tail: seq<Record>)
    requires DistinctKeys(tail) && KeyFree(tail, r.id, r.testId)
    ensures DistinctKeys([r] + tail)
  {
    var s := [r] + tail;
    forall i, j | 0 <= i < j < |s|
      ensures !(s[i].id == s[j].id && s[i].testId == s[j].testId)
    {
      if i == 0 {
        assert s[j] == tail[j - 1] && s[j] in tail;
      } else {
        assert s[i] == tail[i - 1] && s[j] == tail[j - 1];
      }
    }
  }

  /** Deleting one item of a test leaves every other test's records as they were. */
  lemma DeleteKeepsOtherTests(records: seq<Record>, id: string, testId: string, other: string)
    requires other != testId
    ensures Matching(Filter(records, NotKey(id, testId)), other) == Matching(records, other)
  {
    FilterCompose(records, NotKey(id, testId), HasTest(other), HasTest(other));
  }
}
