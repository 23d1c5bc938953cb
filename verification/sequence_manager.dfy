/**
 * The per-partner sequence counter. A partner never seen before counts as 0.
 */
module Sequences {

  /** `sequences.get(partnerId) || 0`. */
  function CurrentOf(sequences: map<string, int>, partnerId: string): int
  {
    if partnerId in sequences then sequences[partnerId] else 0
  }

  /** One getNextSequence on a snapshot of the counters: the new counters and the number issued. */
  function Draw(sequences: map<string, int>, partnerId: string): (r: (map<string, int>, int))
    ensures r.1 == CurrentOf(sequences, partnerId) + 1
    ensures CurrentOf(r.0, partnerId) == r.1
    ensures forall q :: q != partnerId ==> CurrentOf(r.0, q) == CurrentOf(sequences, q)
  {
    var next := CurrentOf(sequences, partnerId) + 1;
    (sequences[partnerId := next], next)
  }

  /** `count` consecutive getNextSequence calls for one partner: the final counters and the numbers issued, in order. */
  function DrawMany(sequences: map<string, int>, partnerId: string, count: nat): (map<string, int>, seq<int>)
  {
    if count == 0 then (sequences, [])
    else
      var before := DrawMany(sequences, partnerId, count - 1);
      var after := Draw(before.0, partnerId);
      (after.0, before.1 + [after.1])
  }

  /** Consecutive draws issue c + 1, ..., c + count with no gaps and leave the counter at c + count. */
  lemma {:induction false} DrawManyIssuesRun(sequences: map<string, int>, partnerId: string, count: nat)
    ensures var (after, issued) := DrawMany(sequences, partnerId, count);
            |issued| == count
            && (forall i :: 0 <= i < count ==> issued[i] == CurrentOf(sequences, partnerId) + 1 + i)
            && CurrentOf(after, partnerId) == CurrentOf(sequences, partnerId) + count
            && (forall q :: q != partnerId ==> CurrentOf(after, q) == CurrentOf(sequences, q))
  {
    if count > 0 {
      DrawManyIssuesRun(sequences, partnerId, count - 1);
    }
  }

  /** After reset(p), N consecutive draws issue exactly 1, 2, ..., N, strictly increasing. */
  lemma DrawsAfterReset(sequences: map<string, int>, partnerId: string, count: nat)
    ensures var issued := DrawMany(sequences[partnerId := 0], partnerId, count).1;
            |issued| == count
            && (forall i :: 0 <= i < count ==> issued[i] == i + 1)
            && (forall i, j :: 0 <= i < j < count ==> issued[i] < issued[j])
  {
    DrawManyIssuesRun(sequences[partnerId := 0], partnerId, count);
  }

  /** SequenceManager: the `sequences` map, updated in place. */
  class SequenceManager {
    var sequences: map<string, int>

    constructor()
      ensures sequences == map[]
    {
      sequences := map[];
    }

    /** getNextSequence: the stored value (or 0) plus one, which is stored back. */
    method GetNextSequence(partnerId: string) returns (next: int)
      modifies this
      ensures (sequences, next) == Draw(old(sequences), partnerId)
    {
      var current := if partnerId in sequences then sequences[partnerId] else 0;
      next := current + 1;
      sequences := sequences[partnerId := next];
    }

    /** reset: the partner's counter goes back to 0; the others are untouched. */
    method Reset(partnerId: string)
      modifies this
      ensures sequences == old(sequences)[partnerId := 0]
    {
      sequences := sequences[partnerId := 0];
    }

    /** getCurrent: the last number issued, or 0; nothing changes. */
    method GetCurrent(partnerId: string) returns (current: int)
      ensures current == CurrentOf(sequences, partnerId)
    {
      current := if partnerId in sequences then sequences[partnerId] else 0;
    }
  }

  /** A partner never seen before gets 1 from its first draw. */
  lemma FirstDrawIsOne(sequences: map<string, int>, partnerId: string)
    requires partnerId !in sequences
    ensures Draw(sequences, partnerId).1 == 1
  {
  }
}
