/** The watermark of acknowledged inserts: workers take fresh record numbers, acknowledge
    them in any order, and choose keys below the least number not acknowledged yet. */
module InsertWatermark {
  import opened Wrappers

  /** The least number from start on that is not acknowledged, and the ones above it that
      are: all there is to know of a set of acknowledged numbers. */
  ghost predicate Tracks(start: nat, acked: set<nat>, watermark: nat, ahead: set<nat>) {
    && start <= watermark && watermark !in acked
    && (forall n: nat | start <= n < watermark :: n in acked)
    && (forall n: nat :: n in ahead <==> n in acked && n > watermark)
  }

  /** Watermark and set are functions of what was acknowledged, not of the order. */
  lemma TracksOneWay(start: nat, acked: set<nat>, w: nat, ahead: set<nat>, w': nat, ahead': set<nat>)
    requires Tracks(start, acked, w, ahead) && Tracks(start, acked, w', ahead')
    ensures w == w' && ahead == ahead'
  {
    assert w == w';
  }

  class InsertState {
    const start: nat
    var nextNum: nat
    var nextInsertedNum: nat
    var insertedNums: set<nat>

    /** Numbers are handed out from start on, and only those handed out are acknowledged. */
    ghost predicate Valid(acked: set<nat>)
      reads this
    {
      && Tracks(start, acked, nextInsertedNum, insertedNums)
      && nextInsertedNum <= nextNum && forall n <- acked :: start <= n < nextNum
    }

    constructor (recordCount: nat)
      ensures start == nextNum == nextInsertedNum == recordCount && Valid({})
    {
      start, nextNum, nextInsertedNum, insertedNums := recordCount, recordCount, recordCount, {};
    }

    method NextNum(ghost acked: set<nat>) returns (n: nat)
      requires Valid(acked)
      modifies `nextNum
      ensures n == old(nextNum) && nextNum == n + 1 && n !in acked && Valid(acked)
    {
      n := nextNum;
      nextNum := nextNum + 1;
    }

    /** Acknowledging the watermark moves it past all that was acknowledged ahead of it. */
    method Ack(n: nat, ghost acked: set<nat>)
      requires Valid(acked) && start <= n < nextNum && n !in acked
      modifies `nextInsertedNum, `insertedNums
      ensures Valid(acked + {n})
    {
      if n != nextInsertedNum {
        insertedNums := insertedNums + {n};
        return;
      }
      var removed := true;
      while removed
        invariant start <= nextInsertedNum <= nextNum
        invariant removed ==> nextInsertedNum in acked + {n} && nextInsertedNum !in insertedNums
        invariant !removed ==> nextInsertedNum !in acked + {n}
        invariant forall k: nat | start <= k < nextInsertedNum :: k in acked + {n}
        invariant forall k: nat :: k in insertedNums <==> k in acked + {n} && k > nextInsertedNum
        decreases |insertedNums| + if removed then 1 else 0
      {
        nextInsertedNum := nextInsertedNum + 1;
        removed := nextInsertedNum in insertedNums;
        insertedNums := insertedNums - {nextInsertedNum};
      }
    }

    /** A key below the watermark: distances back from it for the latest distribution, else
        the first sample that is small enough, none if the samples run out. */
    method KeyNum(latest: bool, samples: seq<nat>, ghost acked: set<nat>) returns (key: Option<nat>)
      requires Valid(acked)
      requires latest ==> |samples| > 0 && 1 <= samples[0] <= start
      ensures key.Some? ==> key.value < start || key.value in acked
      ensures latest ==> key == Some(nextInsertedNum - samples[0])
      ensures !latest ==> (key.None? <==> forall k <- samples :: k >= nextInsertedNum)
      ensures !latest && key.Some? ==> key.value in samples
    {
      if latest {
        return Some(nextInsertedNum - samples[0]);
      }
      var i := 0;
      while i < |samples| && samples[i] >= nextInsertedNum
        invariant i <= |samples| && forall j | 0 <= j < i :: samples[j] >= nextInsertedNum
      {
        i := i + 1;
      }
      if i == |samples| {
        return None;
      }
      assert samples[i] in samples;
      return Some(samples[i]);
    }
  }
}
