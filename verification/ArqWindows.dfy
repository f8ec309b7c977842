/** The window of due jobs that the passes of ArqWorker read: the first ones of the queue. */
module ArqWindows {
  import opened ArqStore
  import opened ArqWorker
  import opened StringOrder

  function JobsAhead(queue: map<Job, int>, job: Job): set<Job>
    requires job in queue
  {
    set k | k in queue && Ahead(queue, k, job)
  }

  /** Ahead is a strict total order of the queue. */
  lemma AheadIsAnOrder(queue: map<Job, int>, a: Job, b: Job, c: Job)
    requires a in queue && b in queue && c in queue
    ensures !Ahead(queue, a, a)
    ensures a != b ==> Ahead(queue, a, b) || Ahead(queue, b, a)
    ensures Ahead(queue, a, b) && Ahead(queue, b, c) ==> Ahead(queue, a, c)
    ensures Ahead(queue, a, b) ==> !Ahead(queue, b, a)
  {
    hide Less;
    LessIsStrict(a);
    if a != b { LessIsTotal(a, b); }
    if Less(a, b) && Less(b, c) { LessIsTransitive(a, b, c); }
    if Less(a, b) && Less(b, a) { LessIsTransitive(a, b, a); }
  }

  lemma {:induction false} LastOf(queue: map<Job, int>, jobs: set<Job>) returns (last: Job)
    requires jobs != {} && jobs <= queue.Keys
    ensures last in jobs && jobs - {last} <= JobsAhead(queue, last)
    decreases |jobs|
  {
    hide Ahead;
    last :| last in jobs;
    var others := jobs - {last};
    if others != {} {
      var other := LastOf(queue, others);
      AheadIsAnOrder(queue, last, other, other);
      if Ahead(queue, other, last) {
        forall k | k in others ensures Ahead(queue, k, last) {
          AheadIsAnOrder(queue, k, other, last);
          assert k != other ==> k in JobsAhead(queue, other);
        }
      } else {
        last := other;
        assert forall k | k in jobs - {other} :: k in others - {other} || Ahead(queue, k, other);
      }
    }
  }

  lemma {:induction false} FirstOf(queue: map<Job, int>, jobs: set<Job>) returns (first: Job)
    requires jobs != {} && jobs <= queue.Keys
    ensures first in jobs && forall k | k in jobs :: !Ahead(queue, k, first)
    decreases |jobs|
  {
    hide Ahead;
    var some :| some in jobs;
    first := some;
    AheadIsAnOrder(queue, some, some, some);
    var others := jobs - {some};
    assert forall k | k in jobs :: k == some || k in others;
    if others != {} {
      var other := FirstOf(queue, others);
      AheadIsAnOrder(queue, some, other, other);
      if Ahead(queue, other, some) { first := other; }
      forall k | k in jobs ensures !Ahead(queue, k, first) {
        if k != some {
          assert k in others && !Ahead(queue, k, other);
          AheadIsAnOrder(queue, k, some, other);
        }
      }
    }
  }

  lemma SubsetCard(a: set<Job>, b: set<Job>)
    requires a <= b
    ensures |a| <= |b|
  {
    assert b == a + (b - a);
  }

  lemma {:induction false} DistinctCard(ids: seq<Job>)
    requires forall i, j :: 0 <= i < j < |ids| ==> ids[i] != ids[j]
    ensures |set job | job in ids| == |ids|
  {
    if ids != [] {
      var n := |ids| - 1;
      DistinctCard(ids[..n]);
      assert (set job | job in ids) == (set job | job in ids[..n]) + {ids[n]};
    }
  }

  lemma WindowIsSmall(queue: map<Job, int>, cutoff: int, limit: nat, ids: seq<Job>)
    requires IsWindow(queue, cutoff, limit, ids)
    ensures |ids| <= limit
  {
    hide Ahead;
    DistinctCard(ids);
    var jobs := set job | job in ids;
    if ids != [] {
      assert ids[0] in jobs;
      var last := LastOf(queue, jobs);
      SubsetCard(jobs - {last}, JobsAhead(queue, last));
      assert InWindow(queue, cutoff, limit, last);
    }
  }

  lemma WindowIsFull(queue: map<Job, int>, cutoff: int, limit: nat, ids: seq<Job>, out: Job)
    requires IsWindow(queue, cutoff, limit, ids)
    requires out in queue && queue[out] <= cutoff && out !in ids
    ensures |ids| >= limit
  {
    DistinctCard(ids);
    var jobs := set job | job in ids;
    var left := set job | job in queue && queue[job] <= cutoff && job !in ids;
    assert out in left;
    var first := FirstOf(queue, left);
    assert JobsAhead(queue, first) <= jobs;
    SubsetCard(JobsAhead(queue, first), jobs);
  }

  /** A window holds at most `limit` jobs, and as many if a due job is left out; and every job in it comes before
      each due job left out: its score is lower, or the same and its id comes first. */
  lemma WindowIsFirst(queue: map<Job, int>, cutoff: int, limit: nat, ids: seq<Job>)
    requires IsWindow(queue, cutoff, limit, ids)
    ensures |ids| <= limit && forall job | job in ids :: job in queue && queue[job] <= cutoff
    ensures forall out | out in queue && queue[out] <= cutoff && out !in ids ::
      && |ids| == limit
      && forall job | job in ids :: queue[job] < queue[out] || (queue[job] == queue[out] && ComesFirst(job, out))
  {
    WindowIsSmall(queue, cutoff, limit, ids);
    forall out | out in queue && queue[out] <= cutoff && out !in ids ensures |ids| == limit {
      WindowIsFull(queue, cutoff, limit, ids, out);
    }
    forall job, out | job in ids && out in queue && queue[out] <= cutoff && out !in ids
      ensures queue[job] < queue[out] || (queue[job] == queue[out] && ComesFirst(job, out))
    {
      InsideComesFirst(queue, cutoff, limit, job, out);
    }
  }

  lemma InsideComesFirst(queue: map<Job, int>, cutoff: int, limit: nat, job: Job, out: Job)
    requires InWindow(queue, cutoff, limit, job)
    requires out in queue && queue[out] <= cutoff && !InWindow(queue, cutoff, limit, out)
    ensures queue[job] < queue[out] || (queue[job] == queue[out] && ComesFirst(job, out))
  {
    hide Less, ComesFirst;
    LessIsComingFirst(job, out);
    AheadIsAnOrder(queue, job, out, out);
    if Ahead(queue, out, job) {
      forall k | k in JobsAhead(queue, out) ensures k in JobsAhead(queue, job) {
        AheadIsAnOrder(queue, k, out, job);
      }
      SubsetCard(JobsAhead(queue, out), JobsAhead(queue, job));
    }
  }
}
