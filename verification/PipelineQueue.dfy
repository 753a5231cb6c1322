/** The queue object, with its condition variable, refines the queue the pipeline is built on. */
module PipelineQueue {
  import opened Basics
  import opened Pipeline
  import BoundedQueue

  predicate Mirrors(s: BoundedQueue.State, q: Intake) {
    s.items == q.queue && s.accepted == q.accepted && s.popped == q.popped
  }

  /** A timed wait that ends without a frame. */
  predicate GivesUp(s: BoundedQueue.State, s': BoundedQueue.State, l: BoundedQueue.Label) {
    && (l.Enter? || l.Resume?)
    && l.i < |s'.consumers| && s'.consumers[l.i] == BoundedQueue.Outside && s'.popped == s.popped
  }

  /**
   * Every step of the queue is an offer, a pop, or invisible to the pipeline, and a wait gives
   * up only on an empty queue.
   */
  lemma QueueStepsAreIntakeSteps(c: Config, s: BoundedQueue.State, q: Intake, l: BoundedQueue.Label)
    requires BoundedQueue.Enabled(s, l) && Mirrors(s, q)
    ensures var s' := BoundedQueue.Step(c.capacity, s, l);
            && (l.Push? ==> Mirrors(s', OfferStep(c, q, l.value)))
            && (!l.Push? ==> Mirrors(s', q) || (q.queue != [] && Mirrors(s', NextIntake(q, Pop))))
            && (GivesUp(s, s', l) ==> q.queue == [])
  {
    if s.items != [] {
      assert |s.popped + [s.items[0]]| != |s.popped|;
    }
  }
}
