// The delay line shared by the delaying transformers (the pose delayer and the bone
// and root-bone redirectors): a FIFO of commands, where every tick enqueues one
// command and, once the queue holds more commands than the delay, dequeues the
// oldest one and executes it.
module DelayLine {
  import opened Wrappers

  /** Queue<T>(capacity) refuses a negative capacity (ArgumentOutOfRangeException):
      Initialize then leaves the old queue in place. */
  predicate CreateRaises(delay: int)
  {
    delay < 0
  }

  /** One tick on a queue: `c` is enqueued, and if the queue then holds more than
      `delay` commands the oldest one leaves it and is returned for execution. */
  function Tick<C>(queue: seq<C>, c: C, delay: int): (r: (seq<C>, Option<C>))
    ensures r.1.Some? <==> |queue| + 1 > delay
    ensures r.1.Some? ==> [r.1.value] + r.0 == queue + [c]
    ensures r.1.None? ==> r.0 == queue + [c]
  {
    var q := queue + [c];
    if |q| <= delay then (q, None) else (q[1..], Some(q[0]))
  }

  /** How many commands wait after k ticks on a queue that started with n: the queue
      grows by one per tick up to the delay, and a queue already as long as the delay
      (always so for a negative delay) keeps its length. */
  function Held(n: nat, k: nat, delay: int): (h: nat)
    ensures n <= h <= n + k
    ensures n >= delay ==> h == n
    ensures n < delay ==> h == if n + k <= delay then n + k else delay
  {
    if n >= delay then n else if n + k <= delay then n + k else delay
  }

  /** The queue after the first k ticks on a queue that was `start` when it was last
      (re)created or kept, the i-th tick enqueueing cs[i]. */
  function Queue<C>(start: seq<C>, cs: seq<C>, delay: int, k: nat): seq<C>
    requires k <= |cs|
  {
    if k == 0 then start else Tick(Queue(start, cs, delay, k - 1), cs[k - 1], delay).0
  }

  /** The command that tick k (counting from 1) executes, if any. */
  function Executed<C>(start: seq<C>, cs: seq<C>, delay: int, k: nat): Option<C>
    requires 1 <= k <= |cs|
  {
    Tick(Queue(start, cs, delay, k - 1), cs[k - 1], delay).1
  }

  /** After k ticks the queue holds exactly the last Held(|start|, k, delay) of the
      commands, the starting ones included, oldest first. */
  lemma {:induction false} QueueIsSuffix<C>(start: seq<C>, cs: seq<C>, delay: int, k: nat)
    requires k <= |cs|
    ensures var n := |start| + k;
            Queue(start, cs, delay, k) == (start + cs)[n - Held(|start|, k, delay)..n]
  {
    var all := start + cs;
    var n := |start| + k;
    if k == 0 {
      assert all[|start|..|start|] == [];
      assert all[..|start|] == start;
    } else {
      QueueIsSuffix(start, cs, delay, k - 1);
      var h := Held(|start|, k - 1, delay);
      var q := Queue(start, cs, delay, k - 1);
      assert q == all[n - 1 - h..n - 1];
      assert all[n - 1] == cs[k - 1];
      assert q + [cs[k - 1]] == all[n - 1 - h..n];
      if h + 1 > delay {
        assert Held(|start|, k, delay) == h;
        assert Queue(start, cs, delay, k) == (q + [cs[k - 1]])[1..];
        assert all[n - 1 - h..n][1..] == all[n - h..n];
      } else {
        assert Held(|start|, k, delay) == h + 1;
        assert Queue(start, cs, delay, k) == q + [cs[k - 1]];
      }
    }
  }

  /** Tick k executes when the queue it finds is as long as the delay, and then the
      command enqueued Held(|start|, k - 1, delay) ticks before it. */
  lemma ExecutedOldest<C>(start: seq<C>, cs: seq<C>, delay: int, k: nat)
    requires 1 <= k <= |cs|
    ensures var h := Held(|start|, k - 1, delay);
            && (Executed(start, cs, delay, k).Some? <==> h + 1 > delay)
            && (h + 1 > delay ==> Executed(start, cs, delay, k) == Some((start + cs)[|start| + k - 1 - h]))
  {
    QueueIsSuffix(start, cs, delay, k - 1);
    var h := Held(|start|, k - 1, delay);
    var n := |start| + k - 1;
    assert ((start + cs)[n - h..n] + [cs[k - 1]])[0] == (start + cs)[n - h];
  }

  /** On a freshly created queue nothing is executed while the queue is not yet
      longer than the delay; after that, tick k executes the command enqueued
      `delay` ticks earlier, so that with delay 0 every tick executes its own
      command. */
  lemma ExecutedIsDelayed<C>(cs: seq<C>, delay: int, k: nat)
    requires 1 <= k <= |cs| && delay >= 0
    ensures k <= delay ==> Executed([], cs, delay, k) == None
    ensures k > delay ==> Executed([], cs, delay, k) == Some(cs[k - 1 - delay])
    ensures delay == 0 ==> Executed([], cs, delay, k) == Some(cs[k - 1])
  {
    ExecutedOldest([], cs, delay, k);
    assert [] + cs == cs;
  }

  /** A negative delay keeps the queue that was there (Initialize raised): every tick
      executes one command, first the old queue's, then the new ones, each as many
      ticks late as the old queue was long, and the queue keeps its length. */
  lemma NegativeDelayLags<C>(start: seq<C>, cs: seq<C>, delay: int, k: nat)
    requires 1 <= k <= |cs| && CreateRaises(delay)
    ensures Executed(start, cs, delay, k) == Some((start + cs)[k - 1])
    ensures k > |start| ==> Executed(start, cs, delay, k) == Some(cs[k - 1 - |start|])
    ensures |Queue(start, cs, delay, k)| == |start|
  {
    ExecutedOldest(start, cs, delay, k);
    QueueIsSuffix(start, cs, delay, k);
  }

  /** On a freshly created queue, the queue length after k ticks with a
      non-negative delay d is min(k, d). */
  lemma QueueLength<C>(cs: seq<C>, delay: int, k: nat)
    requires k <= |cs| && delay >= 0
    ensures |Queue([], cs, delay, k)| == if k <= delay then k else delay
  {
    QueueIsSuffix([], cs, delay, k);
  }

  /** The queue after k ticks depends only on the first k commands. */
  lemma {:induction false} QueuePrefix<C>(start: seq<C>, cs: seq<C>, ds: seq<C>, delay: int, k: nat)
    requires k <= |cs| && k <= |ds| && cs[..k] == ds[..k]
    ensures Queue(start, cs, delay, k) == Queue(start, ds, delay, k)
  {
    if k > 0 {
      assert cs[..k - 1] == ds[..k - 1];
      QueuePrefix(start, cs, ds, delay, k - 1);
      assert cs[k - 1] == cs[..k][k - 1] == ds[k - 1];
    }
  }

  /** Enqueueing one more command is one more tick. */
  lemma QueueSnoc<C>(start: seq<C>, history: seq<C>, c: C, delay: int)
    ensures Queue(start, history + [c], delay, |history| + 1) == Tick(Queue(start, history, delay, |history|), c, delay).0
    ensures Executed(start, history + [c], delay, |history| + 1) == Tick(Queue(start, history, delay, |history|), c, delay).1
  {
    assert (history + [c])[..|history|] == history[..|history|];
    QueuePrefix(start, history + [c], history, delay, |history|);
  }
}
