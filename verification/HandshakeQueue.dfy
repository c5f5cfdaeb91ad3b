/**
When the pop of the lock-free queue answers "empty": never but as the handshakes allow for.
*/
module HandshakeQueue {
  import opened Options
  import opened QueueModel
  import opened QueueInvariant
  import opened QueueFrames
  import opened QueueSteps
  import opened QueueRefinement
  import opened QueueTheorems
  import opened QueueLedger
  import Handshake

  /** The queue as the handshake sees it: the values from `head` to `tail`, and how many have been appended in all. */
  function Image(s: State): Handshake.State {
    Handshake.State(Queue(s), Handshake.Books(Ledger(s), [], [], []), false, Handshake.Nobody, Handshake.Boot, map[])
  }

  /** Thread b's pop performs its first load at line 184 in the i-th state, and is about to answer in the j-th. */
  predicate PopsFrom(run: seq<State>, b: Tid, i: nat, j: nat, ptr: NodeId) {
    && i < j < |run|
    && b in run[i].threads && run[i].threads[b] == PopPeek
    && forall m | i < m <= j :: b in run[m].threads && run[m].threads[b] == PopPeekAgain(ptr)
  }

  lemma OnlyItsOwn(cfg: Config, s: State, a: Tid, act: Action, b: Tid)
    requires a in s.threads && Enabled(s.threads[a], act) && b in s.threads && a != b
    ensures b in Apply(cfg, s, a, act).threads && Apply(cfg, s, a, act).threads[b] == s.threads[b]
  {
    OneThread(cfg, s, a, act);
    hide Apply;
  }

  lemma PeekStep(cfg: Config, s: State, b: Tid, act: Action)
    requires b in s.threads && s.threads[b] == PopPeek
    ensures b in Apply(cfg, s, b, act).threads
    ensures Apply(cfg, s, b, act).threads[b] == PopPeekAgain(if cfg.headFirst then s.head.ptr else s.tail.ptr)
  {
  }

  /** What the first load found. */
  lemma FirstLoad(cfg: Config, run: seq<State>, b: Tid, i: nat, j: nat, ptr: NodeId)
    requires Run(cfg, run) && PopsFrom(run, b, i, j, ptr)
    ensures ptr == if cfg.headFirst then run[i].head.ptr else run[i].tail.ptr
  {
    hide Run, Apply, Meaning, SpecStep, Abs;
    assert run[i + 1].threads[b] == PopPeekAgain(ptr);
    var a, act := NextRefines(cfg, run, i + 1);
    if a == b { PeekStep(cfg, run[i], b, act); } else { OnlyItsOwn(cfg, run[i], a, act, b); }
  }

  lemma QueueLength(s: State)
    requires s.h <= s.t
    ensures |Queue(s)| == s.t - s.h
  {
  }

  /** A pop that answers "empty" at line 184 misses what a pop of the handshake that started at its first load may
      miss; and with `tail` loaded first it answers so exactly when every value in the queue has been appended since. */
  lemma PeekMisses(cfg: Config, hs: Handshake.Config, run: seq<State>, b: Tid, i: nat, j: nat, ptr: NodeId)
    requires Run(cfg, run) && PopsFrom(run, b, i, j, ptr) && hs.headFirst == cfg.headFirst
    ensures var next := Apply(cfg, run[j], b, Go).threads;
            && b in next && (next[b] == PopDone(None) ==> Handshake.Misses(hs, Image(run[j]), run[i].t, true))
            && (!cfg.headFirst ==> (next[b] == PopDone(None) <==> run[j].t - |Queue(run[j])| == run[i].t))
  {
    hide Run, Inv, Queue, Ledger;
    FirstLoad(cfg, run, b, i, j, ptr);
    RunInv(cfg, run, j);
    Bounds(cfg, run[j]);
    QueueLength(run[j]);
    LedgerLength(run[j]);
    if cfg.headFirst {
      EmptyIsTrue(cfg, run[j], b);
    } else {
      MissedValuesAreNew(cfg, run, i, j);
    }
  }

  /** A pop that answers "empty" at line 195 does so of an empty queue, which any pop of the handshake may miss. */
  lemma CheckMisses(cfg: Config, hs: Handshake.Config, run: seq<State>, b: Tid, j: nat, w: Word, seen: nat)
    requires Run(cfg, run) && j < |run| && b in run[j].threads && run[j].threads[b] == PopCheck(w)
    requires w.ptr == run[j].tail.ptr
    ensures Handshake.Misses(hs, Image(run[j]), seen, true)
  {
    hide Run, Inv, Queue, Ledger;
    RunInv(cfg, run, j);
    Bounds(cfg, run[j]);
    QueueLength(run[j]);
    LedgerLength(run[j]);
    EmptyIsTrue(cfg, run[j], b);
  }
}
