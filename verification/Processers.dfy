/** The runnable queue of a processer (processer/processer.cpp), as its callers use it while nothing else runs. */
module Processers {

  type Task = nat

  class Processer {
    var runnable: seq<Task>

    constructor ()
      ensures runnable == []
    {
      runnable := [];
    }

    /** processer.hpp:66, with no push or pop in progress. */
    function TaskSize(): nat
      reads this
    {
      |runnable|
    }

    /** Lines 86-98: pops until `num` tasks have been taken or the queue is empty. */
    method Steal(num: int) returns (stolen: seq<Task>)
      requires num > 0
      modifies this
      ensures |stolen| == (if num < |old(runnable)| then num else |old(runnable)|)
      ensures stolen + runnable == old(runnable)
    {
      stolen := [];
      var i := 0;
      while i < num
        invariant 0 <= i <= num && |stolen| == i
        invariant stolen + runnable == old(runnable)
      {
        if runnable == [] {
          break;
        }
        stolen := stolen + [runnable[0]];
        runnable := runnable[1..];
        i := i + 1;
      }
    }

    /** Lines 77-80. */
    method AddTask(tasks: seq<Task>)
      modifies this
      ensures runnable == old(runnable) + tasks
    {
      for i := 0 to |tasks|
        invariant runnable == old(runnable) + tasks[..i]
      {
        runnable := runnable + [tasks[i]];
      }
      assert tasks[..|tasks|] == tasks;
    }
  }
}
