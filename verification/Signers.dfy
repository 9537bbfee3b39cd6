/** The collector of partial signatures. */
module Signers {
  import opened Basics
  import opened Players

  /**
   * `startable` says whether the signing library accepts message and offline stage; `combine`
   * is its combination of partial signatures.
   */
  datatype SignTask<!P, !G> = SignTask(index: U16, t: nat, startable: bool, own: P, combine: seq<P> -> Option<G>)

  /** `attempts` lists the collections on which completion was tried. */
  datatype Collector<P, G> = Collector(partials: seq<P>, attempts: seq<seq<P>>, results: seq<G>)

  function OnPartial<P, G>(task: SignTask<P, G>, c: Collector<P, G>, msg: Msg<P>): Collector<P, G> {
    if msg.sender == task.index then c
    else
      var partials := c.partials + [msg.body];
      var c1 := c.(partials := partials);
      if !task.startable || |partials| != task.t then c1
      else
        var c2 := c1.(attempts := c1.attempts + [partials]);
        match task.combine(partials)
        case Some(signature) => c2.(results := c2.results + [signature])
        case None => c2
  }

  class Signer<P, G> {
    const task: SignTask<P, G>
    var partialSigs: seq<P>
    var results: seq<G>
    var outgoing: seq<Msg<P>>
    ghost var attempts: seq<seq<P>>

    ghost function View(): Collector<P, G>
      reads this
    {
      Collector(partialSigs, attempts, results)
    }

    /** On start the signer broadcasts its own partial signature, if it has one. */
    constructor (task: SignTask<P, G>)
      ensures View() == Collector([], [], []) && this.task == task
      ensures outgoing == if task.startable then [Msg(task.index, None, task.own)] else []
    {
      this.task := task;
      partialSigs, results, attempts := [], [], [];
      outgoing := if task.startable then [Msg(task.index, None, task.own)] else [];
    }

    method FinishIfPossible()
      modifies this`results, this`attempts
      ensures partialSigs == old(partialSigs) && task.startable && |partialSigs| == task.t ==>
                && attempts == old(attempts) + [partialSigs]
                && results == old(results) + (match task.combine(partialSigs) case Some(g) => [g] case None => [])
      ensures !(task.startable && |partialSigs| == task.t) ==> attempts == old(attempts) && results == old(results)
    {
      if !task.startable {
        return;
      }
      if |partialSigs| == task.t {
        attempts := attempts + [partialSigs];
        var signature := task.combine(partialSigs);
        if signature.Some? {
          results := results + [signature.value];
        }
      }
    }

    method OnMessage(msg: Msg<P>)
      modifies this`partialSigs, this`results, this`attempts
      ensures View() == OnPartial(task, old(View()), msg)
    {
      if msg.sender == task.index {
        return;
      }
      partialSigs := partialSigs + [msg.body];
      FinishIfPossible();
    }
  }

  // ---- Any arrival sequence ----

  function AfterAll<P, G>(task: SignTask<P, G>, messages: seq<Msg<P>>): Collector<P, G> {
    if messages == [] then Collector([], [], [])
    else OnPartial(task, AfterAll(task, messages[..|messages| - 1]), messages[|messages| - 1])
  }

  /** The partial signatures of others, in order of arrival. */
  function Foreign<P>(index: U16, messages: seq<Msg<P>>): seq<P> {
    if messages == [] then []
    else
      var before := Foreign(index, messages[..|messages| - 1]);
      var last := messages[|messages| - 1];
      if last.sender == index then before else before + [last.body]
  }

  /**
   * Completion is attempted once and on exactly the first t foreign partials if at least t of
   * them have arrived, and never otherwise; with t = 0 it is never attempted at all, since the
   * length is compared only after a push. So a signer reports at most one signature.
   */
  lemma {:induction false} CompletionIsAttemptedOnce<P, G>(task: SignTask<P, G>, messages: seq<Msg<P>>)
    ensures var c := AfterAll(task, messages);
            var foreign := Foreign(task.index, messages);
            && c.partials == foreign
            && c.attempts == (if task.startable && 1 <= task.t <= |foreign| then [foreign[..task.t]] else [])
            && c.results == (if task.startable && 1 <= task.t <= |foreign| && task.combine(foreign[..task.t]).Some?
                             then [task.combine(foreign[..task.t]).value] else [])
  {
    if messages != [] {
      var init := messages[..|messages| - 1];
      CompletionIsAttemptedOnce(task, init);
      var before, foreign := Foreign(task.index, init), Foreign(task.index, messages);
      if task.t <= |before| {
        assert foreign[..task.t] == before[..task.t];
      } else if |foreign| == task.t {
        assert foreign[..task.t] == foreign;
      }
    }
  }
}
