/**
 What the scrub of one Run means to the others: its branch moves on, so whoever took
 work from the earlier branch fails the source fence.
 */
module ScrubBranches {
  import opened Wrappers
  import opened SourceKeys
  import opened Scrub
  import B = SourceBranches

  /** The branches a list of sources captures. */
  function Captured(sources: seq<Source>): (r: seq<B.Entry>)
    ensures forall e :: e in r <==> exists s <- sources :: s.parent != "" && e == B.Entry(s.parent, s.revision)
  {
    if sources == [] then []
    else
      var front, last := sources[..|sources| - 1], sources[|sources| - 1];
      assert forall s <- sources :: s in front || s == last;
      assert forall s <- front :: s in sources;
      Captured(front) + if last.parent == "" then [] else [B.Entry(last.parent, last.revision)]
  }

  /** A Run as the fence between branches sees it. */
  function RowOf(c: Copies): B.Row { B.Row(c.branch, c.revoked, Captured(c.provenance)) }

  /** The store after the copies of one Run were replaced. */
  function WithCopies(store: B.Store, id: Id, c: Copies): B.Store { store[id := RowOf(c)] }

  /** The Run moves to a later branch, loses its access, and captures nothing it had no source for. */
  lemma ScrubMovesBranch(c: Copies, v: Verdicts, s: Source)
    requires Stands(c, s) && !Authorized(s, v)
    ensures var after := RowOf(Refreshed(c, v));
            && after.revoked && after.branch == c.branch + 1
            && forall e <- after.captured :: e in Captured(RunSources(c))
  {
    hide Stands, Authorized, Found, NeedsScrub, Kept, RunSources, SourceInvalid;
    AnswerWithdrawn(c, v, s);
    if NeedsScrub(c, Found(c, v)) { ScrubIsExact(c, Found(c, v), 0); }
  }

  /**
   Once a source that stood in a Run is denied, its refresh makes every Run that captured
   the branch before it fail the fence: at once, and in every later state in which no scrub
   of its own has revoked it.
   */
  lemma ConsumersFail(store: B.Store, id: Id, c: Copies, v: Verdicts, s: Source, consumer: Id, steps: seq<B.Step>)
    requires id in store && store[id] == RowOf(c) && Stands(c, s) && !Authorized(s, v)
    requires consumer in store && consumer != id && B.Entry(id, c.branch) in store[consumer].captured
    ensures var after := WithCopies(store, id, Refreshed(c, v));
            && !B.SourcesPass(after, consumer)
            && var later := B.Run(after, steps);
            consumer in later && (!B.SourcesPass(later, consumer) || (later[consumer].revoked && store[consumer].branch < later[consumer].branch))
  {
    hide B.Run, Stands, Authorized, Refreshed, Captured;
    ScrubMovesBranch(c, v, s);
    var after := WithCopies(store, id, Refreshed(c, v));
    var e := B.Entry(id, c.branch);
    assert e in after[consumer].captured && !B.Current(after, e);
    B.MovedBranchFailsForEver(after, steps, consumer, e);
  }
}
