/** One step of the engine as a relation between scheduler states. */
module StepRelations {
  import opened Results
  import opened Network
  import opened ForwardBatches
  import opened Schedulers

  /** What one step returns and leaves, given the tokens it sampled. */
  ghost predicate StepOutcome(net: Net, c: Config, e: Sched, r: Result<()>, batch: seq<BatchItem>, tokens: seq<Token>,
                              t: Sched) {
    && c.bs > 0 && Indexed(e)
    && var (sel, items) := Select(c, Admit(c, e));
       && batch == items && |sel.blocks| == |sel.sequences|
       && if items == [] then r == Ok(()) && t == sel
          else DistinctItems(items, |sel.blocks|) && ForwardOutcome(net, c, sel, items, r, tokens, t)
  }

  /** A batch outside the vocabulary fails after its reservations; any other gives each item a token. */
  ghost predicate ForwardOutcome(net: Net, c: Config, sel: Sched, items: seq<BatchItem>, r: Result<()>,
                                 tokens: seq<Token>, t: Sched)
    requires c.bs > 0 && Indexed(sel) && DistinctItems(items, |sel.blocks|)
  {
    var (reserved, grown, pool) := ReserveItems(c.bs, sel.pool, sel.blocks, items, 0);
    && reserved.Ok?
    && if !ItemsInVocab(net, items) then r == Throws(TokenOutOfRange) && t == sel.(pool := pool, blocks := grown)
       else
         && r == Ok(()) && |tokens| == |items| && AllInVocab(net, tokens)
         && exists out :: Committed(grown, items, out)
              && TookTokens(c, sel.(pool := pool, blocks := out), items, tokens, t)
  }

  ghost predicate TookTokens(c: Config, mid: Sched, items: seq<BatchItem>, tokens: seq<Token>, t: Sched) {
    && c.bs > 0 && Indexed(mid) && |tokens| == |items| && DistinctItems(items, |mid.sequences|)
    && t == Retire(TakeAll(c, mid, items, tokens))
  }

  lemma OkIsUnit(r: Result<()>)
    requires r.Ok?
    ensures r == Ok(())
  {
    assert r.value == ();
  }
}
