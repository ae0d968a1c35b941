/**
  Which plan the checkout step emits: one `git.checkout` fold whose body is
  the standard plan or the sparse plan according to the configuration.
 */
module ModeProperties {
  import opened Shell
  import opened Clone
  import opened PlanWalk

  lemma StandardShape(data: BuildData)
    requires !data.config.sparseCheckout
    ensures CountWhere(Nodes(Apply(data)), IsFoldOp) == 1
    ensures CountWhere(Nodes(Apply(data)), IsIfOp) == 1
    ensures CountWhere(Nodes(Apply(data)), IsGitInit) == 0
  {
    ApplyCount(data, IsFoldOp);
    ApplyCount(data, IsIfOp);
    ApplyCount(data, IsGitInit);
    assert CloneCmd(data).text[0] == Lit("git clone ");
    StandardCount(data, IsFoldOp);
    StandardCount(data, IsIfOp);
    StandardCount(data, IsGitInit);
  }

  lemma SparseShape(data: BuildData)
    requires data.config.sparseCheckout
    ensures CountWhere(Nodes(Apply(data)), IsFoldOp) == 1
    ensures CountWhere(Nodes(Apply(data)), IsIfOp) == 0
    ensures CountWhere(Nodes(Apply(data)), IsGitInit) == 1
  {
    ApplyCount(data, IsFoldOp);
    ApplyCount(data, IsIfOp);
    ApplyCount(data, IsGitInit);
    SparseCount(data, IsFoldOp);
    SparseCount(data, IsIfOp);
    SparseCount(data, IsGitInit);
    AppendsCountNone(SparseCheckoutFiles(data), IsFoldOp);
    AppendsCountNone(SparseCheckoutFiles(data), IsIfOp);
    AppendsCountNone(SparseCheckoutFiles(data), IsGitInit);
  }

  /**
    The plan is one `git.checkout` fold. Its body is the standard plan, with
    its single existence test and no `git init`, exactly when sparse checkout
    is off, and the sparse plan, with one `git init` and no test, exactly when
    it is on.
   */
  lemma ModeSelection(data: BuildData)
    ensures |Apply(data)| == 1 && IsCheckoutFold(Apply(data)[0])
    ensures |Body(data)| > 0
    ensures IsIfOp(Body(data)[0]) <==> !data.config.sparseCheckout
    ensures IsGitInit(Body(data)[0]) <==> data.config.sparseCheckout
    ensures CountWhere(Nodes(Apply(data)), IsFoldOp) == 1
    ensures CountWhere(Nodes(Apply(data)), IsIfOp) == (if data.config.sparseCheckout then 0 else 1)
    ensures CountWhere(Nodes(Apply(data)), IsGitInit) == (if data.config.sparseCheckout then 1 else 0)
  {
    assert CloneOrFetch(data).If?;
    if data.config.sparseCheckout {
      SparseShape(data);
    } else {
      StandardShape(data);
    }
  }
}
