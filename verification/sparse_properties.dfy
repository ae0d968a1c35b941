/**
  The sparse plan: a fresh repository, the sparse-checkout patterns appended
  in list order, and one pull with the clone arguments.
 */
module SparseProperties {
  import opened Shell
  import opened Clone
  import opened PlanWalk

  /**
    The sparse plan, in order: `git init <dir>` and `git remote add origin
    <url>` without attributes, the change into the directory, enabling
    sparse checkout, one append per pattern, and last `git pull origin` with
    the clone arguments, also without attributes. There is no existence test.
   */
  lemma SparseOrder(data: BuildData, escape: string -> string)
    requires data.config.sparseCheckout
    ensures var body := Body(data);
            var files := data.config.sparseCheckoutFiles;
            && |body| == |files| + 5
            && body[0].Cmd? && Render(body[0].text, escape) == "git init " + data.slug
            && body[1].Cmd? && Render(body[1].text, escape) == "git remote add origin " + data.sourceUrl
            && body[0].attrs == NoAttrs && body[1].attrs == NoAttrs
            && body[2] == Cd(data.slug)
            && body[3].Cmd? && Render(body[3].text, escape) == "git config core.sparseCheckout true"
            && body[3].attrs == NoAttrs
            && (forall k :: 4 <= k < |files| + 4 ==>
                  body[k] == AppendFile(".git/info/sparse-checkout", files[k - 4], true))
            && body[|files| + 4].Cmd?
            && Render(body[|files| + 4].text, escape)
               == "git pull origin " + Render(CloneArgs(data), escape)
            && body[|files| + 4].attrs == NoAttrs
  {
    RenderLitRaw("git init ", data.slug, escape);
    RenderLitRaw("git remote add origin ", data.sourceUrl, escape);
    RenderLiteral("git config core.sparseCheckout true", escape);
    var pull := PullGitRepo(data);
    assert pull.text == [Lit("git pull origin ")] + CloneArgs(data);
    RenderAppend([Lit("git pull origin ")], CloneArgs(data), escape);
    RenderLiteral("git pull origin ", escape);
  }

  /** Collecting the appended lines of the appends gives back the pattern list. */
  lemma {:induction false} SparseAppendLines(files: seq<string>)
    ensures AppendedLines(SparseAppends(files)) == files
    decreases |files|
  {
    if files != [] {
      var ops := SparseAppends(files);
      assert ops == [ops[0]] + SparseAppends(files[1..]);
      AppendedLinesAppend([ops[0]], SparseAppends(files[1..]));
      SparseAppendLines(files[1..]);
      assert [ops[0]][1..] == [];
    }
  }

  lemma SparseBodyLines(data: BuildData)
    requires data.config.sparseCheckout
    ensures AppendedLines(Nodes(Body(data))) == data.config.sparseCheckoutFiles
  {
    SparseLayout(data);
    var files := SparseCheckoutFiles(data);
    var head := SparseHead(data);
    var tail := [PullGitRepo(data)];
    AppendedLinesAppend(head, SparseAppends(files) + tail);
    AppendedLinesAppend(SparseAppends(files), tail);
    SparseAppendLines(files);
    assert CountWhere(head, IsAppend) == 0;
    assert CountWhere(tail, IsAppend) == 0;
  }

  lemma SparseBodyNoStray(data: BuildData)
    requires data.config.sparseCheckout
    ensures CountWhere(Nodes(Body(data)), IsStrayAppend) == 0
  {
    SparseCount(data, IsStrayAppend);
    AppendsCountNone(SparseCheckoutFiles(data), IsStrayAppend);
  }

  /**
    The lines appended anywhere in the plan are exactly the sparse-checkout
    patterns, in list order, in sparse mode, and there are none otherwise;
    every append targets the sparse-checkout file in append mode.
   */
  lemma SparseAppendsFollowList(data: BuildData)
    ensures AppendedLines(Nodes(Apply(data)))
            == if data.config.sparseCheckout then data.config.sparseCheckoutFiles else []
    ensures CountWhere(Nodes(Apply(data)), IsAppend)
            == if data.config.sparseCheckout then |data.config.sparseCheckoutFiles| else 0
    ensures CountWhere(Nodes(Apply(data)), IsStrayAppend) == 0
  {
    ApplyNodes(data);
    AppendedLinesAppend(Apply(data), Nodes(Body(data)));
    ApplyCount(data, IsStrayAppend);
    assert AppendedLines(Apply(data)) == [] by {
      assert Apply(data)[1..] == [];
    }
    if data.config.sparseCheckout {
      SparseBodyLines(data);
      SparseBodyNoStray(data);
    } else {
      StandardCount(data, IsAppend);
      StandardCount(data, IsStrayAppend);
    }
  }

  /** In sparse mode no command carries any attribute, the network pull included. */
  lemma SparseAttributes(data: BuildData)
    requires data.config.sparseCheckout
    ensures CountWhere(Nodes(Apply(data)), IsAttributedCmd) == 0
  {
    ApplyCount(data, IsAttributedCmd);
    SparseCount(data, IsAttributedCmd);
    AppendsCountNone(SparseCheckoutFiles(data), IsAttributedCmd);
  }
}
