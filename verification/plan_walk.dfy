/**
  Views of a checkout plan used by the property modules: the fold's body,
  recognisers for kinds of operation, the nodes of each mode's plan, and
  counting and rendering over short fixed lists.
 */
module PlanWalk {
  import opened Wrappers
  import opened Shell
  import opened RubyText
  import opened Clone

  /** The operations inside the checkout fold. */
  function Body(data: BuildData): seq<ShellOp> {
    Apply(data)[0].body
  }

  predicate IsCommandStarting(op: ShellOp, verb: string) {
    op.Cmd? && |op.text| >= 1 && op.text[0] == Lit(verb)
  }

  predicate IsGitInit(op: ShellOp) {
    IsCommandStarting(op, "git init ")
  }

  predicate IsRefFetch(op: ShellOp) {
    IsCommandStarting(op, "git fetch origin +")
  }

  predicate IsFoldOp(op: ShellOp) {
    op.Fold?
  }

  predicate IsIfOp(op: ShellOp) {
    op.If?
  }

  predicate IsCheckoutFold(op: ShellOp) {
    op.Fold? && op.name == FoldName
  }

  predicate IsStrayAppend(op: ShellOp) {
    op.AppendFile? && (op.path != SparseCheckoutFile || !op.append)
  }

  predicate IsUnassertedCmd(op: ShellOp) {
    op.Cmd? && !op.attrs.asserted
  }

  predicate IsRetriedCmd(op: ShellOp) {
    op.Cmd? && op.attrs.retry
  }

  predicate IsUntimedCmd(op: ShellOp) {
    op.Cmd? && op.attrs.untimed
  }

  predicate IsAttributedCmd(op: ShellOp) {
    op.Cmd? && op.attrs != NoAttrs
  }

  lemma NodesOfFlat(ops: seq<ShellOp>)
    requires forall k :: 0 <= k < |ops| ==> ops[k].Cmd? || ops[k].Cd? || ops[k].AppendFile?
    ensures Nodes(ops) == ops
    decreases |ops|
  {
    if ops != [] {
      NodesOfFlat(ops[1..]);
    }
  }

  /** Walking a test followed by more operations: the test, its branches, then the rest. */
  lemma NodesOfTestThen(cond: Text, thn: seq<ShellOp>, els: seq<ShellOp>, tail: seq<ShellOp>)
    ensures Nodes([If(cond, thn, els)] + tail) == [If(cond, thn, els)] + (Nodes(thn) + (Nodes(els) + Nodes(tail)))
  {
    var op := If(cond, thn, els);
    assert Nodes([op] + tail) == Nodes([op]) + Nodes(tail) by {
      NodesAppend([op], tail);
    }
    assert Nodes([op]) == [op] + (Nodes(thn) + Nodes(els)) by {
      NodesSingle(op);
    }
    SeqAssoc(Nodes(thn), Nodes(els), Nodes(tail));
    SeqAssoc([op], Nodes(thn) + Nodes(els), Nodes(tail));
  }

  lemma SeqAssoc(a: seq<ShellOp>, b: seq<ShellOp>, c: seq<ShellOp>)
    ensures a + b + c == a + (b + c)
  {
  }

  /** The standard plan's nodes after the existence test and the clone it guards. */
  function StandardTail(data: BuildData): seq<ShellOp> {
    [FetchOriginCmd(data), ResetHardCmd(data)] + CheckoutSteps(data)
  }

  /** The nodes of the standard plan: the test, both its branches, then the later steps. */
  lemma StandardNodes(data: BuildData)
    ensures Nodes(StandardPlan(data)) == [CloneOrFetch(data)] + ([CloneCmd(data)] + StandardTail(data))
  {
    var op := CloneOrFetch(data);
    var steps := CheckoutSteps(data);
    NodesOfFlat(op.thn);
    NodesOfFlat(op.els);
    NodesOfFlat(steps);
    NodesOfTestThen(op.cond, op.thn, op.els, steps);
  }

  /** The sparse plan before its appends: init, remote, change of directory, enabling. */
  function SparseHead(data: BuildData): seq<ShellOp> {
    [GitInitCmd(data), RemoteAddCmd(data), Cd(Dir(data)), EnableSparseCmd]
  }

  lemma SparseRegroup(a: ShellOp, b: ShellOp, c: ShellOp, d: ShellOp, s: seq<ShellOp>, e: ShellOp)
    ensures [a, b] + ([c] + (([d] + s) + [e])) == [a, b, c, d] + (s + [e])
  {
  }

  lemma NodesOfFlatParts(head: seq<ShellOp>, mid: seq<ShellOp>, last: ShellOp)
    requires Nodes(head) == head && Nodes(mid) == mid && Nodes([last]) == [last]
    ensures Nodes(head + (mid + [last])) == head + (mid + [last])
  {
    NodesAppend(head, mid + [last]);
    NodesAppend(mid, [last]);
  }

  /** The sparse plan is flat: its nodes are its operations, the head, the appends and the pull. */
  lemma SparseNodes(data: BuildData)
    ensures SparsePlan(data) == SparseHead(data) + (SparseAppends(SparseCheckoutFiles(data)) + [PullGitRepo(data)])
    ensures Nodes(SparsePlan(data)) == SparsePlan(data)
  {
    var appends := SparseAppends(SparseCheckoutFiles(data));
    SparseRegroup(GitInitCmd(data), RemoteAddCmd(data), Cd(Dir(data)), EnableSparseCmd, appends,
                  PullGitRepo(data));
    NodesOfFlat(SparseHead(data));
    NodesOfFlat(appends);
    NodesOfFlat([PullGitRepo(data)]);
    NodesOfFlatParts(SparseHead(data), appends, PullGitRepo(data));
  }

  lemma ApplyNodes(data: BuildData)
    ensures Nodes(Apply(data)) == Apply(data) + Nodes(Body(data))
  {
    NodesSingle(Apply(data)[0]);
    assert Apply(data) == [Apply(data)[0]];
  }

  /** Counting over the whole plan: the fold itself, then the nodes of its body. */
  lemma ApplyCount(data: BuildData, p: ShellOp -> bool)
    ensures CountWhere(Nodes(Apply(data)), p)
            == (if p(Apply(data)[0]) then 1 else 0) + CountWhere(Nodes(Body(data)), p)
  {
    ApplyNodes(data);
    CountWhereAppend(Apply(data), Nodes(Body(data)), p);
  }

  lemma CountCons(x: ShellOp, rest: seq<ShellOp>, p: ShellOp -> bool)
    ensures CountWhere([x] + rest, p) == (if p(x) then 1 else 0) + CountWhere(rest, p)
  {
    assert ([x] + rest)[1..] == rest;
  }

  /** Standard mode: counting over the plan's nodes one by one. */
  lemma StandardCount(data: BuildData, p: ShellOp -> bool)
    ensures CountWhere(Nodes(StandardPlan(data)), p)
            == (if p(CloneOrFetch(data)) then 1 else 0)
               + (if p(CloneCmd(data)) then 1 else 0)
               + (if p(FetchOriginCmd(data)) then 1 else 0)
               + (if p(ResetHardCmd(data)) then 1 else 0)
               + (if p(Cd(Dir(data))) then 1 else 0)
               + (if FetchRefWanted(data) && p(FetchRef(data)) then 1 else 0)
               + (if p(Checkout(data)) then 1 else 0)
  {
    StandardNodes(data);
    CountSteps(CloneOrFetch(data), CloneCmd(data), FetchOriginCmd(data), ResetHardCmd(data), Cd(Dir(data)),
               if FetchRefWanted(data) then [FetchRef(data)] else [], Checkout(data), p);
    if FetchRefWanted(data) {
      CountSingle(FetchRef(data), p);
    }
  }

  /** Counting over a list shaped like the standard plan's nodes. */
  lemma CountSteps(a: ShellOp, b: ShellOp, c: ShellOp, d: ShellOp, e: ShellOp, opt: seq<ShellOp>, g: ShellOp,
                   p: ShellOp -> bool)
    ensures CountWhere([a] + ([b] + ([c, d] + ([e] + (opt + [g])))), p)
            == (if p(a) then 1 else 0) + (if p(b) then 1 else 0) + (if p(c) then 1 else 0)
               + (if p(d) then 1 else 0) + (if p(e) then 1 else 0) + CountWhere(opt, p)
               + (if p(g) then 1 else 0)
  {
    CountCons(a, [b] + ([c, d] + ([e] + (opt + [g]))), p);
    CountCons(b, [c, d] + ([e] + (opt + [g])), p);
    CountWhereAppend([c, d], [e] + (opt + [g]), p);
    CountPair(c, d, p);
    CountCons(e, opt + [g], p);
    CountWhereAppend(opt, [g], p);
    CountSingle(g, p);
  }

  /** Sparse mode: counting over the fixed head, the appends and the pull. */
  lemma SparseCount(data: BuildData, p: ShellOp -> bool)
    ensures CountWhere(Nodes(SparsePlan(data)), p)
            == (if p(GitInitCmd(data)) then 1 else 0)
               + (if p(RemoteAddCmd(data)) then 1 else 0)
               + (if p(Cd(Dir(data))) then 1 else 0)
               + (if p(EnableSparseCmd) then 1 else 0)
               + CountWhere(SparseAppends(SparseCheckoutFiles(data)), p)
               + (if p(PullGitRepo(data)) then 1 else 0)
  {
    SparseNodes(data);
    CountParts(GitInitCmd(data), RemoteAddCmd(data), Cd(Dir(data)), EnableSparseCmd,
               SparseAppends(SparseCheckoutFiles(data)), PullGitRepo(data), p);
  }

  /** A property no sparse-checkout append has is met by none of the appends. */
  lemma AppendsCountNone(files: seq<string>, p: ShellOp -> bool)
    requires forall f :: !p(AppendFile(SparseCheckoutFile, f, true))
    ensures CountWhere(SparseAppends(files), p) == 0
  {
    var ops := SparseAppends(files);
    forall k | 0 <= k < |ops|
      ensures !p(ops[k])
    {
      assert ops[k] == AppendFile(SparseCheckoutFile, files[k], true);
    }
  }

  /** Counting over a list shaped like the sparse plan. */
  lemma CountParts(a: ShellOp, b: ShellOp, c: ShellOp, d: ShellOp, s: seq<ShellOp>, e: ShellOp,
                   p: ShellOp -> bool)
    ensures CountWhere([a, b, c, d] + (s + [e]), p)
            == (if p(a) then 1 else 0) + (if p(b) then 1 else 0) + (if p(c) then 1 else 0)
               + (if p(d) then 1 else 0) + CountWhere(s, p) + (if p(e) then 1 else 0)
  {
    CountWhereAppend([a, b, c, d], s + [e], p);
    CountWhereAppend(s, [e], p);
    CountSingle(e, p);
    assert [a, b, c, d] == [a, b] + [c, d];
    CountWhereAppend([a, b], [c, d], p);
    CountPair(a, b, p);
    CountPair(c, d, p);
  }

  lemma CountSingle(x: ShellOp, p: ShellOp -> bool)
    ensures CountWhere([x], p) == if p(x) then 1 else 0
  {
    assert [x][1..] == [];
  }

  lemma CountPair(a: ShellOp, b: ShellOp, p: ShellOp -> bool)
    ensures CountWhere([a, b], p) == (if p(a) then 1 else 0) + (if p(b) then 1 else 0)
  {
    assert [a, b] == [a] + [b];
    CountCons(a, [b], p);
    CountSingle(b, p);
  }

  lemma StandardTailEscapesNothing(data: BuildData)
    ensures forall k :: 0 <= k < |StandardTail(data)| ==> EscapesNothing(StandardTail(data)[k])
  {
    assert EscapesNothing(FetchOriginCmd(data));
    assert EscapesNothing(ResetHardCmd(data));
    assert EscapesNothing(Cd(Dir(data)));
    assert EscapesNothing(FetchRef(data));
    assert EscapesNothing(Checkout(data));
  }

  lemma StandardLayout(data: BuildData)
    requires !data.config.sparseCheckout
    ensures Nodes(Body(data)) == [CloneOrFetch(data)] + ([CloneCmd(data)] + StandardTail(data))
  {
    StandardNodes(data);
  }

  lemma SparseLayout(data: BuildData)
    requires data.config.sparseCheckout
    ensures Nodes(Body(data)) == Body(data)
    ensures Body(data) == SparseHead(data) + (SparseAppends(SparseCheckoutFiles(data)) + [PullGitRepo(data)])
    ensures forall k :: 0 <= k < 4 ==>
              !IsAppend(SparseHead(data)[k]) && EscapesNothing(SparseHead(data)[k])
  {
    SparseNodes(data);
  }

  lemma RenderPair(a: Piece, b: Piece, escape: string -> string)
    ensures Render([a, b], escape) == PieceString(a, escape) + PieceString(b, escape)
  {
    assert [a, b] == [a] + [b];
    RenderAppend([a], [b], escape);
    RenderSingle(a, escape);
    RenderSingle(b, escape);
  }

  lemma RenderTriple(a: Piece, b: Piece, c: Piece, escape: string -> string)
    ensures Render([a, b, c], escape) == PieceString(a, escape) + PieceString(b, escape) + PieceString(c, escape)
  {
    assert [a, b, c] == [a, b] + [c];
    RenderAppend([a, b], [c], escape);
    RenderPair(a, b, escape);
    RenderSingle(c, escape);
  }

  lemma RenderSimple(a: string, b: string, c: string, escape: string -> string)
    ensures Render([Lit(a), Raw(b), Lit(c)], escape) == a + b + c
  {
    RenderTriple(Lit(a), Raw(b), Lit(c), escape);
  }

  lemma RenderLiteral(a: string, escape: string -> string)
    ensures Render([Lit(a)], escape) == a
  {
    RenderSingle(Lit(a), escape);
  }

  lemma RenderLitRaw(a: string, b: string, escape: string -> string)
    ensures Render([Lit(a), Raw(b)], escape) == a + b
  {
    RenderPair(Lit(a), Raw(b), escape);
  }

  /** The two space-separated values that end the clone command, rendered. */
  lemma RenderTwoValues(url: string, dir: string, escape: string -> string)
    ensures Render([Lit(" "), Raw(url), Lit(" "), Raw(dir)], escape) == " " + url + " " + dir
  {
    assert [Lit(" "), Raw(url), Lit(" "), Raw(dir)] == [Lit(" "), Raw(url)] + [Lit(" "), Raw(dir)];
    RenderAppend([Lit(" "), Raw(url)], [Lit(" "), Raw(dir)], escape);
    RenderLitRaw(" ", url, escape);
    RenderLitRaw(" ", dir, escape);
  }

  /** The shape of the clone command's text, rendered. */
  lemma RenderCloneShape(verb: string, args: Text, url: string, dir: string, escape: string -> string)
    ensures Render([Lit(verb)] + args + [Lit(" "), Raw(url), Lit(" "), Raw(dir)], escape)
            == verb + Render(args, escape) + " " + url + " " + dir
  {
    var head := [Lit(verb)] + args;
    var tail: Text := [Lit(" "), Raw(url), Lit(" "), Raw(dir)];
    var h := verb + Render(args, escape);
    calc {
      Render(head + tail, escape);
    == { RenderAppend(head, tail, escape); }
      Render(head, escape) + Render(tail, escape);
    == { RenderAppend([Lit(verb)], args, escape); RenderLiteral(verb, escape); }
      h + Render(tail, escape);
    == { RenderTwoValues(url, dir, escape); }
      h + (" " + url + " " + dir);
    == 
      h + " " + url + " " + dir;
    }
  }
}
