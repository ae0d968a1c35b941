/**
  Where the plan applies the shell escaper: which values pass through it and
  which are interpolated as they are.
 */
module EscapingProperties {
  import opened Shell
  import opened RubyText
  import opened Clone
  import opened PlanWalk

  lemma EscapedInPair(a: string, b: string)
    ensures EscapedIn([Lit(a), Esc(b)]) == [b]
  {
    assert [Lit(a), Esc(b)][1..] == [Esc(b)];
    assert [Esc(b)][1..] == [];
  }

  /** The clone arguments escape the depth, then the branch when no ref is given. */
  lemma EscapedInArgs(data: BuildData)
    ensures EscapedIn(CloneArgs(data))
            == [ToS(data.config.depth)] + (if data.ref.None? then [data.branch] else [])
  {
    var depth := [Lit("--depth="), Esc(DepthText(data))];
    var branch := if data.ref.None? then [Lit(" --branch="), Esc(data.branch)] else [];
    var quiet := if Quiet(data) then [Lit(" --quiet")] else [];
    assert CloneArgs(data) == depth + (branch + quiet);
    EscapedInAppend(depth, branch + quiet);
    EscapedInAppend(branch, quiet);
    EscapedInPair("--depth=", DepthText(data));
    if data.ref.None? {
      EscapedInPair(" --branch=", data.branch);
    }
  }

  lemma EscapedInClone(data: BuildData)
    ensures EscapedIn(CloneCmd(data).text) == EscapedIn(CloneArgs(data))
  {
    var args := CloneArgs(data);
    var tail: Text := [Lit(" "), Raw(data.sourceUrl), Lit(" "), Raw(data.slug)];
    assert CloneCmd(data).text == ([Lit("git clone ")] + args) + tail;
    EscapedInAppend([Lit("git clone ")] + args, tail);
    EscapedInAppend([Lit("git clone ")], args);
  }

  lemma EscapedInPull(data: BuildData)
    ensures EscapedIn(PullGitRepo(data).text) == EscapedIn(CloneArgs(data))
  {
    EscapedInAppend([Lit("git pull origin ")], CloneArgs(data));
  }

  lemma SparseEscaped(data: BuildData)
    requires data.config.sparseCheckout
    ensures Escaped(Nodes(Body(data))) == EscapedIn(CloneArgs(data))
  {
    SparseLayout(data);
    var files := SparseCheckoutFiles(data);
    var head := SparseHead(data);
    EscapedAppend(head, SparseAppends(files) + [PullGitRepo(data)]);
    EscapedAppend(SparseAppends(files), [PullGitRepo(data)]);
    EscapedNone(head);
    EscapedNone(SparseAppends(files));
    EscapedCons(PullGitRepo(data), []);
    EscapedInPull(data);
  }

  lemma StandardEscaped(data: BuildData)
    requires !data.config.sparseCheckout
    ensures Escaped(Nodes(Body(data))) == EscapedIn(CloneArgs(data))
  {
    var op := CloneOrFetch(data);
    var clone := CloneCmd(data);
    var rest := StandardTail(data);
    calc {
      Escaped(Nodes(Body(data)));
    == { StandardLayout(data); }
      Escaped([op] + ([clone] + rest));
    == { EscapedCons(op, [clone] + rest); }
      EscapedIn(NotClonedTest(data)) + Escaped([clone] + rest);
    == { assert EscapedIn(NotClonedTest(data)) == []; }
      Escaped([clone] + rest);
    == { EscapedCons(clone, rest); }
      EscapedIn(clone.text) + Escaped(rest);
    == { StandardTailEscapesNothing(data); EscapedNone(rest); }
      EscapedIn(clone.text) + [];
    == { EscapedInClone(data); }
      EscapedIn(CloneArgs(data));
    }
  }

  /**
    Only the depth and, when no ref is given, the branch pass through the
    shell escaper, once each, in either mode; the URL, directory, ref,
    commit and every literal are interpolated as they are.
   */
  lemma EscapedValues(data: BuildData)
    ensures Escaped(Nodes(Apply(data)))
            == [ToS(data.config.depth)] + (if data.ref.None? then [data.branch] else [])
  {
    ApplyNodes(data);
    EscapedAppend(Apply(data), Nodes(Body(data)));
    assert Escaped(Apply(data)) == [] by {
      assert Apply(data)[1..] == [];
    }
    EscapedInArgs(data);
    if data.config.sparseCheckout {
      SparseEscaped(data);
    } else {
      StandardEscaped(data);
    }
  }

  lemma RawInSimple(a: string, b: string, c: string)
    ensures RawIn([Lit(a), Raw(b), Lit(c)]) == {b}
  {
    assert Raw(b) in [Lit(a), Raw(b), Lit(c)];
  }

  lemma RawInClone(data: BuildData)
    ensures RawIn(CloneCmd(data).text) == {data.sourceUrl, data.slug}
  {
    var args := CloneArgs(data);
    var t := CloneCmd(data).text;
    assert t == [Lit("git clone ")] + args + [Lit(" "), Raw(data.sourceUrl), Lit(" "), Raw(data.slug)];
    assert Raw(data.sourceUrl) in t && Raw(data.slug) in t;
  }

  /** The unescaped values of a list shaped like the standard plan's tail. */
  lemma UnescapedSteps(a: ShellOp, b: ShellOp, c: ShellOp, opt: seq<ShellOp>, g: ShellOp)
    ensures Unescaped([a, b] + ([c] + (opt + [g])))
            == RawIn(OwnText(a)) + RawIn(OwnText(b)) + RawIn(OwnText(c)) + Unescaped(opt) + RawIn(OwnText(g))
  {
    assert [a, b] + ([c] + (opt + [g])) == [a] + ([b] + ([c] + (opt + [g])));
    UnescapedCons(a, [b] + ([c] + (opt + [g])));
    UnescapedCons(b, [c] + (opt + [g]));
    UnescapedCons(c, opt + [g]);
    UnescapedAppend(opt, [g]);
    UnescapedCons(g, []);
  }

  lemma RawInNone(a: string, b: string)
    ensures RawIn([Lit(a), Lit(b)]) == {}
  {
  }

  lemma RawInLitRaw(a: string, b: string)
    ensures RawIn([Lit(a), Raw(b)]) == {b}
  {
    assert Raw(b) in [Lit(a), Raw(b)];
  }

  lemma UnescapedTail(data: BuildData)
    ensures Unescaped(StandardTail(data))
            == {data.slug}
               + (if data.ref.Some? then {data.ref.value} else {})
               + (if !data.pullRequest then {data.commit} else {})
  {
    var opt := if FetchRefWanted(data) then [FetchRef(data)] else [];
    UnescapedSteps(FetchOriginCmd(data), ResetHardCmd(data), Cd(Dir(data)), opt, Checkout(data));
    RawInSimple("git -C ", data.slug, " fetch origin");
    RawInSimple("git -C ", data.slug, " reset --hard");
    RawInNone("git checkout -qf ", "FETCH_HEAD");
    RawInLitRaw("git checkout -qf ", data.commit);
    if data.ref.Some? {
      UnescapedCons(FetchRef(data), []);
      RawInSimple("git fetch origin +", data.ref.value, ":");
    }
  }

  lemma StandardUnescaped(data: BuildData)
    requires !data.config.sparseCheckout
    ensures Unescaped(Nodes(Body(data)))
            == {data.slug, data.sourceUrl}
               + (if data.ref.Some? then {data.ref.value} else {})
               + (if !data.pullRequest then {data.commit} else {})
  {
    var op := CloneOrFetch(data);
    var clone := CloneCmd(data);
    var rest := StandardTail(data);
    var later := (if data.ref.Some? then {data.ref.value} else {})
                 + (if !data.pullRequest then {data.commit} else {});
    calc {
      Unescaped(Nodes(Body(data)));
    == { StandardLayout(data); }
      Unescaped([op] + ([clone] + rest));
    == { UnescapedCons(op, [clone] + rest); UnescapedCons(clone, rest); }
      RawIn(NotClonedTest(data)) + (RawIn(clone.text) + Unescaped(rest));
    == { RawInSimple("! -d ", data.slug, "/.git"); RawInClone(data); UnescapedTail(data); }
      ({data.slug} + ({data.sourceUrl, data.slug} + ({data.slug} + later)));
    == 
      ({data.slug, data.sourceUrl} + later);
    }
  }

  lemma SparseHeadUnescaped(data: BuildData)
    ensures Unescaped(SparseHead(data)) == {data.slug, data.sourceUrl}
  {
    var head := SparseHead(data);
    var last := [Cd(Dir(data)), EnableSparseCmd];
    assert head == [GitInitCmd(data)] + ([RemoteAddCmd(data)] + last);
    UnescapedCons(GitInitCmd(data), [RemoteAddCmd(data)] + last);
    UnescapedCons(RemoteAddCmd(data), last);
    RawInLitRaw("git init ", data.slug);
    RawInLitRaw("git remote add origin ", data.sourceUrl);
    UnescapedNone(last);
  }

  lemma SparseTailInterpolatesNothing(data: BuildData)
    ensures var tail := SparseAppends(SparseCheckoutFiles(data)) + [PullGitRepo(data)];
            forall k :: 0 <= k < |tail| ==> InterpolatesNothing(tail[k])
  {
    var files := SparseCheckoutFiles(data);
    var tail := SparseAppends(files) + [PullGitRepo(data)];
    forall k | 0 <= k < |tail|
      ensures InterpolatesNothing(tail[k])
    {
      if k < |files| {
        assert tail[k] == SparseAppends(files)[k];
      } else {
        assert tail[k] == PullGitRepo(data);
        assert OwnText(tail[k]) == [Lit("git pull origin ")] + CloneArgs(data);
      }
    }
  }

  lemma SparseUnescaped(data: BuildData)
    requires data.config.sparseCheckout
    ensures Unescaped(Nodes(Body(data))) == {data.slug, data.sourceUrl}
  {
    SparseLayout(data);
    var tail := SparseAppends(SparseCheckoutFiles(data)) + [PullGitRepo(data)];
    UnescapedAppend(SparseHead(data), tail);
    SparseHeadUnescaped(data);
    SparseTailInterpolatesNothing(data);
    UnescapedNone(tail);
  }

  /**
    The values interpolated without escaping are the directory and the
    source URL, plus, in standard mode, the ref when given and the commit
    when not building a pull request.
   */
  lemma UnescapedValues(data: BuildData)
    ensures Unescaped(Nodes(Apply(data)))
            == {data.slug, data.sourceUrl}
               + (if !data.config.sparseCheckout && data.ref.Some? then {data.ref.value} else {})
               + (if !data.config.sparseCheckout && !data.pullRequest then {data.commit} else {})
  {
    ApplyNodes(data);
    UnescapedAppend(Apply(data), Nodes(Body(data)));
    assert Unescaped(Apply(data)) == {} by {
      assert Apply(data)[1..] == [];
    }
    if data.config.sparseCheckout {
      SparseUnescaped(data);
    } else {
      StandardUnescaped(data);
    }
  }
}
