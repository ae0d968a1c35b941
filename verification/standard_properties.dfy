/**
  The standard plan: clone or refresh, change directory, optional ref fetch,
  final checkout, and the attributes of each command.
 */
module StandardProperties {
  import opened Wrappers
  import opened Shell
  import opened Clone
  import opened PlanWalk

  /** The clone command renders as `git clone <args> <url> <dir>`. */
  lemma RenderClone(data: BuildData, escape: string -> string)
    ensures Render(CloneCmd(data).text, escape)
            == "git clone " + Render(CloneArgs(data), escape) + " " + data.sourceUrl + " " + data.slug
  {
    RenderCloneShape("git clone ", CloneArgs(data), data.sourceUrl, data.slug, escape);
  }

  /**
    The first standard step tests `! -d <dir>/.git`. When it holds, the one
    command clones the URL into the directory with the clone arguments,
    asserted and retried; otherwise the existing copy is fetched (asserted,
    retried) and then hard-reset (asserted, untimed, not retried).
   */
  lemma StandardFirstStep(data: BuildData, escape: string -> string)
    requires !data.config.sparseCheckout
    ensures var first := Body(data)[0];
            && first.If?
            && Render(first.cond, escape) == "! -d " + data.slug + "/.git"
            && |first.thn| == 1 && first.thn[0].Cmd?
            && Render(first.thn[0].text, escape)
               == "git clone " + Render(CloneArgs(data), escape) + " " + data.sourceUrl + " " + data.slug
            && first.thn[0].attrs == Attrs(true, true, false)
            && |first.els| == 2 && first.els[0].Cmd? && first.els[1].Cmd?
            && Render(first.els[0].text, escape) == "git -C " + data.slug + " fetch origin"
            && first.els[0].attrs == Attrs(true, true, false)
            && Render(first.els[1].text, escape) == "git -C " + data.slug + " reset --hard"
            && first.els[1].attrs == Attrs(true, false, true)
  {
    RenderSimple("! -d ", data.slug, "/.git", escape);
    RenderSimple("git -C ", data.slug, " fetch origin", escape);
    RenderSimple("git -C ", data.slug, " reset --hard", escape);
    RenderClone(data, escape);
  }

  /**
    In standard mode a ref fetch appears exactly once when a ref is given and
    never otherwise; the sparse plan never fetches a ref.
   */
  lemma RefFetchCount(data: BuildData)
    ensures CountWhere(Nodes(Apply(data)), IsRefFetch)
            == (if !data.config.sparseCheckout && data.ref.Some? then 1 else 0)
  {
    ApplyCount(data, IsRefFetch);
    if data.config.sparseCheckout {
      SparseCount(data, IsRefFetch);
      AppendsCountNone(SparseCheckoutFiles(data), IsRefFetch);
      assert PullGitRepo(data).text[0] == Lit("git pull origin ");
    } else {
      StandardCount(data, IsRefFetch);
      assert CloneCmd(data).text[0] == Lit("git clone ");
    }
  }

  /**
    When a ref is given, its fetch of `+<ref>:` from origin, asserted and
    retried, stands between the change into the working directory and the
    final checkout; without a ref the change of directory is followed
    directly by the checkout.
   */
  lemma RefFetchPlacement(data: BuildData, escape: string -> string)
    requires !data.config.sparseCheckout
    ensures |Body(data)| == if data.ref.Some? then 4 else 3
    ensures Body(data)[0].If? && Body(data)[1] == Cd(data.slug)
    ensures Body(data)[|Body(data)| - 1] == Checkout(data)
    ensures data.ref.Some? ==>
              && IsRefFetch(Body(data)[2])
              && Render(Body(data)[2].text, escape) == "git fetch origin +" + data.ref.value + ":"
              && Body(data)[2].attrs == Attrs(true, true, false)
  {
    if data.ref.Some? {
      RenderSimple("git fetch origin +", data.ref.value, ":", escape);
    }
  }

  /**
    The last standard step checks out FETCH_HEAD for a pull request and the
    commit otherwise, forced and quiet, untimed, with neither assert nor retry.
   */
  lemma FinalCheckout(data: BuildData, escape: string -> string)
    requires !data.config.sparseCheckout
    ensures var body := Body(data);
            var last := body[|body| - 1];
            && last.Cmd?
            && Render(last.text, escape)
               == "git checkout -qf " + (if data.pullRequest then "FETCH_HEAD" else data.commit)
            && last.attrs == Attrs(false, false, true)
  {
    RenderPair(Lit("git checkout -qf "), Checkout(data).text[1], escape);
  }

  /** Whether a ref is given changes nothing about the final checkout. */
  lemma FinalCheckoutIgnoresRef(data: BuildData, ref: Option<string>)
    requires !data.config.sparseCheckout
    ensures var b1 := Body(data);
            var b2 := Body(data.(ref := ref));
            b1[|b1| - 1] == b2[|b2| - 1]
  {
  }

  /**
    In standard mode the final checkout is the only command without assert;
    the clone, the fetch of origin and the ref fetch (when present) are the
    retried commands; the hard reset and the final checkout are untimed.
   */
  lemma StandardAttributes(data: BuildData)
    requires !data.config.sparseCheckout
    ensures CountWhere(Nodes(Apply(data)), IsUnassertedCmd) == 1
    ensures IsUnassertedCmd(Body(data)[|Body(data)| - 1])
    ensures CountWhere(Nodes(Apply(data)), IsRetriedCmd) == if data.ref.Some? then 3 else 2
    ensures CountWhere(Nodes(Apply(data)), IsUntimedCmd) == 2
  {
    ApplyCount(data, IsUnassertedCmd);
    StandardCount(data, IsUnassertedCmd);
    ApplyCount(data, IsRetriedCmd);
    StandardCount(data, IsRetriedCmd);
    ApplyCount(data, IsUntimedCmd);
    StandardCount(data, IsUntimedCmd);
  }
}
