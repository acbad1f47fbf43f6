/**
 * The path rewrite `generate_index_page` applies to the template of every
 * page after the first: the pages live two directories deeper
 * (blog/page/N/), so relative asset, image, stylesheet and script paths
 * gain the matching `../` steps. Six `str.replace` calls, in order.
 */
module AssetRewrite {
  import opened Text
  import opened PathSeparation

  const HrefAssets: string := "href=\"assets/"
  const SrcAssets: string := "src=\"assets/"
  const HrefImages: string := "href=\"../images/"
  const SrcImages: string := "src=\"../images/"
  const HrefCss: string := "href=\"../css/"
  const SrcJs: string := "src=\"../js/"
  const HrefAssetsDeep: string := "href=\"../../assets/"
  const SrcAssetsDeep: string := "src=\"../../assets/"
  const HrefImagesDeep: string := "href=\"../../../images/"
  const SrcImagesDeep: string := "src=\"../../../images/"
  const HrefCssDeep: string := "href=\"../../../css/"
  const SrcJsDeep: string := "src=\"../../../js/"

  /** The six `(old, new)` arguments of the replace chain, in the order they are applied. */
  const AssetRewrites: seq<(string, string)> := [
    (HrefAssets, HrefAssetsDeep),
    (SrcAssets, SrcAssetsDeep),
    (HrefImages, HrefImagesDeep),
    (SrcImages, SrcImagesDeep),
    (HrefCss, HrefCssDeep),
    (SrcJs, SrcJsDeep)
  ]

  /** Applies the replacements one after another. */
  function RewriteAll(t: string, rws: seq<(string, string)>): string {
    if rws == [] then t
    else Replace(RewriteAll(t, rws[..|rws| - 1]), rws[|rws| - 1].0, rws[|rws| - 1].1)
  }

  /** The template of a page after the first: the six replaces, in order. */
  function RewriteAssets(t: string): string {
    Replace(Replace(Replace(Replace(Replace(Replace(t,
      HrefAssets, HrefAssetsDeep), SrcAssets, SrcAssetsDeep), HrefImages, HrefImagesDeep),
      SrcImages, SrcImagesDeep), HrefCss, HrefCssDeep), SrcJs, SrcJsDeep)
  }

  /** The replace chain is the fold of `AssetRewrites`. */
  lemma RewriteAssetsChain(t: string)
    ensures RewriteAssets(t) == RewriteAll(t, AssetRewrites)
  {
    var t1 := Replace(t, HrefAssets, HrefAssetsDeep);
    var t2 := Replace(t1, SrcAssets, SrcAssetsDeep);
    var t3 := Replace(t2, HrefImages, HrefImagesDeep);
    var t4 := Replace(t3, SrcImages, SrcImagesDeep);
    var t5 := Replace(t4, HrefCss, HrefCssDeep);
    assert RewriteAll(t, AssetRewrites[..0]) == t;
    RewriteStep(t, 0);
    assert RewriteAll(t, AssetRewrites[..1]) == t1;
    RewriteStep(t, 1);
    assert RewriteAll(t, AssetRewrites[..2]) == t2;
    RewriteStep(t, 2);
    assert RewriteAll(t, AssetRewrites[..3]) == t3;
    RewriteStep(t, 3);
    assert RewriteAll(t, AssetRewrites[..4]) == t4;
    RewriteStep(t, 4);
    assert RewriteAll(t, AssetRewrites[..5]) == t5;
    RewriteStep(t, 5);
    assert AssetRewrites[..6] == AssetRewrites;
  }

  /**
   * When each pattern is separated from its own replacement and from every
   * later one, no pattern is left once the chain has run: each replace
   * removes its pattern and cannot bring back an earlier one.
   */
  lemma {:induction false} RewriteAllClears(t: string, rws: seq<(string, string)>)
    requires forall i | 0 <= i < |rws| :: rws[i].0 != []
    requires forall i, k | 0 <= i <= k < |rws| :: Separated(rws[i].0, rws[k].1)
    ensures forall i | 0 <= i < |rws| :: !Contains(RewriteAll(t, rws), rws[i].0)
  {
    if rws != [] {
      var init, last := rws[..|rws| - 1], rws[|rws| - 1];
      RewriteAllClears(t, init);
      var before := RewriteAll(t, init);
      ReplaceRemoves(before, last.0, last.1);
      forall i | 0 <= i < |init| ensures !Contains(RewriteAll(t, rws), rws[i].0) {
        assert init[i] == rws[i];
        ReplaceKeepsOut(before, last.0, last.1, rws[i].0);
      }
    }
  }

  /** Running the chain one pair further applies that pair's replace to the result so far. */
  lemma RewriteStep(t: string, k: nat)
    requires k < |AssetRewrites|
    ensures RewriteAll(t, AssetRewrites[..k + 1]) ==
            Replace(RewriteAll(t, AssetRewrites[..k]), AssetRewrites[k].0, AssetRewrites[k].1)
  {
    assert AssetRewrites[..k + 1][..k] == AssetRewrites[..k];
  }

  /** After the rewrite, none of the six old path prefixes is left in the template. */
  lemma RewriteAssetsClears(t: string)
    ensures forall i | 0 <= i < |AssetRewrites| :: !Contains(RewriteAssets(t), AssetRewrites[i].0)
  {
    forall i, k | 0 <= i <= k < |AssetRewrites| ensures Separated(AssetRewrites[i].0, AssetRewrites[k].1) {
      PairSeparated(i, k);
    }
    RewriteAllClears(t, AssetRewrites);
    RewriteAssetsChain(t);
  }

  lemma PairSeparated(i: nat, k: nat)
    requires i <= k < |AssetRewrites|
    ensures Separated(AssetRewrites[i].0, AssetRewrites[k].1)
  {
    if i == 0 && k == 0 {
      Forward00();
      Backward00();
    } else if i == 0 && k == 1 {
      Forward01();
      Backward01();
    } else if i == 1 && k == 1 {
      Forward11();
      Backward11();
    } else if i == 0 && k == 2 {
      Forward02();
      Backward02();
    } else if i == 1 && k == 2 {
      Forward12();
      Backward12();
    } else if i == 2 && k == 2 {
      Forward22();
      Backward22();
    } else if i == 0 && k == 3 {
      Forward03();
      Backward03();
    } else if i == 1 && k == 3 {
      Forward13();
      Backward13();
    } else if i == 2 && k == 3 {
      Forward23();
      Backward23();
    } else if i == 3 && k == 3 {
      Forward33();
      Backward33();
    } else if i == 0 && k == 4 {
      Forward04();
      Backward04();
    } else if i == 1 && k == 4 {
      Forward14();
      Backward14();
    } else if i == 2 && k == 4 {
      Forward24();
      Backward24();
    } else if i == 3 && k == 4 {
      Forward34();
      Backward34();
    } else if i == 4 && k == 4 {
      Forward44();
      Backward44();
    } else if i == 0 && k == 5 {
      Forward05();
      Backward05();
    } else if i == 1 && k == 5 {
      Forward15();
      Backward15();
    } else if i == 2 && k == 5 {
      Forward25();
      Backward25();
    } else if i == 3 && k == 5 {
      Forward35();
      Backward35();
    } else if i == 4 && k == 5 {
      Forward45();
      Backward45();
    } else if i == 5 && k == 5 {
      Forward55();
      Backward55();
    }
  }
}
