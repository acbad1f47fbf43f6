/**
 * The pairs of the asset rewrite checked for overlap: each old path prefix
 * against its own new prefix and every later one. The strings are spelled
 * out so that the facts stay apart from the rest of the rewrite.
 *
 * Each lemma walks `NoAlignmentFrom` down from the end of the longer
 * string, one offset per assertion: the predicate is recursive in the
 * offset, and the verifier unfolds it over concrete strings only a few
 * levels on its own. A lemma over a symbolic pair would have to reason
 * about every character of every path at an unknown offset, which the
 * solver does not finish; one offset at a time, each step is a handful of
 * character comparisons.
 *
 * Pairs whose strings have the same lengths (`Forward01` and `Forward11`,
 * `Forward02`, `Forward12` and `Forward22`, and so on) take the same steps
 * and differ only in the strings they compare. They are separate lemmas on
 * purpose: each states a fact about its own pair of prefixes, and
 * `AssetRewrite.PairSeparated` calls the one for the pair it is given.
 */
module PathSeparation {
  import opened Text

  /** Old prefix 0 placed at any position of new prefix 0 disagrees with it. */
  lemma Forward00()
    ensures NoAlignmentFrom("href=\"assets/", "href=\"../../assets/", 0)
  {
    assert NoAlignmentFrom("href=\"assets/", "href=\"../../assets/", 18);
    assert NoAlignmentFrom("href=\"assets/", "href=\"../../assets/", 17);
    assert NoAlignmentFrom("href=\"assets/", "href=\"../../assets/", 16);
    assert NoAlignmentFrom("href=\"assets/", "href=\"../../assets/", 15);
    assert NoAlignmentFrom("href=\"assets/", "href=\"../../assets/", 14);
    assert NoAlignmentFrom("href=\"assets/", "href=\"../../assets/", 13);
    assert NoAlignmentFrom("href=\"assets/", "href=\"../../assets/", 12);
    assert NoAlignmentFrom("href=\"assets/", "href=\"../../assets/", 11);
    assert NoAlignmentFrom("href=\"assets/", "href=\"../../assets/", 10);
    assert NoAlignmentFrom("href=\"assets/", "href=\"../../assets/", 9);
    assert NoAlignmentFrom("href=\"assets/", "href=\"../../assets/", 8);
    assert NoAlignmentFrom("href=\"assets/", "href=\"../../assets/", 7);
    assert NoAlignmentFrom("href=\"assets/", "href=\"../../assets/", 6);
    assert NoAlignmentFrom("href=\"assets/", "href=\"../../assets/", 5);
    assert NoAlignmentFrom("href=\"assets/", "href=\"../../assets/", 4);
    assert NoAlignmentFrom("href=\"assets/", "href=\"../../assets/", 3);
    assert NoAlignmentFrom("href=\"assets/", "href=\"../../assets/", 2);
    assert NoAlignmentFrom("href=\"assets/", "href=\"../../assets/", 1);
  }

  /** New prefix 0 placed inside old prefix 0 disagrees with it. */
  lemma Backward00()
    ensures NoAlignmentFrom("href=\"../../assets/", "href=\"assets/", 1)
  {
    assert NoAlignmentFrom("href=\"../../assets/", "href=\"assets/", 12);
    assert NoAlignmentFrom("href=\"../../assets/", "href=\"assets/", 11);
    assert NoAlignmentFrom("href=\"../../assets/", "href=\"assets/", 10);
    assert NoAlignmentFrom("href=\"../../assets/", "href=\"assets/", 9);
    assert NoAlignmentFrom("href=\"../../assets/", "href=\"assets/", 8);
    assert NoAlignmentFrom("href=\"../../assets/", "href=\"assets/", 7);
    assert NoAlignmentFrom("href=\"../../assets/", "href=\"assets/", 6);
    assert NoAlignmentFrom("href=\"../../assets/", "href=\"assets/", 5);
    assert NoAlignmentFrom("href=\"../../assets/", "href=\"assets/", 4);
    assert NoAlignmentFrom("href=\"../../assets/", "href=\"assets/", 3);
    assert NoAlignmentFrom("href=\"../../assets/", "href=\"assets/", 2);
  }

  /** Old prefix 0 placed at any position of new prefix 1 disagrees with it. */
  lemma Forward01()
    ensures NoAlignmentFrom("href=\"assets/", "src=\"../../assets/", 0)
  {
    assert NoAlignmentFrom("href=\"assets/", "src=\"../../assets/", 17);
    assert NoAlignmentFrom("href=\"assets/", "src=\"../../assets/", 16);
    assert NoAlignmentFrom("href=\"assets/", "src=\"../../assets/", 15);
    assert NoAlignmentFrom("href=\"assets/", "src=\"../../assets/", 14);
    assert NoAlignmentFrom("href=\"assets/", "src=\"../../assets/", 13);
    assert NoAlignmentFrom("href=\"assets/", "src=\"../../assets/", 12);
    assert NoAlignmentFrom("href=\"assets/", "src=\"../../assets/", 11);
    assert NoAlignmentFrom("href=\"assets/", "src=\"../../assets/", 10);
    assert NoAlignmentFrom("href=\"assets/", "src=\"../../assets/", 9);
    assert NoAlignmentFrom("href=\"assets/", "src=\"../../assets/", 8);
    assert NoAlignmentFrom("href=\"assets/", "src=\"../../assets/", 7);
    assert NoAlignmentFrom("href=\"assets/", "src=\"../../assets/", 6);
    assert NoAlignmentFrom("href=\"assets/", "src=\"../../assets/", 5);
    assert NoAlignmentFrom("href=\"assets/", "src=\"../../assets/", 4);
    assert NoAlignmentFrom("href=\"assets/", "src=\"../../assets/", 3);
    assert NoAlignmentFrom("href=\"assets/", "src=\"../../assets/", 2);
    assert NoAlignmentFrom("href=\"assets/", "src=\"../../assets/", 1);
  }

  /** New prefix 1 placed inside old prefix 0 disagrees with it. */
  lemma Backward01()
    ensures NoAlignmentFrom("src=\"../../assets/", "href=\"assets/", 1)
  {
    assert NoAlignmentFrom("src=\"../../assets/", "href=\"assets/", 12);
    assert NoAlignmentFrom("src=\"../../assets/", "href=\"assets/", 11);
    assert NoAlignmentFrom("src=\"../../assets/", "href=\"assets/", 10);
    assert NoAlignmentFrom("src=\"../../assets/", "href=\"assets/", 9);
    assert NoAlignmentFrom("src=\"../../assets/", "href=\"assets/", 8);
    assert NoAlignmentFrom("src=\"../../assets/", "href=\"assets/", 7);
    assert NoAlignmentFrom("src=\"../../assets/", "href=\"assets/", 6);
    assert NoAlignmentFrom("src=\"../../assets/", "href=\"assets/", 5);
    assert NoAlignmentFrom("src=\"../../assets/", "href=\"assets/", 4);
    assert NoAlignmentFrom("src=\"../../assets/", "href=\"assets/", 3);
    assert NoAlignmentFrom("src=\"../../assets/", "href=\"assets/", 2);
  }

  /** Old prefix 1 placed at any position of new prefix 1 disagrees with it. */
  lemma Forward11()
    ensures NoAlignmentFrom("src=\"assets/", "src=\"../../assets/", 0)
  {
    assert NoAlignmentFrom("src=\"assets/", "src=\"../../assets/", 17);
    assert NoAlignmentFrom("src=\"assets/", "src=\"../../assets/", 16);
    assert NoAlignmentFrom("src=\"assets/", "src=\"../../assets/", 15);
    assert NoAlignmentFrom("src=\"assets/", "src=\"../../assets/", 14);
    assert NoAlignmentFrom("src=\"assets/", "src=\"../../assets/", 13);
    assert NoAlignmentFrom("src=\"assets/", "src=\"../../assets/", 12);
    assert NoAlignmentFrom("src=\"assets/", "src=\"../../assets/", 11);
    assert NoAlignmentFrom("src=\"assets/", "src=\"../../assets/", 10);
    assert NoAlignmentFrom("src=\"assets/", "src=\"../../assets/", 9);
    assert NoAlignmentFrom("src=\"assets/", "src=\"../../assets/", 8);
    assert NoAlignmentFrom("src=\"assets/", "src=\"../../assets/", 7);
    assert NoAlignmentFrom("src=\"assets/", "src=\"../../assets/", 6);
    assert NoAlignmentFrom("src=\"assets/", "src=\"../../assets/", 5);
    assert NoAlignmentFrom("src=\"assets/", "src=\"../../assets/", 4);
    assert NoAlignmentFrom("src=\"assets/", "src=\"../../assets/", 3);
    assert NoAlignmentFrom("src=\"assets/", "src=\"../../assets/", 2);
    assert NoAlignmentFrom("src=\"assets/", "src=\"../../assets/", 1);
  }

  /** New prefix 1 placed inside old prefix 1 disagrees with it. */
  lemma Backward11()
    ensures NoAlignmentFrom("src=\"../../assets/", "src=\"assets/", 1)
  {
    assert NoAlignmentFrom("src=\"../../assets/", "src=\"assets/", 11);
    assert NoAlignmentFrom("src=\"../../assets/", "src=\"assets/", 10);
    assert NoAlignmentFrom("src=\"../../assets/", "src=\"assets/", 9);
    assert NoAlignmentFrom("src=\"../../assets/", "src=\"assets/", 8);
    assert NoAlignmentFrom("src=\"../../assets/", "src=\"assets/", 7);
    assert NoAlignmentFrom("src=\"../../assets/", "src=\"assets/", 6);
    assert NoAlignmentFrom("src=\"../../assets/", "src=\"assets/", 5);
    assert NoAlignmentFrom("src=\"../../assets/", "src=\"assets/", 4);
    assert NoAlignmentFrom("src=\"../../assets/", "src=\"assets/", 3);
    assert NoAlignmentFrom("src=\"../../assets/", "src=\"assets/", 2);
  }

  /** Old prefix 0 placed at any position of new prefix 2 disagrees with it. */
  lemma Forward02()
    ensures NoAlignmentFrom("href=\"assets/", "href=\"../../../images/", 0)
  {
    assert NoAlignmentFrom("href=\"assets/", "href=\"../../../images/", 21);
    assert NoAlignmentFrom("href=\"assets/", "href=\"../../../images/", 20);
    assert NoAlignmentFrom("href=\"assets/", "href=\"../../../images/", 19);
    assert NoAlignmentFrom("href=\"assets/", "href=\"../../../images/", 18);
    assert NoAlignmentFrom("href=\"assets/", "href=\"../../../images/", 17);
    assert NoAlignmentFrom("href=\"assets/", "href=\"../../../images/", 16);
    assert NoAlignmentFrom("href=\"assets/", "href=\"../../../images/", 15);
    assert NoAlignmentFrom("href=\"assets/", "href=\"../../../images/", 14);
    assert NoAlignmentFrom("href=\"assets/", "href=\"../../../images/", 13);
    assert NoAlignmentFrom("href=\"assets/", "href=\"../../../images/", 12);
    assert NoAlignmentFrom("href=\"assets/", "href=\"../../../images/", 11);
    assert NoAlignmentFrom("href=\"assets/", "href=\"../../../images/", 10);
    assert NoAlignmentFrom("href=\"assets/", "href=\"../../../images/", 9);
    assert NoAlignmentFrom("href=\"assets/", "href=\"../../../images/", 8);
    assert NoAlignmentFrom("href=\"assets/", "href=\"../../../images/", 7);
    assert NoAlignmentFrom("href=\"assets/", "href=\"../../../images/", 6);
    assert NoAlignmentFrom("href=\"assets/", "href=\"../../../images/", 5);
    assert NoAlignmentFrom("href=\"assets/", "href=\"../../../images/", 4);
    assert NoAlignmentFrom("href=\"assets/", "href=\"../../../images/", 3);
    assert NoAlignmentFrom("href=\"assets/", "href=\"../../../images/", 2);
    assert NoAlignmentFrom("href=\"assets/", "href=\"../../../images/", 1);
  }

  /** New prefix 2 placed inside old prefix 0 disagrees with it. */
  lemma Backward02()
    ensures NoAlignmentFrom("href=\"../../../images/", "href=\"assets/", 1)
  {
    assert NoAlignmentFrom("href=\"../../../images/", "href=\"assets/", 12);
    assert NoAlignmentFrom("href=\"../../../images/", "href=\"assets/", 11);
    assert NoAlignmentFrom("href=\"../../../images/", "href=\"assets/", 10);
    assert NoAlignmentFrom("href=\"../../../images/", "href=\"assets/", 9);
    assert NoAlignmentFrom("href=\"../../../images/", "href=\"assets/", 8);
    assert NoAlignmentFrom("href=\"../../../images/", "href=\"assets/", 7);
    assert NoAlignmentFrom("href=\"../../../images/", "href=\"assets/", 6);
    assert NoAlignmentFrom("href=\"../../../images/", "href=\"assets/", 5);
    assert NoAlignmentFrom("href=\"../../../images/", "href=\"assets/", 4);
    assert NoAlignmentFrom("href=\"../../../images/", "href=\"assets/", 3);
    assert NoAlignmentFrom("href=\"../../../images/", "href=\"assets/", 2);
  }

  /** Old prefix 1 placed at any position of new prefix 2 disagrees with it. */
  lemma Forward12()
    ensures NoAlignmentFrom("src=\"assets/", "href=\"../../../images/", 0)
  {
    assert NoAlignmentFrom("src=\"assets/", "href=\"../../../images/", 21);
    assert NoAlignmentFrom("src=\"assets/", "href=\"../../../images/", 20);
    assert NoAlignmentFrom("src=\"assets/", "href=\"../../../images/", 19);
    assert NoAlignmentFrom("src=\"assets/", "href=\"../../../images/", 18);
    assert NoAlignmentFrom("src=\"assets/", "href=\"../../../images/", 17);
    assert NoAlignmentFrom("src=\"assets/", "href=\"../../../images/", 16);
    assert NoAlignmentFrom("src=\"assets/", "href=\"../../../images/", 15);
    assert NoAlignmentFrom("src=\"assets/", "href=\"../../../images/", 14);
    assert NoAlignmentFrom("src=\"assets/", "href=\"../../../images/", 13);
    assert NoAlignmentFrom("src=\"assets/", "href=\"../../../images/", 12);
    assert NoAlignmentFrom("src=\"assets/", "href=\"../../../images/", 11);
    assert NoAlignmentFrom("src=\"assets/", "href=\"../../../images/", 10);
    assert NoAlignmentFrom("src=\"assets/", "href=\"../../../images/", 9);
    assert NoAlignmentFrom("src=\"assets/", "href=\"../../../images/", 8);
    assert NoAlignmentFrom("src=\"assets/", "href=\"../../../images/", 7);
    assert NoAlignmentFrom("src=\"assets/", "href=\"../../../images/", 6);
    assert NoAlignmentFrom("src=\"assets/", "href=\"../../../images/", 5);
    assert NoAlignmentFrom("src=\"assets/", "href=\"../../../images/", 4);
    assert NoAlignmentFrom("src=\"assets/", "href=\"../../../images/", 3);
    assert NoAlignmentFrom("src=\"assets/", "href=\"../../../images/", 2);
    assert NoAlignmentFrom("src=\"assets/", "href=\"../../../images/", 1);
  }

  /** New prefix 2 placed inside old prefix 1 disagrees with it. */
  lemma Backward12()
    ensures NoAlignmentFrom("href=\"../../../images/", "src=\"assets/", 1)
  {
    assert NoAlignmentFrom("href=\"../../../images/", "src=\"assets/", 11);
    assert NoAlignmentFrom("href=\"../../../images/", "src=\"assets/", 10);
    assert NoAlignmentFrom("href=\"../../../images/", "src=\"assets/", 9);
    assert NoAlignmentFrom("href=\"../../../images/", "src=\"assets/", 8);
    assert NoAlignmentFrom("href=\"../../../images/", "src=\"assets/", 7);
    assert NoAlignmentFrom("href=\"../../../images/", "src=\"assets/", 6);
    assert NoAlignmentFrom("href=\"../../../images/", "src=\"assets/", 5);
    assert NoAlignmentFrom("href=\"../../../images/", "src=\"assets/", 4);
    assert NoAlignmentFrom("href=\"../../../images/", "src=\"assets/", 3);
    assert NoAlignmentFrom("href=\"../../../images/", "src=\"assets/", 2);
  }

  /** Old prefix 2 placed at any position of new prefix 2 disagrees with it. */
  lemma Forward22()
    ensures NoAlignmentFrom("href=\"../images/", "href=\"../../../images/", 0)
  {
    assert NoAlignmentFrom("href=\"../images/", "href=\"../../../images/", 21);
    assert NoAlignmentFrom("href=\"../images/", "href=\"../../../images/", 20);
    assert NoAlignmentFrom("href=\"../images/", "href=\"../../../images/", 19);
    assert NoAlignmentFrom("href=\"../images/", "href=\"../../../images/", 18);
    assert NoAlignmentFrom("href=\"../images/", "href=\"../../../images/", 17);
    assert NoAlignmentFrom("href=\"../images/", "href=\"../../../images/", 16);
    assert NoAlignmentFrom("href=\"../images/", "href=\"../../../images/", 15);
    assert NoAlignmentFrom("href=\"../images/", "href=\"../../../images/", 14);
    assert NoAlignmentFrom("href=\"../images/", "href=\"../../../images/", 13);
    assert NoAlignmentFrom("href=\"../images/", "href=\"../../../images/", 12);
    assert NoAlignmentFrom("href=\"../images/", "href=\"../../../images/", 11);
    assert NoAlignmentFrom("href=\"../images/", "href=\"../../../images/", 10);
    assert NoAlignmentFrom("href=\"../images/", "href=\"../../../images/", 9);
    assert NoAlignmentFrom("href=\"../images/", "href=\"../../../images/", 8);
    assert NoAlignmentFrom("href=\"../images/", "href=\"../../../images/", 7);
    assert NoAlignmentFrom("href=\"../images/", "href=\"../../../images/", 6);
    assert NoAlignmentFrom("href=\"../images/", "href=\"../../../images/", 5);
    assert NoAlignmentFrom("href=\"../images/", "href=\"../../../images/", 4);
    assert NoAlignmentFrom("href=\"../images/", "href=\"../../../images/", 3);
    assert NoAlignmentFrom("href=\"../images/", "href=\"../../../images/", 2);
    assert NoAlignmentFrom("href=\"../images/", "href=\"../../../images/", 1);
  }

  /** New prefix 2 placed inside old prefix 2 disagrees with it. */
  lemma Backward22()
    ensures NoAlignmentFrom("href=\"../../../images/", "href=\"../images/", 1)
  {
    assert NoAlignmentFrom("href=\"../../../images/", "href=\"../images/", 15);
    assert NoAlignmentFrom("href=\"../../../images/", "href=\"../images/", 14);
    assert NoAlignmentFrom("href=\"../../../images/", "href=\"../images/", 13);
    assert NoAlignmentFrom("href=\"../../../images/", "href=\"../images/", 12);
    assert NoAlignmentFrom("href=\"../../../images/", "href=\"../images/", 11);
    assert NoAlignmentFrom("href=\"../../../images/", "href=\"../images/", 10);
    assert NoAlignmentFrom("href=\"../../../images/", "href=\"../images/", 9);
    assert NoAlignmentFrom("href=\"../../../images/", "href=\"../images/", 8);
    assert NoAlignmentFrom("href=\"../../../images/", "href=\"../images/", 7);
    assert NoAlignmentFrom("href=\"../../../images/", "href=\"../images/", 6);
    assert NoAlignmentFrom("href=\"../../../images/", "href=\"../images/", 5);
    assert NoAlignmentFrom("href=\"../../../images/", "href=\"../images/", 4);
    assert NoAlignmentFrom("href=\"../../../images/", "href=\"../images/", 3);
    assert NoAlignmentFrom("href=\"../../../images/", "href=\"../images/", 2);
  }

  /** Old prefix 0 placed at any position of new prefix 3 disagrees with it. */
  lemma Forward03()
    ensures NoAlignmentFrom("href=\"assets/", "src=\"../../../images/", 0)
  {
    assert NoAlignmentFrom("href=\"assets/", "src=\"../../../images/", 20);
    assert NoAlignmentFrom("href=\"assets/", "src=\"../../../images/", 19);
    assert NoAlignmentFrom("href=\"assets/", "src=\"../../../images/", 18);
    assert NoAlignmentFrom("href=\"assets/", "src=\"../../../images/", 17);
    assert NoAlignmentFrom("href=\"assets/", "src=\"../../../images/", 16);
    assert NoAlignmentFrom("href=\"assets/", "src=\"../../../images/", 15);
    assert NoAlignmentFrom("href=\"assets/", "src=\"../../../images/", 14);
    assert NoAlignmentFrom("href=\"assets/", "src=\"../../../images/", 13);
    assert NoAlignmentFrom("href=\"assets/", "src=\"../../../images/", 12);
    assert NoAlignmentFrom("href=\"assets/", "src=\"../../../images/", 11);
    assert NoAlignmentFrom("href=\"assets/", "src=\"../../../images/", 10);
    assert NoAlignmentFrom("href=\"assets/", "src=\"../../../images/", 9);
    assert NoAlignmentFrom("href=\"assets/", "src=\"../../../images/", 8);
    assert NoAlignmentFrom("href=\"assets/", "src=\"../../../images/", 7);
    assert NoAlignmentFrom("href=\"assets/", "src=\"../../../images/", 6);
    assert NoAlignmentFrom("href=\"assets/", "src=\"../../../images/", 5);
    assert NoAlignmentFrom("href=\"assets/", "src=\"../../../images/", 4);
    assert NoAlignmentFrom("href=\"assets/", "src=\"../../../images/", 3);
    assert NoAlignmentFrom("href=\"assets/", "src=\"../../../images/", 2);
    assert NoAlignmentFrom("href=\"assets/", "src=\"../../../images/", 1);
  }

  /** New prefix 3 placed inside old prefix 0 disagrees with it. */
  lemma Backward03()
    ensures NoAlignmentFrom("src=\"../../../images/", "href=\"assets/", 1)
  {
    assert NoAlignmentFrom("src=\"../../../images/", "href=\"assets/", 12);
    assert NoAlignmentFrom("src=\"../../../images/", "href=\"assets/", 11);
    assert NoAlignmentFrom("src=\"../../../images/", "href=\"assets/", 10);
    assert NoAlignmentFrom("src=\"../../../images/", "href=\"assets/", 9);
    assert NoAlignmentFrom("src=\"../../../images/", "href=\"assets/", 8);
    assert NoAlignmentFrom("src=\"../../../images/", "href=\"assets/", 7);
    assert NoAlignmentFrom("src=\"../../../images/", "href=\"assets/", 6);
    assert NoAlignmentFrom("src=\"../../../images/", "href=\"assets/", 5);
    assert NoAlignmentFrom("src=\"../../../images/", "href=\"assets/", 4);
    assert NoAlignmentFrom("src=\"../../../images/", "href=\"assets/", 3);
    assert NoAlignmentFrom("src=\"../../../images/", "href=\"assets/", 2);
  }

  /** Old prefix 1 placed at any position of new prefix 3 disagrees with it. */
  lemma Forward13()
    ensures NoAlignmentFrom("src=\"assets/", "src=\"../../../images/", 0)
  {
    assert NoAlignmentFrom("src=\"assets/", "src=\"../../../images/", 20);
    assert NoAlignmentFrom("src=\"assets/", "src=\"../../../images/", 19);
    assert NoAlignmentFrom("src=\"assets/", "src=\"../../../images/", 18);
    assert NoAlignmentFrom("src=\"assets/", "src=\"../../../images/", 17);
    assert NoAlignmentFrom("src=\"assets/", "src=\"../../../images/", 16);
    assert NoAlignmentFrom("src=\"assets/", "src=\"../../../images/", 15);
    assert NoAlignmentFrom("src=\"assets/", "src=\"../../../images/", 14);
    assert NoAlignmentFrom("src=\"assets/", "src=\"../../../images/", 13);
    assert NoAlignmentFrom("src=\"assets/", "src=\"../../../images/", 12);
    assert NoAlignmentFrom("src=\"assets/", "src=\"../../../images/", 11);
    assert NoAlignmentFrom("src=\"assets/", "src=\"../../../images/", 10);
    assert NoAlignmentFrom("src=\"assets/", "src=\"../../../images/", 9);
    assert NoAlignmentFrom("src=\"assets/", "src=\"../../../images/", 8);
    assert NoAlignmentFrom("src=\"assets/", "src=\"../../../images/", 7);
    assert NoAlignmentFrom("src=\"assets/", "src=\"../../../images/", 6);
    assert NoAlignmentFrom("src=\"assets/", "src=\"../../../images/", 5);
    assert NoAlignmentFrom("src=\"assets/", "src=\"../../../images/", 4);
    assert NoAlignmentFrom("src=\"assets/", "src=\"../../../images/", 3);
    assert NoAlignmentFrom("src=\"assets/", "src=\"../../../images/", 2);
    assert NoAlignmentFrom("src=\"assets/", "src=\"../../../images/", 1);
  }

  /** New prefix 3 placed inside old prefix 1 disagrees with it. */
  lemma Backward13()
    ensures NoAlignmentFrom("src=\"../../../images/", "src=\"assets/", 1)
  {
    assert NoAlignmentFrom("src=\"../../../images/", "src=\"assets/", 11);
    assert NoAlignmentFrom("src=\"../../../images/", "src=\"assets/", 10);
    assert NoAlignmentFrom("src=\"../../../images/", "src=\"assets/", 9);
    assert NoAlignmentFrom("src=\"../../../images/", "src=\"assets/", 8);
    assert NoAlignmentFrom("src=\"../../../images/", "src=\"assets/", 7);
    assert NoAlignmentFrom("src=\"../../../images/", "src=\"assets/", 6);
    assert NoAlignmentFrom("src=\"../../../images/", "src=\"assets/", 5);
    assert NoAlignmentFrom("src=\"../../../images/", "src=\"assets/", 4);
    assert NoAlignmentFrom("src=\"../../../images/", "src=\"assets/", 3);
    assert NoAlignmentFrom("src=\"../../../images/", "src=\"assets/", 2);
  }

  /** Old prefix 2 placed at any position of new prefix 3 disagrees with it. */
  lemma Forward23()
    ensures NoAlignmentFrom("href=\"../images/", "src=\"../../../images/", 0)
  {
    assert NoAlignmentFrom("href=\"../images/", "src=\"../../../images/", 20);
    assert NoAlignmentFrom("href=\"../images/", "src=\"../../../images/", 19);
    assert NoAlignmentFrom("href=\"../images/", "src=\"../../../images/", 18);
    assert NoAlignmentFrom("href=\"../images/", "src=\"../../../images/", 17);
    assert NoAlignmentFrom("href=\"../images/", "src=\"../../../images/", 16);
    assert NoAlignmentFrom("href=\"../images/", "src=\"../../../images/", 15);
    assert NoAlignmentFrom("href=\"../images/", "src=\"../../../images/", 14);
    assert NoAlignmentFrom("href=\"../images/", "src=\"../../../images/", 13);
    assert NoAlignmentFrom("href=\"../images/", "src=\"../../../images/", 12);
    assert NoAlignmentFrom("href=\"../images/", "src=\"../../../images/", 11);
    assert NoAlignmentFrom("href=\"../images/", "src=\"../../../images/", 10);
    assert NoAlignmentFrom("href=\"../images/", "src=\"../../../images/", 9);
    assert NoAlignmentFrom("href=\"../images/", "src=\"../../../images/", 8);
    assert NoAlignmentFrom("href=\"../images/", "src=\"../../../images/", 7);
    assert NoAlignmentFrom("href=\"../images/", "src=\"../../../images/", 6);
    assert NoAlignmentFrom("href=\"../images/", "src=\"../../../images/", 5);
    assert NoAlignmentFrom("href=\"../images/", "src=\"../../../images/", 4);
    assert NoAlignmentFrom("href=\"../images/", "src=\"../../../images/", 3);
    assert NoAlignmentFrom("href=\"../images/", "src=\"../../../images/", 2);
    assert NoAlignmentFrom("href=\"../images/", "src=\"../../../images/", 1);
  }

  /** New prefix 3 placed inside old prefix 2 disagrees with it. */
  lemma Backward23()
    ensures NoAlignmentFrom("src=\"../../../images/", "href=\"../images/", 1)
  {
    assert NoAlignmentFrom("src=\"../../../images/", "href=\"../images/", 15);
    assert NoAlignmentFrom("src=\"../../../images/", "href=\"../images/", 14);
    assert NoAlignmentFrom("src=\"../../../images/", "href=\"../images/", 13);
    assert NoAlignmentFrom("src=\"../../../images/", "href=\"../images/", 12);
    assert NoAlignmentFrom("src=\"../../../images/", "href=\"../images/", 11);
    assert NoAlignmentFrom("src=\"../../../images/", "href=\"../images/", 10);
    assert NoAlignmentFrom("src=\"../../../images/", "href=\"../images/", 9);
    assert NoAlignmentFrom("src=\"../../../images/", "href=\"../images/", 8);
    assert NoAlignmentFrom("src=\"../../../images/", "href=\"../images/", 7);
    assert NoAlignmentFrom("src=\"../../../images/", "href=\"../images/", 6);
    assert NoAlignmentFrom("src=\"../../../images/", "href=\"../images/", 5);
    assert NoAlignmentFrom("src=\"../../../images/", "href=\"../images/", 4);
    assert NoAlignmentFrom("src=\"../../../images/", "href=\"../images/", 3);
    assert NoAlignmentFrom("src=\"../../../images/", "href=\"../images/", 2);
  }

  /** Old prefix 3 placed at any position of new prefix 3 disagrees with it. */
  lemma Forward33()
    ensures NoAlignmentFrom("src=\"../images/", "src=\"../../../images/", 0)
  {
    assert NoAlignmentFrom("src=\"../images/", "src=\"../../../images/", 20);
    assert NoAlignmentFrom("src=\"../images/", "src=\"../../../images/", 19);
    assert NoAlignmentFrom("src=\"../images/", "src=\"../../../images/", 18);
    assert NoAlignmentFrom("src=\"../images/", "src=\"../../../images/", 17);
    assert NoAlignmentFrom("src=\"../images/", "src=\"../../../images/", 16);
    assert NoAlignmentFrom("src=\"../images/", "src=\"../../../images/", 15);
    assert NoAlignmentFrom("src=\"../images/", "src=\"../../../images/", 14);
    assert NoAlignmentFrom("src=\"../images/", "src=\"../../../images/", 13);
    assert NoAlignmentFrom("src=\"../images/", "src=\"../../../images/", 12);
    assert NoAlignmentFrom("src=\"../images/", "src=\"../../../images/", 11);
    assert NoAlignmentFrom("src=\"../images/", "src=\"../../../images/", 10);
    assert NoAlignmentFrom("src=\"../images/", "src=\"../../../images/", 9);
    assert NoAlignmentFrom("src=\"../images/", "src=\"../../../images/", 8);
    assert NoAlignmentFrom("src=\"../images/", "src=\"../../../images/", 7);
    assert NoAlignmentFrom("src=\"../images/", "src=\"../../../images/", 6);
    assert NoAlignmentFrom("src=\"../images/", "src=\"../../../images/", 5);
    assert NoAlignmentFrom("src=\"../images/", "src=\"../../../images/", 4);
    assert NoAlignmentFrom("src=\"../images/", "src=\"../../../images/", 3);
    assert NoAlignmentFrom("src=\"../images/", "src=\"../../../images/", 2);
    assert NoAlignmentFrom("src=\"../images/", "src=\"../../../images/", 1);
  }

  /** New prefix 3 placed inside old prefix 3 disagrees with it. */
  lemma Backward33()
    ensures NoAlignmentFrom("src=\"../../../images/", "src=\"../images/", 1)
  {
    assert NoAlignmentFrom("src=\"../../../images/", "src=\"../images/", 14);
    assert NoAlignmentFrom("src=\"../../../images/", "src=\"../images/", 13);
    assert NoAlignmentFrom("src=\"../../../images/", "src=\"../images/", 12);
    assert NoAlignmentFrom("src=\"../../../images/", "src=\"../images/", 11);
    assert NoAlignmentFrom("src=\"../../../images/", "src=\"../images/", 10);
    assert NoAlignmentFrom("src=\"../../../images/", "src=\"../images/", 9);
    assert NoAlignmentFrom("src=\"../../../images/", "src=\"../images/", 8);
    assert NoAlignmentFrom("src=\"../../../images/", "src=\"../images/", 7);
    assert NoAlignmentFrom("src=\"../../../images/", "src=\"../images/", 6);
    assert NoAlignmentFrom("src=\"../../../images/", "src=\"../images/", 5);
    assert NoAlignmentFrom("src=\"../../../images/", "src=\"../images/", 4);
    assert NoAlignmentFrom("src=\"../../../images/", "src=\"../images/", 3);
    assert NoAlignmentFrom("src=\"../../../images/", "src=\"../images/", 2);
  }

  /** Old prefix 0 placed at any position of new prefix 4 disagrees with it. */
  lemma Forward04()
    ensures NoAlignmentFrom("href=\"assets/", "href=\"../../../css/", 0)
  {
    assert NoAlignmentFrom("href=\"assets/", "href=\"../../../css/", 18);
    assert NoAlignmentFrom("href=\"assets/", "href=\"../../../css/", 17);
    assert NoAlignmentFrom("href=\"assets/", "href=\"../../../css/", 16);
    assert NoAlignmentFrom("href=\"assets/", "href=\"../../../css/", 15);
    assert NoAlignmentFrom("href=\"assets/", "href=\"../../../css/", 14);
    assert NoAlignmentFrom("href=\"assets/", "href=\"../../../css/", 13);
    assert NoAlignmentFrom("href=\"assets/", "href=\"../../../css/", 12);
    assert NoAlignmentFrom("href=\"assets/", "href=\"../../../css/", 11);
    assert NoAlignmentFrom("href=\"assets/", "href=\"../../../css/", 10);
    assert NoAlignmentFrom("href=\"assets/", "href=\"../../../css/", 9);
    assert NoAlignmentFrom("href=\"assets/", "href=\"../../../css/", 8);
    assert NoAlignmentFrom("href=\"assets/", "href=\"../../../css/", 7);
    assert NoAlignmentFrom("href=\"assets/", "href=\"../../../css/", 6);
    assert NoAlignmentFrom("href=\"assets/", "href=\"../../../css/", 5);
    assert NoAlignmentFrom("href=\"assets/", "href=\"../../../css/", 4);
    assert NoAlignmentFrom("href=\"assets/", "href=\"../../../css/", 3);
    assert NoAlignmentFrom("href=\"assets/", "href=\"../../../css/", 2);
    assert NoAlignmentFrom("href=\"assets/", "href=\"../../../css/", 1);
  }

  /** New prefix 4 placed inside old prefix 0 disagrees with it. */
  lemma Backward04()
    ensures NoAlignmentFrom("href=\"../../../css/", "href=\"assets/", 1)
  {
    assert NoAlignmentFrom("href=\"../../../css/", "href=\"assets/", 12);
    assert NoAlignmentFrom("href=\"../../../css/", "href=\"assets/", 11);
    assert NoAlignmentFrom("href=\"../../../css/", "href=\"assets/", 10);
    assert NoAlignmentFrom("href=\"../../../css/", "href=\"assets/", 9);
    assert NoAlignmentFrom("href=\"../../../css/", "href=\"assets/", 8);
    assert NoAlignmentFrom("href=\"../../../css/", "href=\"assets/", 7);
    assert NoAlignmentFrom("href=\"../../../css/", "href=\"assets/", 6);
    assert NoAlignmentFrom("href=\"../../../css/", "href=\"assets/", 5);
    assert NoAlignmentFrom("href=\"../../../css/", "href=\"assets/", 4);
    assert NoAlignmentFrom("href=\"../../../css/", "href=\"assets/", 3);
    assert NoAlignmentFrom("href=\"../../../css/", "href=\"assets/", 2);
  }

  /** Old prefix 1 placed at any position of new prefix 4 disagrees with it. */
  lemma Forward14()
    ensures NoAlignmentFrom("src=\"assets/", "href=\"../../../css/", 0)
  {
    assert NoAlignmentFrom("src=\"assets/", "href=\"../../../css/", 18);
    assert NoAlignmentFrom("src=\"assets/", "href=\"../../../css/", 17);
    assert NoAlignmentFrom("src=\"assets/", "href=\"../../../css/", 16);
    assert NoAlignmentFrom("src=\"assets/", "href=\"../../../css/", 15);
    assert NoAlignmentFrom("src=\"assets/", "href=\"../../../css/", 14);
    assert NoAlignmentFrom("src=\"assets/", "href=\"../../../css/", 13);
    assert NoAlignmentFrom("src=\"assets/", "href=\"../../../css/", 12);
    assert NoAlignmentFrom("src=\"assets/", "href=\"../../../css/", 11);
    assert NoAlignmentFrom("src=\"assets/", "href=\"../../../css/", 10);
    assert NoAlignmentFrom("src=\"assets/", "href=\"../../../css/", 9);
    assert NoAlignmentFrom("src=\"assets/", "href=\"../../../css/", 8);
    assert NoAlignmentFrom("src=\"assets/", "href=\"../../../css/", 7);
    assert NoAlignmentFrom("src=\"assets/", "href=\"../../../css/", 6);
    assert NoAlignmentFrom("src=\"assets/", "href=\"../../../css/", 5);
    assert NoAlignmentFrom("src=\"assets/", "href=\"../../../css/", 4);
    assert NoAlignmentFrom("src=\"assets/", "href=\"../../../css/", 3);
    assert NoAlignmentFrom("src=\"assets/", "href=\"../../../css/", 2);
    assert NoAlignmentFrom("src=\"assets/", "href=\"../../../css/", 1);
  }

  /** New prefix 4 placed inside old prefix 1 disagrees with it. */
  lemma Backward14()
    ensures NoAlignmentFrom("href=\"../../../css/", "src=\"assets/", 1)
  {
    assert NoAlignmentFrom("href=\"../../../css/", "src=\"assets/", 11);
    assert NoAlignmentFrom("href=\"../../../css/", "src=\"assets/", 10);
    assert NoAlignmentFrom("href=\"../../../css/", "src=\"assets/", 9);
    assert NoAlignmentFrom("href=\"../../../css/", "src=\"assets/", 8);
    assert NoAlignmentFrom("href=\"../../../css/", "src=\"assets/", 7);
    assert NoAlignmentFrom("href=\"../../../css/", "src=\"assets/", 6);
    assert NoAlignmentFrom("href=\"../../../css/", "src=\"assets/", 5);
    assert NoAlignmentFrom("href=\"../../../css/", "src=\"assets/", 4);
    assert NoAlignmentFrom("href=\"../../../css/", "src=\"assets/", 3);
    assert NoAlignmentFrom("href=\"../../../css/", "src=\"assets/", 2);
  }

  /** Old prefix 2 placed at any position of new prefix 4 disagrees with it. */
  lemma Forward24()
    ensures NoAlignmentFrom("href=\"../images/", "href=\"../../../css/", 0)
  {
    assert NoAlignmentFrom("href=\"../images/", "href=\"../../../css/", 18);
    assert NoAlignmentFrom("href=\"../images/", "href=\"../../../css/", 17);
    assert NoAlignmentFrom("href=\"../images/", "href=\"../../../css/", 16);
    assert NoAlignmentFrom("href=\"../images/", "href=\"../../../css/", 15);
    assert NoAlignmentFrom("href=\"../images/", "href=\"../../../css/", 14);
    assert NoAlignmentFrom("href=\"../images/", "href=\"../../../css/", 13);
    assert NoAlignmentFrom("href=\"../images/", "href=\"../../../css/", 12);
    assert NoAlignmentFrom("href=\"../images/", "href=\"../../../css/", 11);
    assert NoAlignmentFrom("href=\"../images/", "href=\"../../../css/", 10);
    assert NoAlignmentFrom("href=\"../images/", "href=\"../../../css/", 9);
    assert NoAlignmentFrom("href=\"../images/", "href=\"../../../css/", 8);
    assert NoAlignmentFrom("href=\"../images/", "href=\"../../../css/", 7);
    assert NoAlignmentFrom("href=\"../images/", "href=\"../../../css/", 6);
    assert NoAlignmentFrom("href=\"../images/", "href=\"../../../css/", 5);
    assert NoAlignmentFrom("href=\"../images/", "href=\"../../../css/", 4);
    assert NoAlignmentFrom("href=\"../images/", "href=\"../../../css/", 3);
    assert NoAlignmentFrom("href=\"../images/", "href=\"../../../css/", 2);
    assert NoAlignmentFrom("href=\"../images/", "href=\"../../../css/", 1);
  }

  /** New prefix 4 placed inside old prefix 2 disagrees with it. */
  lemma Backward24()
    ensures NoAlignmentFrom("href=\"../../../css/", "href=\"../images/", 1)
  {
    assert NoAlignmentFrom("href=\"../../../css/", "href=\"../images/", 15);
    assert NoAlignmentFrom("href=\"../../../css/", "href=\"../images/", 14);
    assert NoAlignmentFrom("href=\"../../../css/", "href=\"../images/", 13);
    assert NoAlignmentFrom("href=\"../../../css/", "href=\"../images/", 12);
    assert NoAlignmentFrom("href=\"../../../css/", "href=\"../images/", 11);
    assert NoAlignmentFrom("href=\"../../../css/", "href=\"../images/", 10);
    assert NoAlignmentFrom("href=\"../../../css/", "href=\"../images/", 9);
    assert NoAlignmentFrom("href=\"../../../css/", "href=\"../images/", 8);
    assert NoAlignmentFrom("href=\"../../../css/", "href=\"../images/", 7);
    assert NoAlignmentFrom("href=\"../../../css/", "href=\"../images/", 6);
    assert NoAlignmentFrom("href=\"../../../css/", "href=\"../images/", 5);
    assert NoAlignmentFrom("href=\"../../../css/", "href=\"../images/", 4);
    assert NoAlignmentFrom("href=\"../../../css/", "href=\"../images/", 3);
    assert NoAlignmentFrom("href=\"../../../css/", "href=\"../images/", 2);
  }

  /** Old prefix 3 placed at any position of new prefix 4 disagrees with it. */
  lemma Forward34()
    ensures NoAlignmentFrom("src=\"../images/", "href=\"../../../css/", 0)
  {
    assert NoAlignmentFrom("src=\"../images/", "href=\"../../../css/", 18);
    assert NoAlignmentFrom("src=\"../images/", "href=\"../../../css/", 17);
    assert NoAlignmentFrom("src=\"../images/", "href=\"../../../css/", 16);
    assert NoAlignmentFrom("src=\"../images/", "href=\"../../../css/", 15);
    assert NoAlignmentFrom("src=\"../images/", "href=\"../../../css/", 14);
    assert NoAlignmentFrom("src=\"../images/", "href=\"../../../css/", 13);
    assert NoAlignmentFrom("src=\"../images/", "href=\"../../../css/", 12);
    assert NoAlignmentFrom("src=\"../images/", "href=\"../../../css/", 11);
    assert NoAlignmentFrom("src=\"../images/", "href=\"../../../css/", 10);
    assert NoAlignmentFrom("src=\"../images/", "href=\"../../../css/", 9);
    assert NoAlignmentFrom("src=\"../images/", "href=\"../../../css/", 8);
    assert NoAlignmentFrom("src=\"../images/", "href=\"../../../css/", 7);
    assert NoAlignmentFrom("src=\"../images/", "href=\"../../../css/", 6);
    assert NoAlignmentFrom("src=\"../images/", "href=\"../../../css/", 5);
    assert NoAlignmentFrom("src=\"../images/", "href=\"../../../css/", 4);
    assert NoAlignmentFrom("src=\"../images/", "href=\"../../../css/", 3);
    assert NoAlignmentFrom("src=\"../images/", "href=\"../../../css/", 2);
    assert NoAlignmentFrom("src=\"../images/", "href=\"../../../css/", 1);
  }

  /** New prefix 4 placed inside old prefix 3 disagrees with it. */
  lemma Backward34()
    ensures NoAlignmentFrom("href=\"../../../css/", "src=\"../images/", 1)
  {
    assert NoAlignmentFrom("href=\"../../../css/", "src=\"../images/", 14);
    assert NoAlignmentFrom("href=\"../../../css/", "src=\"../images/", 13);
    assert NoAlignmentFrom("href=\"../../../css/", "src=\"../images/", 12);
    assert NoAlignmentFrom("href=\"../../../css/", "src=\"../images/", 11);
    assert NoAlignmentFrom("href=\"../../../css/", "src=\"../images/", 10);
    assert NoAlignmentFrom("href=\"../../../css/", "src=\"../images/", 9);
    assert NoAlignmentFrom("href=\"../../../css/", "src=\"../images/", 8);
    assert NoAlignmentFrom("href=\"../../../css/", "src=\"../images/", 7);
    assert NoAlignmentFrom("href=\"../../../css/", "src=\"../images/", 6);
    assert NoAlignmentFrom("href=\"../../../css/", "src=\"../images/", 5);
    assert NoAlignmentFrom("href=\"../../../css/", "src=\"../images/", 4);
    assert NoAlignmentFrom("href=\"../../../css/", "src=\"../images/", 3);
    assert NoAlignmentFrom("href=\"../../../css/", "src=\"../images/", 2);
  }

  /** Old prefix 4 placed at any position of new prefix 4 disagrees with it. */
  lemma Forward44()
    ensures NoAlignmentFrom("href=\"../css/", "href=\"../../../css/", 0)
  {
    assert NoAlignmentFrom("href=\"../css/", "href=\"../../../css/", 18);
    assert NoAlignmentFrom("href=\"../css/", "href=\"../../../css/", 17);
    assert NoAlignmentFrom("href=\"../css/", "href=\"../../../css/", 16);
    assert NoAlignmentFrom("href=\"../css/", "href=\"../../../css/", 15);
    assert NoAlignmentFrom("href=\"../css/", "href=\"../../../css/", 14);
    assert NoAlignmentFrom("href=\"../css/", "href=\"../../../css/", 13);
    assert NoAlignmentFrom("href=\"../css/", "href=\"../../../css/", 12);
    assert NoAlignmentFrom("href=\"../css/", "href=\"../../../css/", 11);
    assert NoAlignmentFrom("href=\"../css/", "href=\"../../../css/", 10);
    assert NoAlignmentFrom("href=\"../css/", "href=\"../../../css/", 9);
    assert NoAlignmentFrom("href=\"../css/", "href=\"../../../css/", 8);
    assert NoAlignmentFrom("href=\"../css/", "href=\"../../../css/", 7);
    assert NoAlignmentFrom("href=\"../css/", "href=\"../../../css/", 6);
    assert NoAlignmentFrom("href=\"../css/", "href=\"../../../css/", 5);
    assert NoAlignmentFrom("href=\"../css/", "href=\"../../../css/", 4);
    assert NoAlignmentFrom("href=\"../css/", "href=\"../../../css/", 3);
    assert NoAlignmentFrom("href=\"../css/", "href=\"../../../css/", 2);
    assert NoAlignmentFrom("href=\"../css/", "href=\"../../../css/", 1);
  }

  /** New prefix 4 placed inside old prefix 4 disagrees with it. */
  lemma Backward44()
    ensures NoAlignmentFrom("href=\"../../../css/", "href=\"../css/", 1)
  {
    assert NoAlignmentFrom("href=\"../../../css/", "href=\"../css/", 12);
    assert NoAlignmentFrom("href=\"../../../css/", "href=\"../css/", 11);
    assert NoAlignmentFrom("href=\"../../../css/", "href=\"../css/", 10);
    assert NoAlignmentFrom("href=\"../../../css/", "href=\"../css/", 9);
    assert NoAlignmentFrom("href=\"../../../css/", "href=\"../css/", 8);
    assert NoAlignmentFrom("href=\"../../../css/", "href=\"../css/", 7);
    assert NoAlignmentFrom("href=\"../../../css/", "href=\"../css/", 6);
    assert NoAlignmentFrom("href=\"../../../css/", "href=\"../css/", 5);
    assert NoAlignmentFrom("href=\"../../../css/", "href=\"../css/", 4);
    assert NoAlignmentFrom("href=\"../../../css/", "href=\"../css/", 3);
    assert NoAlignmentFrom("href=\"../../../css/", "href=\"../css/", 2);
  }

  /** Old prefix 0 placed at any position of new prefix 5 disagrees with it. */
  lemma Forward05()
    ensures NoAlignmentFrom("href=\"assets/", "src=\"../../../js/", 0)
  {
    assert NoAlignmentFrom("href=\"assets/", "src=\"../../../js/", 16);
    assert NoAlignmentFrom("href=\"assets/", "src=\"../../../js/", 15);
    assert NoAlignmentFrom("href=\"assets/", "src=\"../../../js/", 14);
    assert NoAlignmentFrom("href=\"assets/", "src=\"../../../js/", 13);
    assert NoAlignmentFrom("href=\"assets/", "src=\"../../../js/", 12);
    assert NoAlignmentFrom("href=\"assets/", "src=\"../../../js/", 11);
    assert NoAlignmentFrom("href=\"assets/", "src=\"../../../js/", 10);
    assert NoAlignmentFrom("href=\"assets/", "src=\"../../../js/", 9);
    assert NoAlignmentFrom("href=\"assets/", "src=\"../../../js/", 8);
    assert NoAlignmentFrom("href=\"assets/", "src=\"../../../js/", 7);
    assert NoAlignmentFrom("href=\"assets/", "src=\"../../../js/", 6);
    assert NoAlignmentFrom("href=\"assets/", "src=\"../../../js/", 5);
    assert NoAlignmentFrom("href=\"assets/", "src=\"../../../js/", 4);
    assert NoAlignmentFrom("href=\"assets/", "src=\"../../../js/", 3);
    assert NoAlignmentFrom("href=\"assets/", "src=\"../../../js/", 2);
    assert NoAlignmentFrom("href=\"assets/", "src=\"../../../js/", 1);
  }

  /** New prefix 5 placed inside old prefix 0 disagrees with it. */
  lemma Backward05()
    ensures NoAlignmentFrom("src=\"../../../js/", "href=\"assets/", 1)
  {
    assert NoAlignmentFrom("src=\"../../../js/", "href=\"assets/", 12);
    assert NoAlignmentFrom("src=\"../../../js/", "href=\"assets/", 11);
    assert NoAlignmentFrom("src=\"../../../js/", "href=\"assets/", 10);
    assert NoAlignmentFrom("src=\"../../../js/", "href=\"assets/", 9);
    assert NoAlignmentFrom("src=\"../../../js/", "href=\"assets/", 8);
    assert NoAlignmentFrom("src=\"../../../js/", "href=\"assets/", 7);
    assert NoAlignmentFrom("src=\"../../../js/", "href=\"assets/", 6);
    assert NoAlignmentFrom("src=\"../../../js/", "href=\"assets/", 5);
    assert NoAlignmentFrom("src=\"../../../js/", "href=\"assets/", 4);
    assert NoAlignmentFrom("src=\"../../../js/", "href=\"assets/", 3);
    assert NoAlignmentFrom("src=\"../../../js/", "href=\"assets/", 2);
  }

  /** Old prefix 1 placed at any position of new prefix 5 disagrees with it. */
  lemma Forward15()
    ensures NoAlignmentFrom("src=\"assets/", "src=\"../../../js/", 0)
  {
    assert NoAlignmentFrom("src=\"assets/", "src=\"../../../js/", 16);
    assert NoAlignmentFrom("src=\"assets/", "src=\"../../../js/", 15);
    assert NoAlignmentFrom("src=\"assets/", "src=\"../../../js/", 14);
    assert NoAlignmentFrom("src=\"assets/", "src=\"../../../js/", 13);
    assert NoAlignmentFrom("src=\"assets/", "src=\"../../../js/", 12);
    assert NoAlignmentFrom("src=\"assets/", "src=\"../../../js/", 11);
    assert NoAlignmentFrom("src=\"assets/", "src=\"../../../js/", 10);
    assert NoAlignmentFrom("src=\"assets/", "src=\"../../../js/", 9);
    assert NoAlignmentFrom("src=\"assets/", "src=\"../../../js/", 8);
    assert NoAlignmentFrom("src=\"assets/", "src=\"../../../js/", 7);
    assert NoAlignmentFrom("src=\"assets/", "src=\"../../../js/", 6);
    assert NoAlignmentFrom("src=\"assets/", "src=\"../../../js/", 5);
    assert NoAlignmentFrom("src=\"assets/", "src=\"../../../js/", 4);
    assert NoAlignmentFrom("src=\"assets/", "src=\"../../../js/", 3);
    assert NoAlignmentFrom("src=\"assets/", "src=\"../../../js/", 2);
    assert NoAlignmentFrom("src=\"assets/", "src=\"../../../js/", 1);
  }

  /** New prefix 5 placed inside old prefix 1 disagrees with it. */
  lemma Backward15()
    ensures NoAlignmentFrom("src=\"../../../js/", "src=\"assets/", 1)
  {
    assert NoAlignmentFrom("src=\"../../../js/", "src=\"assets/", 11);
    assert NoAlignmentFrom("src=\"../../../js/", "src=\"assets/", 10);
    assert NoAlignmentFrom("src=\"../../../js/", "src=\"assets/", 9);
    assert NoAlignmentFrom("src=\"../../../js/", "src=\"assets/", 8);
    assert NoAlignmentFrom("src=\"../../../js/", "src=\"assets/", 7);
    assert NoAlignmentFrom("src=\"../../../js/", "src=\"assets/", 6);
    assert NoAlignmentFrom("src=\"../../../js/", "src=\"assets/", 5);
    assert NoAlignmentFrom("src=\"../../../js/", "src=\"assets/", 4);
    assert NoAlignmentFrom("src=\"../../../js/", "src=\"assets/", 3);
    assert NoAlignmentFrom("src=\"../../../js/", "src=\"assets/", 2);
  }

  /** Old prefix 2 placed at any position of new prefix 5 disagrees with it. */
  lemma Forward25()
    ensures NoAlignmentFrom("href=\"../images/", "src=\"../../../js/", 0)
  {
    assert NoAlignmentFrom("href=\"../images/", "src=\"../../../js/", 16);
    assert NoAlignmentFrom("href=\"../images/", "src=\"../../../js/", 15);
    assert NoAlignmentFrom("href=\"../images/", "src=\"../../../js/", 14);
    assert NoAlignmentFrom("href=\"../images/", "src=\"../../../js/", 13);
    assert NoAlignmentFrom("href=\"../images/", "src=\"../../../js/", 12);
    assert NoAlignmentFrom("href=\"../images/", "src=\"../../../js/", 11);
    assert NoAlignmentFrom("href=\"../images/", "src=\"../../../js/", 10);
    assert NoAlignmentFrom("href=\"../images/", "src=\"../../../js/", 9);
    assert NoAlignmentFrom("href=\"../images/", "src=\"../../../js/", 8);
    assert NoAlignmentFrom("href=\"../images/", "src=\"../../../js/", 7);
    assert NoAlignmentFrom("href=\"../images/", "src=\"../../../js/", 6);
    assert NoAlignmentFrom("href=\"../images/", "src=\"../../../js/", 5);
    assert NoAlignmentFrom("href=\"../images/", "src=\"../../../js/", 4);
    assert NoAlignmentFrom("href=\"../images/", "src=\"../../../js/", 3);
    assert NoAlignmentFrom("href=\"../images/", "src=\"../../../js/", 2);
    assert NoAlignmentFrom("href=\"../images/", "src=\"../../../js/", 1);
  }

  /** New prefix 5 placed inside old prefix 2 disagrees with it. */
  lemma Backward25()
    ensures NoAlignmentFrom("src=\"../../../js/", "href=\"../images/", 1)
  {
    assert NoAlignmentFrom("src=\"../../../js/", "href=\"../images/", 15);
    assert NoAlignmentFrom("src=\"../../../js/", "href=\"../images/", 14);
    assert NoAlignmentFrom("src=\"../../../js/", "href=\"../images/", 13);
    assert NoAlignmentFrom("src=\"../../../js/", "href=\"../images/", 12);
    assert NoAlignmentFrom("src=\"../../../js/", "href=\"../images/", 11);
    assert NoAlignmentFrom("src=\"../../../js/", "href=\"../images/", 10);
    assert NoAlignmentFrom("src=\"../../../js/", "href=\"../images/", 9);
    assert NoAlignmentFrom("src=\"../../../js/", "href=\"../images/", 8);
    assert NoAlignmentFrom("src=\"../../../js/", "href=\"../images/", 7);
    assert NoAlignmentFrom("src=\"../../../js/", "href=\"../images/", 6);
    assert NoAlignmentFrom("src=\"../../../js/", "href=\"../images/", 5);
    assert NoAlignmentFrom("src=\"../../../js/", "href=\"../images/", 4);
    assert NoAlignmentFrom("src=\"../../../js/", "href=\"../images/", 3);
    assert NoAlignmentFrom("src=\"../../../js/", "href=\"../images/", 2);
  }

  /** Old prefix 3 placed at any position of new prefix 5 disagrees with it. */
  lemma Forward35()
    ensures NoAlignmentFrom("src=\"../images/", "src=\"../../../js/", 0)
  {
    assert NoAlignmentFrom("src=\"../images/", "src=\"../../../js/", 16);
    assert NoAlignmentFrom("src=\"../images/", "src=\"../../../js/", 15);
    assert NoAlignmentFrom("src=\"../images/", "src=\"../../../js/", 14);
    assert NoAlignmentFrom("src=\"../images/", "src=\"../../../js/", 13);
    assert NoAlignmentFrom("src=\"../images/", "src=\"../../../js/", 12);
    assert NoAlignmentFrom("src=\"../images/", "src=\"../../../js/", 11);
    assert NoAlignmentFrom("src=\"../images/", "src=\"../../../js/", 10);
    assert NoAlignmentFrom("src=\"../images/", "src=\"../../../js/", 9);
    assert NoAlignmentFrom("src=\"../images/", "src=\"../../../js/", 8);
    assert NoAlignmentFrom("src=\"../images/", "src=\"../../../js/", 7);
    assert NoAlignmentFrom("src=\"../images/", "src=\"../../../js/", 6);
    assert NoAlignmentFrom("src=\"../images/", "src=\"../../../js/", 5);
    assert NoAlignmentFrom("src=\"../images/", "src=\"../../../js/", 4);
    assert NoAlignmentFrom("src=\"../images/", "src=\"../../../js/", 3);
    assert NoAlignmentFrom("src=\"../images/", "src=\"../../../js/", 2);
    assert NoAlignmentFrom("src=\"../images/", "src=\"../../../js/", 1);
  }

  /** New prefix 5 placed inside old prefix 3 disagrees with it. */
  lemma Backward35()
    ensures NoAlignmentFrom("src=\"../../../js/", "src=\"../images/", 1)
  {
    assert NoAlignmentFrom("src=\"../../../js/", "src=\"../images/", 14);
    assert NoAlignmentFrom("src=\"../../../js/", "src=\"../images/", 13);
    assert NoAlignmentFrom("src=\"../../../js/", "src=\"../images/", 12);
    assert NoAlignmentFrom("src=\"../../../js/", "src=\"../images/", 11);
    assert NoAlignmentFrom("src=\"../../../js/", "src=\"../images/", 10);
    assert NoAlignmentFrom("src=\"../../../js/", "src=\"../images/", 9);
    assert NoAlignmentFrom("src=\"../../../js/", "src=\"../images/", 8);
    assert NoAlignmentFrom("src=\"../../../js/", "src=\"../images/", 7);
    assert NoAlignmentFrom("src=\"../../../js/", "src=\"../images/", 6);
    assert NoAlignmentFrom("src=\"../../../js/", "src=\"../images/", 5);
    assert NoAlignmentFrom("src=\"../../../js/", "src=\"../images/", 4);
    assert NoAlignmentFrom("src=\"../../../js/", "src=\"../images/", 3);
    assert NoAlignmentFrom("src=\"../../../js/", "src=\"../images/", 2);
  }

  /** Old prefix 4 placed at any position of new prefix 5 disagrees with it. */
  lemma Forward45()
    ensures NoAlignmentFrom("href=\"../css/", "src=\"../../../js/", 0)
  {
    assert NoAlignmentFrom("href=\"../css/", "src=\"../../../js/", 16);
    assert NoAlignmentFrom("href=\"../css/", "src=\"../../../js/", 15);
    assert NoAlignmentFrom("href=\"../css/", "src=\"../../../js/", 14);
    assert NoAlignmentFrom("href=\"../css/", "src=\"../../../js/", 13);
    assert NoAlignmentFrom("href=\"../css/", "src=\"../../../js/", 12);
    assert NoAlignmentFrom("href=\"../css/", "src=\"../../../js/", 11);
    assert NoAlignmentFrom("href=\"../css/", "src=\"../../../js/", 10);
    assert NoAlignmentFrom("href=\"../css/", "src=\"../../../js/", 9);
    assert NoAlignmentFrom("href=\"../css/", "src=\"../../../js/", 8);
    assert NoAlignmentFrom("href=\"../css/", "src=\"../../../js/", 7);
    assert NoAlignmentFrom("href=\"../css/", "src=\"../../../js/", 6);
    assert NoAlignmentFrom("href=\"../css/", "src=\"../../../js/", 5);
    assert NoAlignmentFrom("href=\"../css/", "src=\"../../../js/", 4);
    assert NoAlignmentFrom("href=\"../css/", "src=\"../../../js/", 3);
    assert NoAlignmentFrom("href=\"../css/", "src=\"../../../js/", 2);
    assert NoAlignmentFrom("href=\"../css/", "src=\"../../../js/", 1);
  }

  /** New prefix 5 placed inside old prefix 4 disagrees with it. */
  lemma Backward45()
    ensures NoAlignmentFrom("src=\"../../../js/", "href=\"../css/", 1)
  {
    assert NoAlignmentFrom("src=\"../../../js/", "href=\"../css/", 12);
    assert NoAlignmentFrom("src=\"../../../js/", "href=\"../css/", 11);
    assert NoAlignmentFrom("src=\"../../../js/", "href=\"../css/", 10);
    assert NoAlignmentFrom("src=\"../../../js/", "href=\"../css/", 9);
    assert NoAlignmentFrom("src=\"../../../js/", "href=\"../css/", 8);
    assert NoAlignmentFrom("src=\"../../../js/", "href=\"../css/", 7);
    assert NoAlignmentFrom("src=\"../../../js/", "href=\"../css/", 6);
    assert NoAlignmentFrom("src=\"../../../js/", "href=\"../css/", 5);
    assert NoAlignmentFrom("src=\"../../../js/", "href=\"../css/", 4);
    assert NoAlignmentFrom("src=\"../../../js/", "href=\"../css/", 3);
    assert NoAlignmentFrom("src=\"../../../js/", "href=\"../css/", 2);
  }

  /** Old prefix 5 placed at any position of new prefix 5 disagrees with it. */
  lemma Forward55()
    ensures NoAlignmentFrom("src=\"../js/", "src=\"../../../js/", 0)
  {
    assert NoAlignmentFrom("src=\"../js/", "src=\"../../../js/", 16);
    assert NoAlignmentFrom("src=\"../js/", "src=\"../../../js/", 15);
    assert NoAlignmentFrom("src=\"../js/", "src=\"../../../js/", 14);
    assert NoAlignmentFrom("src=\"../js/", "src=\"../../../js/", 13);
    assert NoAlignmentFrom("src=\"../js/", "src=\"../../../js/", 12);
    assert NoAlignmentFrom("src=\"../js/", "src=\"../../../js/", 11);
    assert NoAlignmentFrom("src=\"../js/", "src=\"../../../js/", 10);
    assert NoAlignmentFrom("src=\"../js/", "src=\"../../../js/", 9);
    assert NoAlignmentFrom("src=\"../js/", "src=\"../../../js/", 8);
    assert NoAlignmentFrom("src=\"../js/", "src=\"../../../js/", 7);
    assert NoAlignmentFrom("src=\"../js/", "src=\"../../../js/", 6);
    assert NoAlignmentFrom("src=\"../js/", "src=\"../../../js/", 5);
    assert NoAlignmentFrom("src=\"../js/", "src=\"../../../js/", 4);
    assert NoAlignmentFrom("src=\"../js/", "src=\"../../../js/", 3);
    assert NoAlignmentFrom("src=\"../js/", "src=\"../../../js/", 2);
    assert NoAlignmentFrom("src=\"../js/", "src=\"../../../js/", 1);
  }

  /** New prefix 5 placed inside old prefix 5 disagrees with it. */
  lemma Backward55()
    ensures NoAlignmentFrom("src=\"../../../js/", "src=\"../js/", 1)
  {
    assert NoAlignmentFrom("src=\"../../../js/", "src=\"../js/", 10);
    assert NoAlignmentFrom("src=\"../../../js/", "src=\"../js/", 9);
    assert NoAlignmentFrom("src=\"../../../js/", "src=\"../js/", 8);
    assert NoAlignmentFrom("src=\"../../../js/", "src=\"../js/", 7);
    assert NoAlignmentFrom("src=\"../../../js/", "src=\"../js/", 6);
    assert NoAlignmentFrom("src=\"../../../js/", "src=\"../js/", 5);
    assert NoAlignmentFrom("src=\"../../../js/", "src=\"../js/", 4);
    assert NoAlignmentFrom("src=\"../../../js/", "src=\"../js/", 3);
    assert NoAlignmentFrom("src=\"../../../js/", "src=\"../js/", 2);
  }
}
