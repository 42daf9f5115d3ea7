/**
 * The specification of `QTH.__getInfo` (hamqthlib.py): flatten the first
 * element with a given tag into a dictionary from descendant element names
 * to their text.
 */
module HamQthInfo {
  import opened Wrappers
  import opened XmlDom

  /** Some child of `kids` is a text node. */
  predicate HasText(kids: seq<Node>)
  {
    exists j :: 0 <= j < |kids| && kids[j].Text?
  }

  /** The data of the last text node among `kids`. */
  function LastText(kids: seq<Node>): string
    requires HasText(kids)
    decreases |kids|
  {
    var last := kids[|kids| - 1];
    if last.Text? then last.data
    else
      assert HasText(kids[..|kids| - 1]) by {
        var j :| 0 <= j < |kids| && kids[j].Text?;
        assert kids[..|kids| - 1][j] == kids[j];
      }
      LastText(kids[..|kids| - 1])
  }

  /**
   * The inner loop over one element's children: every text child stores
   * its data under `key`, so the last one wins.
   */
  function PutTexts(ans: map<string, string>, key: string, kids: seq<Node>): map<string, string>
    decreases |kids|
  {
    if kids == [] then ans
    else
      var before := PutTexts(ans, key, kids[..|kids| - 1]);
      var last := kids[|kids| - 1];
      if last.Text? then before[key := last.data] else before
  }

  /** Both loops: the children of every element of `elems`, in order. */
  function Collect(elems: seq<Node>): map<string, string>
    decreases |elems|
  {
    if elems == [] then map[]
    else
      var s := elems[|elems| - 1];
      PutTexts(Collect(elems[..|elems| - 1]), NodeName(s), ChildNodes(s))
  }

  /** `__getInfo(rt, tagName)`: None when no element has the tag, else the flattened first one. */
  function Info(rt: Node, tagName: string): Option<map<string, string>>
  {
    var found := ElementsByTagName(rt, tagName);
    if |found| < 1 then None
    else Some(Collect(ElementsByTagName(found[0], "*")))
  }

  /** One element's children change at most the entry for `key`, to the last text. */
  lemma {:induction false} PutTextsIsLastText(ans: map<string, string>, key: string, kids: seq<Node>)
    ensures PutTexts(ans, key, kids) == if HasText(kids) then ans[key := LastText(kids)] else ans
    decreases |kids|
  {
    if kids != [] {
      var init := kids[..|kids| - 1];
      PutTextsIsLastText(ans, key, init);
      if !kids[|kids| - 1].Text? {
        if HasText(kids) {
          var j :| 0 <= j < |kids| && kids[j].Text?;
          assert init[j] == kids[j];
        }
        if HasText(init) {
          var j :| 0 <= j < |init| && init[j].Text?;
          assert kids[j] == init[j];
        }
      } else {
        assert HasText(kids) by { assert kids[|kids| - 1].Text?; }
      }
    }
  }

  /** The element `elems[i]` stores an entry under `key`. */
  predicate Contributes(elems: seq<Node>, i: int, key: string)
  {
    0 <= i < |elems| && NodeName(elems[i]) == key && HasText(ChildNodes(elems[i]))
  }

  /** `elems[i]` is the last element that stores an entry under `key`. */
  predicate LastContributor(elems: seq<Node>, i: int, key: string)
  {
    Contributes(elems, i, key) && forall i' :: i < i' < |elems| ==> !Contributes(elems, i', key)
  }

  /**
   * The flattened dictionary has an entry for `key` exactly when some
   * element named `key` has a text child.
   */
  lemma {:induction false} CollectKeys(elems: seq<Node>, key: string)
    ensures key in Collect(elems) <==> exists i :: Contributes(elems, i, key)
    decreases |elems|
  {
    if elems != [] {
      var n := |elems| - 1;
      var init := elems[..n];
      var s := elems[n];
      CollectKeys(init, key);
      PutTextsIsLastText(Collect(init), NodeName(s), ChildNodes(s));
      var here := NodeName(s) == key && HasText(ChildNodes(s));
      assert key in Collect(elems) <==> key in Collect(init) || here;
      if key in Collect(elems) {
        if here {
          assert Contributes(elems, n, key);
        } else {
          var i :| Contributes(init, i, key);
          assert elems[i] == init[i];
          assert Contributes(elems, i, key);
        }
      } else {
        forall i | 0 <= i < |elems| ensures !Contributes(elems, i, key) {
          if i < n {
            assert elems[i] == init[i];
            assert !Contributes(init, i, key);
          }
        }
      }
    }
  }

  /**
   * The entry for `key` holds the last text of the last element named
   * `key`: later elements overwrite earlier ones.
   */
  lemma {:induction false} CollectValue(elems: seq<Node>, i: int, key: string)
    requires LastContributor(elems, i, key)
    ensures key in Collect(elems) && Collect(elems)[key] == LastText(ChildNodes(elems[i]))
    decreases |elems|
  {
    var n := |elems| - 1;
    var init := elems[..n];
    var s := elems[n];
    PutTextsIsLastText(Collect(init), NodeName(s), ChildNodes(s));
    if i < n {
      assert !Contributes(elems, n, key);
      assert init[i] == elems[i];
      forall i' | i < i' < |init| ensures !Contributes(init, i', key) {
        assert !Contributes(elems, i', key);
        assert elems[i'] == init[i'];
      }
      CollectValue(init, i, key);
    }
  }

  /**
   * `__getInfo` returns None exactly when no element below the root has
   * the tag; otherwise its entries are those of the descendants of the
   * first such element, each holding the last text written under its name.
   */
  lemma InfoCharacterised(rt: Node, tagName: string, key: string)
    requires tagName != "*"
    ensures Info(rt, tagName).None? <==> !HasDescendant(ChildNodes(rt), tagName)
    ensures Info(rt, tagName).Some? ==>
      var elems := ElementsByTagName(ElementsByTagName(rt, tagName)[0], "*");
      && (key in Info(rt, tagName).value <==> exists i :: Contributes(elems, i, key))
      && (forall i :: LastContributor(elems, i, key) ==>
            key in Info(rt, tagName).value && Info(rt, tagName).value[key] == LastText(ChildNodes(elems[i])))
  {
    ElementsInEmpty(ChildNodes(rt), tagName);
    var found := ElementsByTagName(rt, tagName);
    if |found| > 0 {
      var elems := ElementsByTagName(found[0], "*");
      CollectKeys(elems, key);
      forall i | LastContributor(elems, i, key)
        ensures key in Collect(elems) && Collect(elems)[key] == LastText(ChildNodes(elems[i]))
      {
        CollectValue(elems, i, key);
      }
    }
  }
}
