/** Deep merge of configuration layers (litehive/config/loading.py). */
module ConfigLayers {
  import opened Common

  /** A configuration value: a scalar or list replaced wholesale, or a nested mapping. */
  datatype Node = Leaf(value: string) | Tree(children: map<string, Node>)

  type Path = seq<string>

  /** The overlay wins, except that two mappings combine key by key. */
  function Over(base: Node, overlay: Node): Node
    decreases overlay
  {
    if base.Leaf? || overlay.Leaf? then overlay
    else
      Tree(map k | k in base.children.Keys + overlay.children.Keys ::
        if k !in overlay.children then base.children[k]
        else if k in base.children then Over(base.children[k], overlay.children[k])
        else overlay.children[k])
  }

  function Winner(base: map<string, Node>, overlay: map<string, Node>, k: string): Node
    requires k in overlay
  {
    if k in base then Over(base[k], overlay[k]) else overlay[k]
  }

  lemma ScalarsAreReplaced(base: Node, overlay: Node)
    requires base.Leaf? || overlay.Leaf?
    ensures Over(base, overlay) == overlay
  {}

  lemma MergingEnds(base: map<string, Node>, overlay: map<string, Node>, merged: map<string, Node>)
    requires Merging(base, overlay, {}, merged)
    ensures Tree(merged) == Over(Tree(base), Tree(overlay))
  {
    assert merged == Over(Tree(base), Tree(overlay)).children;
  }

  /** The base with every overlay key outside `rest` already decided. */
  ghost predicate Merging(
      base: map<string, Node>, overlay: map<string, Node>, rest: set<string>, merged: map<string, Node>) {
    && rest <= overlay.Keys
    && merged.Keys == base.Keys + (overlay.Keys - rest)
    && forall k :: k in merged ==> merged[k] == if k in rest || k !in overlay then base[k] else Winner(base, overlay, k)
  }

  lemma MergingStep(
      base: map<string, Node>, overlay: map<string, Node>, rest: set<string>, merged: map<string, Node>, key: string)
    requires Merging(base, overlay, rest, merged) && key in rest
    ensures key in merged <==> key in base
    ensures key in base ==> merged[key] == base[key]
    ensures Merging(base, overlay, rest - {key}, merged[key := Winner(base, overlay, key)])
  {
    hide Winner;
  }

  /** Starts from a copy of the base and overwrites it key by key. */
  method MergeConfigLayers(base: map<string, Node>, overlay: map<string, Node>) returns (merged: map<string, Node>)
    ensures Tree(merged) == Over(Tree(base), Tree(overlay))
    decreases Tree(overlay)
  {
    hide Over, Merging;
    merged := base;
    var rest := overlay.Keys;
    MergingStarts(base, overlay);
    while rest != {}
      invariant rest <= overlay.Keys
      invariant Merging(base, overlay, rest, merged)
      decreases |rest|
    {
      var key :| key in rest;
      MergingStep(base, overlay, rest, merged, key);
      rest := rest - {key};
      var value := overlay[key];
      if key in merged && merged[key].Tree? && value.Tree? {
        var inner := MergeConfigLayers(merged[key].children, value.children);
        merged := merged[key := Tree(inner)];
      } else {
        if key in merged { ScalarsAreReplaced(base[key], value); }
        merged := merged[key := value];
      }
    }
    MergingEnds(base, overlay, merged);
  }

  lemma MergingStarts(base: map<string, Node>, overlay: map<string, Node>)
    ensures Merging(base, overlay, overlay.Keys, base)
  {}

  // ----- what is at a path --------------------------------------------------------------

  datatype Shape = Scalar(value: string) | Mapping

  function At(n: Node, p: Path): Option<Shape> {
    if p == [] then Some(if n.Leaf? then Scalar(n.value) else Mapping)
    else if n.Tree? && p[0] in n.children then At(n.children[p[0]], p[1..])
    else None
  }

  /** A scalar sits at a proper prefix of the path. */
  predicate Cut(n: Node, p: Path) {
    p != [] && (n.Leaf? || (p[0] in n.children && Cut(n.children[p[0]], p[1..])))
  }

  /** A configuration is determined by what is at every path. */
  lemma {:induction false} SamePathsSameNode(m: Node, n: Node)
    requires forall p :: At(m, p) == At(n, p)
    ensures m == n
  {
    assert At(m, []) == At(n, []);
    if m.Tree? {
      forall k ensures k in m.children <==> k in n.children {
        assert At(m, [k]) == At(n, [k]);
        if k in m.children { assert At(m.children[k], [k][1..]).Some?; }
        if k in n.children { assert At(n.children[k], [k][1..]).Some?; }
      }
      forall k | k in m.children ensures m.children[k] == n.children[k] {
        forall p ensures At(m.children[k], p) == At(n.children[k], p) {
          assert At(m, [k] + p) == At(n, [k] + p);
          assert ([k] + p)[1..] == p;
        }
        SamePathsSameNode(m.children[k], n.children[k]);
      }
    }
  }

  /**
   * Path by path: the overlay's value where it has one; nothing below an overlay scalar; otherwise the base's.
   */
  lemma {:induction false} MergeByPath(base: Node, overlay: Node, p: Path)
    ensures At(Over(base, overlay), p) ==
      if At(overlay, p).Some? then At(overlay, p) else if Cut(overlay, p) then None else At(base, p)
    decreases p
  {
    if p != [] && base.Tree? && overlay.Tree? && p[0] in base.children && p[0] in overlay.children {
      MergeByPath(base.children[p[0]], overlay.children[p[0]], p[1..]);
    }
  }

  lemma {:induction false} CutByPath(base: Node, overlay: Node, p: Path)
    ensures Cut(Over(base, overlay), p) <==> Cut(overlay, p) || (Cut(base, p) && !OverridesCut(base, overlay, p))
  {
    if p != [] && base.Tree? && overlay.Tree? && p[0] in base.children && p[0] in overlay.children {
      CutByPath(base.children[p[0]], overlay.children[p[0]], p[1..]);
    }
  }

  /** The overlay has a mapping where the base has the scalar that cuts the path. */
  predicate OverridesCut(base: Node, overlay: Node, p: Path) {
    if p == [] || overlay.Leaf? then false
    else if base.Leaf? then true
    else
      && p[0] in base.children && p[0] in overlay.children
      && OverridesCut(base.children[p[0]], overlay.children[p[0]], p[1..])
  }

  // ----- laws ---------------------------------------------------------------------------

  lemma EmptyIsIdentity(layer: map<string, Node>)
    ensures Over(Tree(map[]), Tree(layer)) == Tree(layer)
    ensures Over(Tree(layer), Tree(map[])) == Tree(layer)
  {
    var l := Tree(layer);
    forall p ensures At(Over(Tree(map[]), l), p) == At(l, p) && At(Over(l, Tree(map[])), p) == At(l, p) {
      MergeByPath(Tree(map[]), l, p);
      MergeByPath(l, Tree(map[]), p);
    }
    SamePathsSameNode(Over(Tree(map[]), l), l);
    SamePathsSameNode(Over(l, Tree(map[])), l);
  }

  /** Applying the same overlay again changes nothing. */
  lemma MergingTwiceChangesNothing(base: Node, overlay: Node)
    ensures Over(Over(base, overlay), overlay) == Over(base, overlay)
  {
    var once := Over(base, overlay);
    forall p ensures At(Over(once, overlay), p) == At(once, p) {
      MergeByPath(base, overlay, p);
      MergeByPath(once, overlay, p);
    }
    SamePathsSameNode(Over(once, overlay), once);
  }

  /** A value of the first layer that the second removes with a scalar and the third would bring back. */
  predicate Resurfaces(a: Node, b: Node, c: Node, p: Path) {
    At(a, p).Some? && OverridesCut(b, c, p) && At(c, p).None? && !Cut(c, p)
  }

  /** Only a layer with nothing of its own at the path can disagree, and only where a cut is overridden. */
  lemma GroupingByPath(a: Node, b: Node, c: Node, p: Path)
    ensures At(Over(Over(a, b), c), p) != At(Over(a, Over(b, c)), p) <==> Resurfaces(a, b, c, p)
  {
    hide At, Cut, Over, OverridesCut;
    MergeByPath(a, b, p);
    MergeByPath(Over(a, b), c, p);
    MergeByPath(b, c, p);
    MergeByPath(a, Over(b, c), p);
    CutByPath(b, c, p);
    if OverridesCut(b, c, p) {
      OverriddenCutIsCut(b, c, p);
    }
  }

  lemma {:induction false} OverriddenCutIsCut(base: Node, overlay: Node, p: Path)
    requires OverridesCut(base, overlay, p)
    ensures Cut(base, p) && At(base, p).None?
  {
    if base.Tree? {
      OverriddenCutIsCut(base.children[p[0]], overlay.children[p[0]], p[1..]);
    }
  }

  /** Grouping of layers is irrelevant exactly when no value resurfaces. */
  lemma MergeAssociatesExactly(a: Node, b: Node, c: Node)
    ensures Over(Over(a, b), c) == Over(a, Over(b, c)) <==> forall p :: !Resurfaces(a, b, c, p)
  {
    var l, r := Over(Over(a, b), c), Over(a, Over(b, c));
    forall p ensures At(l, p) != At(r, p) <==> Resurfaces(a, b, c, p) {
      GroupingByPath(a, b, c, p);
    }
    if forall p :: !Resurfaces(a, b, c, p) {
      SamePathsSameNode(l, r);
    }
  }

  /** No path is a mapping in one layer and a scalar in the other. */
  ghost predicate SameKinds(m: Node, n: Node) {
    forall p :: At(m, p).Some? && At(n, p).Some? ==> (At(m, p).value == Mapping <==> At(n, p).value == Mapping)
  }

  lemma {:induction false} OverriddenCutMixesKinds(base: Node, overlay: Node, p: Path)
    requires OverridesCut(base, overlay, p)
    ensures exists q ::
      At(base, q).Some? && At(overlay, q).Some? && At(base, q).value != Mapping && At(overlay, q).value == Mapping
  {
    if base.Leaf? {
      assert At(base, []).Some? && At(overlay, []).Some?;
    } else {
      var k := p[0];
      OverriddenCutMixesKinds(base.children[k], overlay.children[k], p[1..]);
      var q :| At(base.children[k], q).Some? && At(overlay.children[k], q).Some?
        && At(base.children[k], q).value != Mapping && At(overlay.children[k], q).value == Mapping;
      assert ([k] + q)[1..] == q;
      assert At(base, [k] + q) == At(base.children[k], q) && At(overlay, [k] + q) == At(overlay.children[k], q);
    }
  }

  /** In particular it is irrelevant when the upper two layers agree on what is a mapping. */
  lemma MergeAssociatesForSameKinds(a: Node, b: Node, c: Node)
    requires SameKinds(b, c)
    ensures Over(Over(a, b), c) == Over(a, Over(b, c))
  {
    forall p ensures !Resurfaces(a, b, c, p) {
      if OverridesCut(b, c, p) {
        OverriddenCutMixesKinds(b, c, p);
      }
    }
    MergeAssociatesExactly(a, b, c);
  }

  lemma MixedKindsDoNotAssociate()
    ensures
      var a, b, c := Tree(map["daemon" := Tree(map["poll" := Leaf("5")])]), Tree(map["daemon" := Leaf("off")]),
                     Tree(map["daemon" := Tree(map[])]);
      Over(Over(a, b), c) != Over(a, Over(b, c))
  {
    var a, b, c := Tree(map["daemon" := Tree(map["poll" := Leaf("5")])]), Tree(map["daemon" := Leaf("off")]),
                   Tree(map["daemon" := Tree(map[])]);
    var p := ["daemon", "poll"];
    assert p[1..] == ["poll"] && ["poll"][1..] == [];
    assert Resurfaces(a, b, c, p);
    MergeAssociatesExactly(a, b, c);
  }

  /** The topmost layer that has something at the path, unless a scalar above it hides the path. */
  function Layered(defaults: Node, user: Node, workspace: Node, p: Path): Option<Shape> {
    if At(workspace, p).Some? then At(workspace, p)
    else if Cut(workspace, p) then None
    else if At(user, p).Some? then At(user, p)
    else if Cut(user, p) then None
    else At(defaults, p)
  }

  /** The three file layers in order of precedence, composed as the loader composes them. */
  method EffectiveData(defaults: map<string, Node>, user: map<string, Node>, workspace: map<string, Node>)
    returns (data: map<string, Node>)
    ensures forall p :: At(Tree(data), p) == Layered(Tree(defaults), Tree(user), Tree(workspace), p)
  {
    hide At, Cut, Over;
    var config := MergeConfigLayers(defaults, user);
    data := MergeConfigLayers(config, workspace);
    forall p ensures At(Tree(data), p) == Layered(Tree(defaults), Tree(user), Tree(workspace), p) {
      MergeByPath(Tree(defaults), Tree(user), p);
      MergeByPath(Tree(config), Tree(workspace), p);
    }
  }
}
