/** The category menu: products grouped into a three-level tree of
    dictionaries (category, sub-category, sub-sub-category), with a
    `_products` bucket at the first two levels for products that stop
    there, and the menu rendered from that tree. */
module CategoryBar {
  import opened Wrappers
  import opened Seqs
  import opened Text
  import opened JsObjects
  import opened Catalog

  /** The `{ id, name }` pushed for a product. */
  datatype Entry = Entry(id: int, name: string)

  function EntryOf(p: Product): Entry {
    Entry(p.id, p.name)
  }

  /** `categories[cat][sub]`: its sub-sub-category lists and its
      `_products` bucket (an absent bucket reads as empty, as `|| []` does). */
  datatype SubNode = SubNode(leaves: Dict<seq<Entry>>, direct: seq<Entry>)

  /** `categories[cat]`: its sub-category nodes and its `_products` bucket. */
  datatype CatNode = CatNode(subs: Dict<SubNode>, direct: seq<Entry>)

  type Tree = Dict<CatNode>

  const ProductsKey := "_products"

  predicate CatNodeOk(n: CatNode) {
    WellFormed(n.subs) && forall s :: s in n.subs.values ==> WellFormed(n.subs.values[s].leaves)
  }

  predicate TreeOk(t: Tree) {
    WellFormed(t) && forall c :: c in t.values ==> CatNodeOk(t.values[c])
  }

  /** Which list of the tree a product is pushed onto. */
  datatype Slot = Direct(cat: string) | SubDirect(cat: string, sub: string) | Leaf(cat: string, sub: string, subSub: string)

  function SlotOf(p: Product): Slot {
    if Truthy(p.subCategory) then
      if Truthy(p.subSubCategory) then Leaf(p.category, p.subCategory.value, p.subSubCategory.value)
      else SubDirect(p.category, p.subCategory.value)
    else Direct(p.category)
  }

  function InSlot(s: Slot): Product -> bool {
    (p: Product) => SlotOf(p) == s
  }

  function NewCatNode(): (n: CatNode)
    ensures CatNodeOk(n)
  {
    CatNode(EmptyDict(), [])
  }

  function NewSubNode(): (n: SubNode)
    ensures WellFormed(n.leaves)
  {
    SubNode(EmptyDict(), [])
  }

  /** Pushes a product that has a sub-category onto its sub-category node:
      into the sub-sub-category list (created when absent) or the bucket. */
  function InsertInSub(sn: SubNode, p: Product): (r: SubNode)
    requires WellFormed(sn.leaves)
    ensures WellFormed(r.leaves)
  {
    if Truthy(p.subSubCategory) then
      var ss := p.subSubCategory.value;
      var leaf := if ss in sn.leaves.values then sn.leaves.values[ss] else [];
      SubNode(Put(sn.leaves, ss, leaf + [EntryOf(p)]), sn.direct)
    else SubNode(sn.leaves, sn.direct + [EntryOf(p)])
  }

  /** Pushes a product onto its category node, creating the sub-category
      node when absent. */
  function InsertInCat(node: CatNode, p: Product): (r: CatNode)
    requires CatNodeOk(node)
    ensures CatNodeOk(r)
  {
    if Truthy(p.subCategory) then
      var sub := p.subCategory.value;
      var sn := if sub in node.subs.values then node.subs.values[sub] else NewSubNode();
      CatNode(Put(node.subs, sub, InsertInSub(sn, p)), node.direct)
    else CatNode(node.subs, node.direct + [EntryOf(p)])
  }

  /** One step of the forEach: create the category node when absent, then
      push the product along its path. */
  function Insert(t: Tree, p: Product): (r: Tree)
    requires TreeOk(t)
    ensures TreeOk(r)
  {
    var node := if p.category in t.values then t.values[p.category] else NewCatNode();
    Put(t, p.category, InsertInCat(node, p))
  }

  /** The tree after the forEach over `products`. */
  function BuildTree(products: seq<Product>): (t: Tree)
    ensures TreeOk(t)
  {
    if |products| == 0 then EmptyDict()
    else Insert(BuildTree(products[..|products| - 1]), products[|products| - 1])
  }

  lemma PutPut<V>(d: Dict<V>, k: string, v1: V, v2: V)
    requires WellFormed(d)
    ensures Put(Put(d, k, v1), k, v2) == Put(d, k, v2)
  {
  }

  /** The body of the forEach for one product, below the category level. */
  method PushToSub(node: CatNode, p: Product) returns (r: CatNode)
    requires CatNodeOk(node) && Truthy(p.subCategory)
    ensures r == InsertInCat(node, p)
  {
    var e := EntryOf(p);
    var sub := p.subCategory.value;
    var subs := node.subs;
    if sub !in subs.values {
      subs := Put(subs, sub, NewSubNode());
    }
    ghost var old_sn := subs.values[sub];
    assert old_sn == if sub in node.subs.values then node.subs.values[sub] else NewSubNode();
    var sn := subs.values[sub];
    if Truthy(p.subSubCategory) {
      var ss := p.subSubCategory.value;
      var leaves := sn.leaves;
      if ss !in leaves.values {
        leaves := Put(leaves, ss, []);
        PutPut(sn.leaves, ss, [], [e]);
      }
      sn := SubNode(Put(leaves, ss, leaves.values[ss] + [e]), sn.direct);
    } else {
      sn := SubNode(sn.leaves, sn.direct + [e]);
    }
    assert sn == InsertInSub(old_sn, p);
    PutPut(node.subs, sub, NewSubNode(), sn);
    r := CatNode(Put(subs, sub, sn), node.direct);
  }

  /** The body of the forEach for one product. */
  method PushProduct(tree: Tree, p: Product) returns (r: Tree)
    requires TreeOk(tree)
    ensures r == Insert(tree, p)
  {
    var t := tree;
    if p.category !in t.values {
      t := Put(t, p.category, NewCatNode());
    }
    var node := t.values[p.category];
    ghost var start := node;
    assert start == if p.category in tree.values then tree.values[p.category] else NewCatNode();
    assert CatNodeOk(node);
    if Truthy(p.subCategory) {
      node := PushToSub(node, p);
    } else {
      node := CatNode(node.subs, node.direct + [EntryOf(p)]);
    }
    assert node == InsertInCat(start, p);
    PutPut(tree, p.category, NewCatNode(), node);
    r := Put(t, p.category, node);
  }

  /** The forEach of the menu component, run in place on a local dictionary:
      it yields the tree that BuildTree specifies. */
  method BuildCategoryTree(products: seq<Product>) returns (tree: Tree)
    ensures tree == BuildTree(products)
  {
    tree := EmptyDict();
    var i := 0;
    while i < |products|
      invariant 0 <= i <= |products|
      invariant tree == BuildTree(products[..i])
    {
      assert products[..i + 1][..i] == products[..i];
      tree := PushProduct(tree, products[i]);
      i := i + 1;
    }
    assert products[..i] == products;
  }

  // ---------------------------------------------------------------------
  // Where each product ends up

  /** The list of the tree that a slot names (empty when a node on its path
      is missing, as `|| []` reads it). */
  function EntriesAt(t: Tree, s: Slot): seq<Entry> {
    if s.cat in t.values then CatEntries(t.values[s.cat], s) else []
  }

  function CatEntries(n: CatNode, s: Slot): seq<Entry> {
    match s
    case Direct(_) => n.direct
    case SubDirect(_, sub) => if sub in n.subs.values then SubEntries(n.subs.values[sub], s) else []
    case Leaf(_, sub, _) => if sub in n.subs.values then SubEntries(n.subs.values[sub], s) else []
  }

  function SubEntries(n: SubNode, s: Slot): seq<Entry> {
    match s
    case Direct(_) => []
    case SubDirect(_, _) => n.direct
    case Leaf(_, _, ss) => if ss in n.leaves.values then n.leaves.values[ss] else []
  }

  lemma InsertInSubEntries(sn: SubNode, p: Product, s: Slot)
    requires WellFormed(sn.leaves) && Truthy(p.subCategory)
    requires s.SubDirect? || s.Leaf?
    requires s.cat == p.category && s.sub == p.subCategory.value
    ensures SubEntries(InsertInSub(sn, p), s) == SubEntries(sn, s) + (if SlotOf(p) == s then [EntryOf(p)] else [])
  {
  }

  lemma InsertInCatEntries(node: CatNode, p: Product, s: Slot)
    requires CatNodeOk(node) && s.cat == p.category
    ensures CatEntries(InsertInCat(node, p), s) == CatEntries(node, s) + (if SlotOf(p) == s then [EntryOf(p)] else [])
  {
    if Truthy(p.subCategory) && !s.Direct? && s.sub == p.subCategory.value {
      var sn := if s.sub in node.subs.values then node.subs.values[s.sub] else NewSubNode();
      InsertInSubEntries(sn, p, s);
    }
  }

  /** Inserting a product appends its entry to its own slot's list and
      changes no other list: nodes are created only when absent. */
  lemma InsertEntries(t: Tree, p: Product, s: Slot)
    requires TreeOk(t)
    ensures EntriesAt(Insert(t, p), s) == EntriesAt(t, s) + (if SlotOf(p) == s then [EntryOf(p)] else [])
  {
    if s.cat == p.category {
      var node := if p.category in t.values then t.values[p.category] else NewCatNode();
      InsertInCatEntries(node, p, s);
    }
  }

  /** Every list of the built tree holds exactly the products whose path
      leads there, in the order of the input. */
  lemma {:induction false} BuildEntries(products: seq<Product>, s: Slot)
    ensures EntriesAt(BuildTree(products), s) == Map(Filter(products, InSlot(s)), EntryOf)
  {
    if |products| > 0 {
      var init := products[..|products| - 1];
      var last := products[|products| - 1];
      assert products == init + [last];
      BuildEntries(init, s);
      InsertEntries(BuildTree(init), last, s);
      FilterAppend(init, last, InSlot(s));
      if SlotOf(last) == s {
        MapAppend(Filter(init, InSlot(s)), last, EntryOf);
      }
    }
  }

  function CategoryOf(p: Product): string {
    p.category
  }

  /** The category keys of the built tree are the distinct categories in
      the order they first occur. */
  lemma {:induction false} BuildCategoryKeys(products: seq<Product>)
    ensures BuildTree(products).keys == Dedup(Map(products, CategoryOf))
  {
    if |products| > 0 {
      var init := products[..|products| - 1];
      var last := products[|products| - 1];
      assert products == init + [last];
      BuildCategoryKeys(init);
      MapAppend(init, last, CategoryOf);
      DedupAppend(Map(init, CategoryOf), last.category);
      var t := BuildTree(init);
      assert last.category in t.values <==> last.category in t.keys;
    }
  }

  /** The sub-category keys under a category (none when it is absent). */
  function SubKeysOf(t: Tree, cat: string): seq<string> {
    if cat in t.values then t.values[cat].subs.keys else []
  }

  /** The products of a category that carry a sub-category. */
  function HasSubIn(cat: string): Product -> bool {
    (p: Product) => p.category == cat && Truthy(p.subCategory)
  }

  function SubCategoryOf(p: Product): string {
    if p.subCategory.Some? then p.subCategory.value else ""
  }

  lemma InsertSubKeys(t: Tree, p: Product, cat: string)
    requires TreeOk(t)
    ensures SubKeysOf(Insert(t, p), cat)
         == if HasSubIn(cat)(p) && SubCategoryOf(p) !in SubKeysOf(t, cat) then SubKeysOf(t, cat) + [SubCategoryOf(p)]
            else SubKeysOf(t, cat)
  {
    if p.category == cat {
      var node := if cat in t.values then t.values[cat] else NewCatNode();
      assert SubKeysOf(t, cat) == node.subs.keys;
      if Truthy(p.subCategory) {
        assert SubCategoryOf(p) in node.subs.values <==> SubCategoryOf(p) in node.subs.keys;
      }
    }
  }

  /** The sub-category keys under a category are its distinct truthy
      sub-categories, in the order they first occur. */
  lemma {:induction false} BuildSubKeys(products: seq<Product>, cat: string)
    ensures SubKeysOf(BuildTree(products), cat) == Dedup(Map(Filter(products, HasSubIn(cat)), SubCategoryOf))
  {
    if |products| > 0 {
      var init := products[..|products| - 1];
      var last := products[|products| - 1];
      assert products == init + [last];
      var f := HasSubIn(cat);
      BuildSubKeys(init, cat);
      FilterAppend(init, last, f);
      assert Filter(products, f) == Filter(init, f) + (if f(last) then [last] else []);
      assert BuildTree(products) == Insert(BuildTree(init), last);
      InsertSubKeys(BuildTree(init), last, cat);
      var before := Map(Filter(init, f), SubCategoryOf);
      if f(last) {
        MapAppend(Filter(init, f), last, SubCategoryOf);
        DedupAppend(before, SubCategoryOf(last));
        assert SubCategoryOf(last) in before <==> SubCategoryOf(last) in SubKeysOf(BuildTree(init), cat);
      } else {
        assert Filter(products, f) == Filter(init, f);
      }
    }
  }

  // ---------------------------------------------------------------------
  // Every product is placed once

  /** The sum of `size` over a dictionary's values, keys in order. */
  function SumBy<V>(keys: seq<string>, m: map<string, V>, size: V -> nat): nat {
    if |keys| == 0 then 0
    else
      var k := keys[|keys| - 1];
      SumBy(keys[..|keys| - 1], m, size) + (if k in m then size(m[k]) else 0)
  }

  lemma {:induction false} SumByAgree<V>(keys: seq<string>, m1: map<string, V>, m2: map<string, V>, size: V -> nat)
    requires forall k :: k in keys ==> (k in m1 <==> k in m2) && (k in m1 ==> m1[k] == m2[k])
    ensures SumBy(keys, m1, size) == SumBy(keys, m2, size)
  {
    if |keys| > 0 {
      SumByAgree(keys[..|keys| - 1], m1, m2, size);
    }
  }

  lemma {:induction false} SumByUpdate<V>(keys: seq<string>, m: map<string, V>, k: string, v: V, size: V -> nat)
    requires NoDup(keys) && k in keys && k in m
    ensures SumBy(keys, m[k := v], size) == SumBy(keys, m, size) - size(m[k]) + size(v)
  {
    var init := keys[..|keys| - 1];
    assert keys == init + [keys[|keys| - 1]];
    if keys[|keys| - 1] == k {
      SumByAgree(init, m[k := v], m, size);
    } else {
      SumByUpdate(init, m, k, v, size);
    }
  }

  lemma SumByPut<V>(d: Dict<V>, k: string, v: V, size: V -> nat)
    requires WellFormed(d)
    ensures SumBy(Put(d, k, v).keys, Put(d, k, v).values, size)
         == SumBy(d.keys, d.values, size) - (if k in d.values then size(d.values[k]) else 0) + size(v)
  {
    if k in d.values {
      SumByUpdate(d.keys, d.values, k, v, size);
    } else {
      var keys := d.keys + [k];
      assert keys[..|keys| - 1] == d.keys;
      SumByAgree(d.keys, d.values[k := v], d.values, size);
    }
  }

  function SubSize(n: SubNode): nat {
    |n.direct| + SumBy(n.leaves.keys, n.leaves.values, (l: seq<Entry>) => |l|)
  }

  function CatSize(n: CatNode): nat {
    |n.direct| + SumBy(n.subs.keys, n.subs.values, SubSize)
  }

  /** How many entries the tree holds over all its lists. */
  function TreeSize(t: Tree): nat {
    SumBy(t.keys, t.values, CatSize)
  }

  lemma InsertInSubSize(sn: SubNode, p: Product)
    requires WellFormed(sn.leaves)
    ensures SubSize(InsertInSub(sn, p)) == SubSize(sn) + 1
  {
    if Truthy(p.subSubCategory) {
      var ss := p.subSubCategory.value;
      var leaf := if ss in sn.leaves.values then sn.leaves.values[ss] else [];
      SumByPut(sn.leaves, ss, leaf + [EntryOf(p)], (l: seq<Entry>) => |l|);
    }
  }

  lemma InsertInCatSize(node: CatNode, p: Product)
    requires CatNodeOk(node)
    ensures CatSize(InsertInCat(node, p)) == CatSize(node) + 1
  {
    if Truthy(p.subCategory) {
      var sub := p.subCategory.value;
      var sn := if sub in node.subs.values then node.subs.values[sub] else NewSubNode();
      InsertInSubSize(sn, p);
      SumByPut(node.subs, sub, InsertInSub(sn, p), SubSize);
    }
  }

  /** The built tree holds one entry per product: none is lost or doubled. */
  lemma {:induction false} BuildSize(products: seq<Product>)
    ensures TreeSize(BuildTree(products)) == |products|
  {
    if |products| > 0 {
      var init := products[..|products| - 1];
      var last := products[|products| - 1];
      BuildSize(init);
      var t := BuildTree(init);
      var node := if last.category in t.values then t.values[last.category] else NewCatNode();
      InsertInCatSize(node, last);
      SumByPut(t, last.category, InsertInCat(node, last), CatSize);
    }
  }

  // ---------------------------------------------------------------------
  // The rendered menu

  /** `categoryTranslationKey`: the translation ids of the known categories. */
  const CategoryTranslationKeys: map<string, string> := map[
    "Head Protection" := "headProtection", "Safety Gloves" := "safetyGloves",
    "Safety Boots" := "safetyBoots", "Respirators" := "respirators",
    "Labels & Printers" := "labelsPrinters", "Lab Supplies" := "labSupplies",
    "Cartridges & Filters" := "cartridgesFilters", "Fire Safety" := "fireSafety",
    "Welding Protection" := "weldingProtection", "KOSMODISK" := "kosmodisk",
    "Working Wear" := "workingWear", "Electric & ARC Flash Kit" := "electricArcFlash"
  ]

  /** The translation id of a category: its own id when it is a known
      category, otherwise the category name itself. */
  function TranslationKey(cat: string): (k: string)
    ensures cat in CategoryTranslationKeys ==> k == CategoryTranslationKeys[cat] && k != ""
    ensures cat !in CategoryTranslationKeys ==> k == cat
  {
    if cat in CategoryTranslationKeys && CategoryTranslationKeys[cat] != "" then CategoryTranslationKeys[cat] else cat
  }

  function NotBucket(k: string): bool {
    k != ProductsKey
  }

  /** The keys a node lists in the menu: its own keys without the bucket. */
  function ShownKeys(keys: seq<string>): (r: seq<string>)
    ensures ProductsKey !in r
    ensures forall k :: k in r <==> k in keys && k != ProductsKey
    ensures NoDup(keys) ==> NoDup(r)
  {
    FilterSubseq(keys, NotBucket);
    if NoDup(keys) then
      SubseqNoDup(Filter(keys, NotBucket), keys);
      Filter(keys, NotBucket)
    else Filter(keys, NotBucket)
  }

  /** A sub-sub-category row: its name and the products listed under it. */
  datatype SubSubMenu = SubSubMenu(name: string, products: seq<Entry>)

  /** A sub-category row: its sub-sub-category rows, or, when it has none,
      the products of its bucket. */
  datatype SubMenu = SubMenu(name: string, subSubs: seq<SubSubMenu>, products: seq<Entry>)

  /** A category row: its translation id, its sub-category rows and the
      products it lists directly. */
  datatype CategoryMenu = CategoryMenu(name: string, translationKey: string, subs: seq<SubMenu>, products: seq<Entry>)

  function RenderSub(name: string, n: SubNode): (m: SubMenu)
    requires WellFormed(n.leaves)
    ensures m.name == name
    ensures |m.subSubs| == |ShownKeys(n.leaves.keys)|
    ensures forall i :: 0 <= i < |m.subSubs| ==> m.subSubs[i].name == ShownKeys(n.leaves.keys)[i]
    ensures forall k :: k in n.leaves.values && k != ProductsKey <==> exists i :: 0 <= i < |m.subSubs| && m.subSubs[i].name == k
    ensures forall i :: 0 <= i < |m.subSubs| ==>
      m.subSubs[i].name != ProductsKey && m.subSubs[i].name in n.leaves.values && m.subSubs[i].products == n.leaves.values[m.subSubs[i].name]
    ensures m.products == if |m.subSubs| == 0 then n.direct else []
  {
    var keys := ShownKeys(n.leaves.keys);
    var rows := seq(|keys|, i requires 0 <= i < |keys| => SubSubMenu(keys[i], n.leaves.values[keys[i]]));
    assert forall k :: k in keys ==> rows[IndexIn(keys, k)].name == k;
    SubMenu(name, rows, if |keys| > 0 then [] else n.direct)
  }

  function IndexIn(keys: seq<string>, k: string): (i: nat)
    requires k in keys
    ensures i < |keys| && keys[i] == k
  {
    FirstIndex(keys, k)
  }

  function RenderCategory(cat: string, n: CatNode): (m: CategoryMenu)
    requires CatNodeOk(n)
    ensures m.name == cat && m.translationKey == TranslationKey(cat)
    ensures |m.subs| == |ShownKeys(n.subs.keys)|
    ensures forall i :: 0 <= i < |m.subs| ==> m.subs[i].name == ShownKeys(n.subs.keys)[i]
    ensures forall k :: k in n.subs.values && k != ProductsKey <==> exists i :: 0 <= i < |m.subs| && m.subs[i].name == k
    ensures forall i :: 0 <= i < |m.subs| ==>
      m.subs[i].name != ProductsKey && m.subs[i].name in n.subs.values && m.subs[i] == RenderSub(m.subs[i].name, n.subs.values[m.subs[i].name])
    ensures m.products == if |m.subs| == 0 then n.direct else []
  {
    var keys := ShownKeys(n.subs.keys);
    var rows := SubRows(keys, n);
    CategoryMenu(cat, TranslationKey(cat), rows, if |keys| > 0 then [] else n.direct)
  }

  /** The rendered sub nodes for the given keys of a category node, in order. */
  function SubRows(keys: seq<string>, n: CatNode): (rows: seq<SubMenu>)
    requires CatNodeOk(n) && forall k :: k in keys ==> k in n.subs.values
    ensures |rows| == |keys|
    ensures forall i :: 0 <= i < |rows| ==> rows[i] == RenderSub(keys[i], n.subs.values[keys[i]]) && rows[i].name == keys[i]
    ensures forall k :: k in keys <==> exists i :: 0 <= i < |rows| && rows[i].name == k
  {
    var rows := seq(|keys|, i requires 0 <= i < |keys| => RenderSub(keys[i], n.subs.values[keys[i]]));
    assert forall k :: k in keys ==> rows[IndexIn(keys, k)].name == k;
    rows
  }

  /** The menu: one row per category key, in key order. */
  function Menu(t: Tree): (m: seq<CategoryMenu>)
    requires TreeOk(t)
    ensures |m| == |t.keys|
    ensures forall i :: 0 <= i < |m| ==> m[i] == RenderCategory(t.keys[i], t.values[t.keys[i]])
  {
    seq(|t.keys|, i requires 0 <= i < |t.keys| => RenderCategory(t.keys[i], t.values[t.keys[i]]))
  }

  /** The menu row at `m[i].subs[j].subSubs[k]` is the row for the given
      path and lists the entry. */
  predicate ListsAt(m: seq<CategoryMenu>, i: int, j: int, k: int, cat: string, sub: string, subSub: string, e: Entry) {
    0 <= i < |m| && 0 <= j < |m[i].subs| && 0 <= k < |m[i].subs[j].subSubs|
    && m[i].name == cat && m[i].subs[j].name == sub && m[i].subs[j].subSubs[k].name == subSub
    && e in m[i].subs[j].subSubs[k].products
  }

  /** Whatever a full-path list of the tree holds is listed in the menu,
      unless a name on the path is the bucket's own name. */
  lemma MenuListsLeaf(t: Tree, cat: string, sub: string, subSub: string, e: Entry)
    requires TreeOk(t) && e in EntriesAt(t, Leaf(cat, sub, subSub))
    requires sub != ProductsKey && subSub != ProductsKey
    ensures exists i, j, k :: ListsAt(Menu(t), i, j, k, cat, sub, subSub, e)
  {
    var node := t.values[cat];
    assert CatNodeOk(node);
    assert sub in node.subs.values;
    var sn := node.subs.values[sub];
    assert subSub in sn.leaves.values && e in sn.leaves.values[subSub];
    var m := Menu(t);
    var i := FirstIndex(t.keys, cat);
    var cm := RenderCategory(cat, node);
    assert m[i] == cm;
    var j :| 0 <= j < |cm.subs| && cm.subs[j].name == sub;
    var sm := RenderSub(sub, sn);
    assert cm.subs[j] == sm;
    var k :| 0 <= k < |sm.subSubs| && sm.subSubs[k].name == subSub;
    assert sm.subSubs[k].products == sn.leaves.values[subSub];
    assert ListsAt(m, i, j, k, cat, sub, subSub, e);
  }

  /** Every product that has a full path whose names are not the bucket's
      own name is listed in the menu of the built tree, under its category,
      sub-category and sub-sub-category rows. */
  lemma LeafProductShown(products: seq<Product>, p: Product)
    requires p in products && SlotOf(p).Leaf?
    requires p.subCategory.value != ProductsKey && p.subSubCategory.value != ProductsKey
    ensures exists i, j, k :: ListsAt(Menu(BuildTree(products)), i, j, k, p.category, p.subCategory.value, p.subSubCategory.value, EntryOf(p))
  {
    var s := SlotOf(p);
    var inSlot := Filter(products, InSlot(s));
    BuildEntries(products, s);
    assert p in inSlot;
    var entries := Map(inSlot, EntryOf);
    assert EntryOf(p) in entries by {
      var x := FirstIndex(inSlot, p);
      assert entries[x] == EntryOf(p);
    }
    MenuListsLeaf(BuildTree(products), p.category, p.subCategory.value, p.subSubCategory.value, EntryOf(p));
  }
}
