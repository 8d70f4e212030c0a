// The packed word of a tree node, parent address and colour in one: what RbNode keeps as two fields.
module RbWord {
  const RED: bv32 := 0
  const BLACK: bv32 := 1

  // Nodes lie at addresses that leave the two low bits free.
  predicate NodeAddr(p: bv32) { p & 3 == 0 }

  function ParentOf(w: bv32): bv32 { w & !3 }

  function ColorOf(w: bv32): bv32 { w & 1 }

  function SetParent(w: bv32, p: bv32): bv32 { (w & 3) | p }

  function SetColor(w: bv32, c: bv32): bv32 { (w & !1) | c }

  // Setting one half is read back, and leaves the other half as it was.
  lemma SetParentReads(w: bv32, p: bv32)
    requires NodeAddr(p)
    ensures ParentOf(SetParent(w, p)) == p && ColorOf(SetParent(w, p)) == ColorOf(w)
  {
  }

  lemma SetRedReads(w: bv32)
    ensures ColorOf(SetColor(w, RED)) == RED && ParentOf(SetColor(w, RED)) == ParentOf(w)
  {
    RedColor(w);
    RedParent(w);
  }

  lemma RedColor(w: bv32)
    ensures ((w & !1) | 0) & 1 == 0
  {
  }

  lemma RedParent(w: bv32)
    ensures ((w & !1) | 0) & !3 == w & !3
  {
  }

  lemma SetBlackReads(w: bv32)
    ensures ColorOf(SetColor(w, BLACK)) == BLACK && ParentOf(SetColor(w, BLACK)) == ParentOf(w)
  {
  }

  // rb_link_node stores the bare parent address: a red node below parent.
  lemma LinkedRed(p: bv32)
    requires NodeAddr(p)
    ensures ParentOf(p) == p && ColorOf(p) == RED
  {
  }

  // RB_CLEAR_NODE, then RB_EMPTY_NODE: a node is empty exactly while it is its own parent.
  lemma ClearedReads(w: bv32, node: bv32, p: bv32)
    requires NodeAddr(node) && NodeAddr(p)
    ensures ParentOf(SetParent(w, node)) == node && (ParentOf(SetParent(w, p)) == node <==> p == node)
  {
    SetParentReads(w, node);
    SetParentReads(w, p);
  }
}
