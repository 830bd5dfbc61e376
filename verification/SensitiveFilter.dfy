/** The sensitive-word trie of internal/danmaku/filter.go: a heap of nodes built by loops and walked by loops. */
module SensitiveFilters {

  /** The non-empty normalised words of a list; lower-casing and trimming are the host library's. */
  ghost function Normalised(words: seq<string>, lower: string -> string, trim: string -> string): set<string> {
    set i | 0 <= i < |words| && lower(trim(words[i])) != "" :: lower(trim(words[i]))
  }

  /** Some word stands contiguously in the text. */
  ghost predicate Occurs(words: set<string>, text: string) {
    exists i: nat, j: nat :: i < j <= |text| && text[i..j] in words
  }

  lemma TakeOneMore<T>(s: seq<T>, k: nat)
    requires k < |s|
    ensures s[..k] + [s[k]] == s[..k + 1]
  {
  }

  lemma TakeAll<T>(s: seq<T>)
    ensures s[..|s|] == s
  {
  }

  lemma NormalisedAppend(words: seq<string>, w: string, lower: string -> string, trim: string -> string)
    ensures Normalised(words + [w], lower, trim)
         == Normalised(words, lower, trim) + if lower(trim(w)) == "" then {} else {lower(trim(w))}
  {
    assert (words + [w])[|words|] == w;
    assert forall i :: 0 <= i < |words| ==> (words + [w])[i] == words[i];
  }

  class TrieNode {
    var children: map<char, TrieNode>
    var terminal: bool

    constructor ()
      ensures children == map[] && !terminal
    {
      children, terminal := map[], false;
    }
  }

  /** Nodes by path and their children by path agree, and no node is reached by two paths. */
  ghost predicate Linked(nodes: map<string, TrieNode>, kids: map<string, map<char, TrieNode>>) {
    && nodes.Keys == kids.Keys && "" in nodes
    && (forall p, q {:trigger Same(nodes, p, q)} :: p in nodes && q in nodes && Same(nodes, p, q) ==> p == q)
    && (forall p {:trigger Hangs(nodes, kids, p)} :: p in nodes && p != "" ==> Hangs(nodes, kids, p))
    && (forall p, c {:trigger Leads(nodes, kids, p, c)} :: p in kids && c in kids[p] ==> Leads(nodes, kids, p, c))
  }

  ghost predicate Same(nodes: map<string, TrieNode>, p: string, q: string)
    requires p in nodes && q in nodes
  {
    nodes[p] == nodes[q]
  }

  ghost predicate Leads(nodes: map<string, TrieNode>, kids: map<string, map<char, TrieNode>>, p: string, c: char)
    requires p in kids && c in kids[p]
  {
    p + [c] in nodes && kids[p][c] == nodes[p + [c]]
  }

  ghost predicate Hangs(nodes: map<string, TrieNode>, kids: map<string, map<char, TrieNode>>, p: string)
  {
    && p in nodes && p != ""
    && var parent, last := p[..|p| - 1], p[|p| - 1];
    parent in kids && last in kids[parent] && kids[parent][last] == nodes[p]
  }

  lemma ChildKeepsLinks(nodes: map<string, TrieNode>, kids: map<string, map<char, TrieNode>>, p: string, r: char, n: TrieNode)
    requires Linked(nodes, kids) && p in nodes && r !in kids[p] && n !in nodes.Values
    ensures p + [r] !in nodes
    ensures Linked(nodes[p + [r] := n], kids[p := kids[p][r := n]][p + [r] := map[]])
  {
    var q := p + [r];
    assert q[..|q| - 1] == p && q[|q| - 1] == r;
    assert !Hangs(nodes, kids, q);
    var more, grown := nodes[q := n], kids[p := kids[p][r := n]][q := map[]];
    forall s | s in more && s != "" ensures Hangs(more, grown, s) {
      if s != q { assert Hangs(nodes, kids, s); }
    }
    forall s, c | s in grown && c in grown[s] ensures Leads(more, grown, s, c) {
      assert (s + [c])[..|s|] == s && (s + [c])[|s|] == c;
      if s in kids && c in kids[s] { assert Leads(nodes, kids, s, c); }
    }
    forall s, t | s in more && t in more && Same(more, s, t) ensures s == t {
      if s in nodes && t in nodes { assert Same(nodes, s, t); }
    }
  }

  lemma OnlyPath(nodes: map<string, TrieNode>, kids: map<string, map<char, TrieNode>>, p: string)
    requires Linked(nodes, kids) && p in nodes
    ensures forall q :: q in nodes && nodes[q] == nodes[p] ==> q == p
  {
    forall q | q in nodes && nodes[q] == nodes[p] ensures q == p { assert Same(nodes, q, p); }
  }

  lemma RootLinked(root: TrieNode)
    ensures Linked(map["" := root], map["" := map[]])
  {
  }

  lemma {:induction false} PrefixesAreNodes(nodes: map<string, TrieNode>, kids: map<string, map<char, TrieNode>>, p: string, k: nat)
    requires Linked(nodes, kids) && k <= |p|
    ensures p in nodes ==> p[..k] in nodes
    decreases |p|
  {
    if k < |p| {
      var parent := p[..|p| - 1];
      assert p in nodes ==> Hangs(nodes, kids, p);
      PrefixesAreNodes(nodes, kids, parent, k);
      assert parent[..k] == p[..k];
    } else {
      assert p[..k] == p;
    }
  }

  /** Past a missing child there are no more paths. */
  lemma PathEnds(nodes: map<string, TrieNode>, kids: map<string, map<char, TrieNode>>, runes: string, i: nat, j: nat)
    requires Linked(nodes, kids) && i <= j < |runes| && runes[i..j] in nodes && runes[j] !in kids[runes[i..j]]
    ensures forall b: nat :: j < b <= |runes| ==> runes[i..b] !in nodes
  {
    var next := runes[i..j + 1];
    assert next[..|next| - 1] == runes[i..j] && next[|next| - 1] == runes[j];
    assert !Hangs(nodes, kids, next);
    assert next !in nodes;
    forall b: nat | j < b <= |runes| ensures runes[i..b] !in nodes {
      PrefixesAreNodes(nodes, kids, runes[i..b], j + 1 - i);
      assert runes[i..b][..j + 1 - i] == next;
    }
  }

  class SensitiveFilter {
    var root: TrieNode
    /** The node at the end of each path from the root. */
    ghost var nodes: map<string, TrieNode>

    ghost function Kids(): map<string, map<char, TrieNode>>
      reads this, nodes.Values
    {
      map p | p in nodes :: nodes[p].children
    }

    ghost predicate Shape()
      reads this, nodes.Values
    {
      Linked(nodes, Kids()) && nodes[""] == root
    }

    /** The paths that end in a terminal node. */
    ghost function Words(): set<string>
      reads this, nodes.Values
    {
      set p | p in nodes && nodes[p].terminal
    }

    /** A missing child hangs off its parent as a fresh leaf. */
    method AddChild(ghost p: string, n: TrieNode, r: char)
      requires Shape() && p in nodes && nodes[p] == n && r !in n.children
      modifies this`nodes, n`children
      ensures Shape() && Words() == old(Words())
      ensures r in n.children && p in nodes && nodes[p] == n
      ensures fresh(nodes.Values - old(nodes.Values))
    {
      hide Linked;
      var child := new TrieNode();
      Attach(p, n, r, child);
    }

    /** The heap part of AddChild. */
    method Attach(ghost p: string, n: TrieNode, r: char, child: TrieNode)
      requires Shape() && p in nodes && nodes[p] == n && r !in n.children
      requires child !in nodes.Values && child.children == map[] && !child.terminal
      modifies this`nodes, n`children
      ensures Shape() && r in n.children
      ensures nodes == old(nodes)[p + [r] := child] && p + [r] !in old(nodes)
      ensures forall s :: s in old(nodes) ==> nodes[s].terminal == old(nodes[s].terminal)
    {
      hide Linked;
      ghost var kids := Kids();
      ChildKeepsLinks(nodes, kids, p, r, child);
      OnlyPath(nodes, kids, p);
      n.children := n.children[r := child];
      nodes := nodes[p + [r] := child];
      assert Kids() == kids[p := kids[p][r := child]][p + [r] := map[]];
    }

    /** One iteration of the inner loop of NewSensitiveFilter. */
    method Descend(ghost p: string, n: TrieNode, r: char) returns (child: TrieNode)
      requires Shape() && p in nodes && nodes[p] == n
      modifies this`nodes, n`children
      ensures Shape() && Words() == old(Words())
      ensures p + [r] in nodes && nodes[p + [r]] == child
      ensures fresh(nodes.Values - old(nodes.Values))
    {
      if r !in n.children {
        AddChild(p, n, r);
      }
      assert Leads(nodes, Kids(), p, r);
      child := n.children[r];
    }

    /** One iteration of the outer loop of NewSensitiveFilter, for a word that is not empty. */
    method Insert(word: string)
      requires Shape() && word != ""
      modifies this`nodes, nodes.Values
      ensures Shape() && Words() == old(Words()) + {word}
      ensures fresh(nodes.Values - old(nodes.Values))
    {
      var n := root;
      var k := 0;
      while k < |word|
        invariant k <= |word| && Shape() && Words() == old(Words())
        invariant word[..k] in nodes && nodes[word[..k]] == n
        invariant fresh(nodes.Values - old(nodes.Values))
      {
        n := Descend(word[..k], n, word[k]);
        TakeOneMore(word, k);
        k := k + 1;
      }
      TakeAll(word);
      MarkWord(word, n);
    }

    method MarkWord(ghost word: string, n: TrieNode)
      requires Shape() && word in nodes && nodes[word] == n
      modifies n`terminal
      ensures Shape() && Words() == old(Words()) + {word}
    {
      hide Linked;
      ghost var kids := Kids();
      OnlyPath(nodes, kids, word);
      n.terminal := true;
      assert Kids() == kids;
    }

    constructor (list: seq<string>, lower: string -> string, trim: string -> string)
      ensures Shape() && Words() == Normalised(list, lower, trim) && fresh(root) && fresh(nodes.Values)
    {
      var top := new TrieNode();
      root, nodes := top, map["" := top];
      new;
      hide Linked;
      RootLinked(top);
      assert Kids() == map["" := map[]];
      var i := 0;
      while i < |list|
        invariant i <= |list| && Shape() && Words() == Normalised(list[..i], lower, trim)
        invariant fresh(root) && fresh(nodes.Values)
      {
        var word := lower(trim(list[i]));
        TakeOneMore(list, i);
        NormalisedAppend(list[..i], list[i], lower, trim);
        if word != "" {
          Insert(word);
        }
        i := i + 1;
      }
      TakeAll(list);
    }

    /** A nil filter matches nothing; any other matches exactly the texts in which a word occurs. */
    static method Contains(f: SensitiveFilter?, text: string, lower: string -> string)
      returns (found: bool)
      requires f != null ==> f.Shape() && "" !in f.Words()
      ensures found <==> f != null && Occurs(f.Words(), lower(text))
    {
      if f == null { return false; }
      var runes := lower(text);
      var i := 0;
      while i < |runes|
        invariant i <= |runes|
        invariant forall a: nat, b: nat :: a < i && a < b <= |runes| ==> runes[a..b] !in f.Words()
      {
        var hit := f.StartsAt(runes, i);
        if hit { return true; }
        i := i + 1;
      }
      return false;
    }

    /** The inner loop: does a word begin at position `i`? */
    method StartsAt(runes: string, i: nat) returns (hit: bool)
      requires Shape() && i <= |runes| && "" !in Words()
      ensures hit <==> exists b: nat :: i < b <= |runes| && runes[i..b] in Words()
    {
      var n := root;
      var j := i;
      assert runes[i..i] == "";
      while j < |runes|
        invariant i <= j <= |runes| && runes[i..j] in nodes && nodes[runes[i..j]] == n
        invariant forall b: nat :: i < b <= j ==> runes[i..b] !in Words()
      {
        assert runes[i..j] + [runes[j]] == runes[i..j + 1] && Kids()[runes[i..j]] == n.children;
        if runes[j] !in n.children {
          PathEnds(nodes, Kids(), runes, i, j);
          return false;
        }
        assert Leads(nodes, Kids(), runes[i..j], runes[j]);
        n := n.children[runes[j]];
        j := j + 1;
        if n.terminal { return true; }
      }
      return false;
    }
  }
}
