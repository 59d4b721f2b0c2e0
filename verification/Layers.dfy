/** Extracting image layers into a directory, and the overlay of the layers that it is meant to produce. */
module Layers {
  import opened Wrappers

  /** A clean path relative to the destination, segment by segment; [] is the destination itself. */
  type Path = seq<string>

  datatype Node = Dir | File(content: string)

  /** What exists, by path. */
  type Tree = map<Path, Node>

  datatype Kind = DirEntry | FileEntry(content: string) | SkippedEntry

  datatype Entry = Entry(path: Path, kind: Kind)

  type Layer = seq<Entry>

  datatype FsError = NotADirectory | IsADirectory

  const WHITEOUT := ".wh."
  const OPAQUE := ".wh..wh..opq"

  predicate StrictPrefix(p: Path, q: Path) {
    p <= q && p != q
  }

  // ---------- File system operations ----------

  /** Some proper ancestor is a regular file. */
  predicate UnderFile(t: Tree, p: Path) {
    exists i :: 0 <= i < |p| && p[..i] in t && t[p[..i]].File?
  }

  function Without(t: Tree, p: Path): Tree {
    map q | q in t && !(p <= q) :: t[q]
  }

  function Ancestors(p: Path): Tree {
    map i | 0 <= i < |p| :: p[..i] := Dir
  }

  /** The tree with the node and the directories that lead to it. */
  function With(t: Tree, p: Path, n: Node): Tree {
    (t + Ancestors(p))[p := n]
  }

  class FileSystem {
    var tree: Tree

    constructor (tree: Tree)
      ensures this.tree == tree
    {
      this.tree := tree;
    }

    /** Removes a path and everything below it; what does not exist is no error. */
    method RemoveAll(p: Path) returns (r: Option<FsError>)
      modifies this
      ensures r == if UnderFile(old(tree), p) then Some(NotADirectory) else None
      ensures tree == if r.None? then Without(old(tree), p) else old(tree)
    {
      if UnderFile(tree, p) {
        return Some(NotADirectory);
      }
      tree := map q | q in tree && !(p <= q) :: tree[q];
      r := None;
    }

    /** Creates a directory and its ancestors where they are missing, from the top. */
    method MkdirAll(p: Path) returns (r: Option<FsError>)
      modifies this
      ensures r == if UnderFile(old(tree), p) || (p in old(tree) && old(tree)[p].File?)
              then Some(NotADirectory) else None
      ensures tree == if r.None? then With(old(tree), p, Dir) else old(tree)
    {
      if UnderFile(tree, p) || (p in tree && tree[p].File?) {
        return Some(NotADirectory);
      }
      hide Ancestors, UnderFile;
      ghost var before := tree;
      var i := 0;
      NoAncestors();
      assert p[..0] == [] && before + map[] == before;
      while i < |p|
        invariant 0 <= i <= |p| && tree == before + Ancestors(p[..i])
      {
        AncestorsStep(p, i);
        UnionWith(before, Ancestors(p[..i]), p[..i], Dir);
        tree := tree[p[..i] := Dir];
        i := i + 1;
      }
      assert p[..|p|] == p;
      tree := tree[p := Dir];
      r := None;
    }

    /** Creates or truncates a file and writes its content. */
    method WriteFile(p: Path, content: string) returns (r: Option<FsError>)
      modifies this
      ensures r == if p in old(tree) && old(tree)[p].Dir? then Some(IsADirectory) else None
      ensures tree == if r.None? then old(tree)[p := File(content)] else old(tree)
    {
      if p in tree && tree[p].Dir? {
        return Some(IsADirectory);
      }
      tree := tree[p := File(content)];
      r := None;
    }
  }

  lemma NoAncestors()
    ensures Ancestors([]) == map[]
  {
  }

  lemma UnionWith(a: Tree, b: Tree, p: Path, n: Node)
    ensures a + b[p := n] == (a + b)[p := n]
  {
  }

  lemma AncestorsStep(p: Path, i: nat)
    requires i < |p|
    ensures Ancestors(p[..i + 1]) == Ancestors(p[..i])[p[..i] := Dir]
  {
    var q := p[..i + 1];
    assert forall j :: 0 <= j < i ==> p[..i][..j] == q[..j];
    assert q[..i] == p[..i];
  }

  // ---------- What one archive entry does ----------

  /**
   The path a whiteout removes: a name that is empty or a dot means the directory itself, two dots the directory above.
   Above the destination is what contains it, so that removing it removes the whole tree.
   */
  function WhiteoutTarget(dir: Path, name: string): Path {
    if name == "" || name == "." then dir
    else if name == ".." then if dir == [] then [] else dir[..|dir| - 1]
    else dir + [name]
  }

  /** The removal an entry stands for, if it is a whiteout. */
  function Removal(e: Entry): Option<Path> {
    if e.path == [] then None
    else
      var dir, base := e.path[..|e.path| - 1], e.path[|e.path| - 1];
      if base == OPAQUE then Some(dir)
      else if WHITEOUT <= base then Some(WhiteoutTarget(dir, base[|WHITEOUT|..]))
      else None
  }

  datatype Addition = Addition(path: Path, node: Node)

  /** The file or directory an entry makes; an opaque whiteout makes its directory anew. */
  function Added(e: Entry): Option<Addition> {
    if e.path == [] then None
    else
      var dir, base := e.path[..|e.path| - 1], e.path[|e.path| - 1];
      if base == OPAQUE then Some(Addition(dir, Dir))
      else if WHITEOUT <= base then None
      else
        match e.kind
        case DirEntry => Some(Addition(e.path, Dir))
        case FileEntry(content) => Some(Addition(e.path, File(content)))
        case SkippedEntry => None
  }

  function AddError(t: Tree, a: Addition): Option<FsError> {
    if UnderFile(t, a.path) then Some(NotADirectory)
    else if a.path !in t then None
    else if a.node.Dir? && t[a.path].File? then Some(NotADirectory)
    else if a.node.File? && t[a.path].Dir? then Some(IsADirectory)
    else None
  }

  function AfterRemoval(t: Tree, e: Entry): Tree {
    match Removal(e)
    case None => t
    case Some(p) => Without(t, p)
  }

  function AfterAddition(t: Tree, e: Entry): Tree {
    match Added(e)
    case None => t
    case Some(a) => With(t, a.path, a.node)
  }

  function StepError(t: Tree, e: Entry): Option<FsError> {
    if Removal(e).Some? && UnderFile(t, Removal(e).value) then Some(NotADirectory)
    else if Added(e).Some? then AddError(AfterRemoval(t, e), Added(e).value)
    else None
  }

  function Step(t: Tree, e: Entry): Tree {
    if StepError(t, e).Some? then t else AfterAddition(AfterRemoval(t, e), e)
  }

  datatype Outcome = Outcome(tree: Tree, error: Option<FsError>)

  /** Entries are applied in order up to the first that fails, which changes nothing. */
  function Extracted(t: Tree, layer: Layer): Outcome {
    if layer == [] then Outcome(t, None)
    else
      var before, e := Extracted(t, layer[..|layer| - 1]), layer[|layer| - 1];
      if before.error.Some? then before else Outcome(Step(before.tree, e), StepError(before.tree, e))
  }

  /** As any file system: what exists, exists in a directory. */
  ghost predicate WellFormed(t: Tree) {
    forall q, i :: q in t && 0 <= i < |q| ==> q[..i] in t && t[q[..i]].Dir?
  }

  lemma AncestorsAre(p: Path, q: Path)
    ensures q in Ancestors(p) <==> StrictPrefix(q, p)
  {
    if StrictPrefix(q, p) {
      assert q == p[..|q|];
    }
  }

  lemma WithAt(t: Tree, p: Path, n: Node, q: Path)
    ensures q in With(t, p, n) <==> q in t || q <= p
    ensures q in With(t, p, n) ==> With(t, p, n)[q] == if q == p then n else if q <= p then Dir else t[q]
  {
    AncestorsAre(p, q);
  }

  lemma WithoutKeepsWellFormed(t: Tree, p: Path)
    requires WellFormed(t)
    ensures WellFormed(Without(t, p))
  {
    forall q, i | q in Without(t, p) && 0 <= i < |q| ensures q[..i] in Without(t, p) && Without(t, p)[q[..i]].Dir? {
      assert p <= q[..i] ==> p <= q;
    }
  }

  lemma WithKeepsWellFormed(t: Tree, a: Addition)
    requires WellFormed(t) && AddError(t, a).None?
    ensures WellFormed(With(t, a.path, a.node))
  {
    var u := With(t, a.path, a.node);
    forall q, i | q in u && 0 <= i < |q| ensures q[..i] in u && u[q[..i]].Dir? {
      WithAt(t, a.path, a.node, q);
      WithAt(t, a.path, a.node, q[..i]);
      if q[..i] == a.path {
        assert q in t && t[q[..i]].Dir?;
      }
    }
  }

  lemma StepKeepsWellFormed(t: Tree, e: Entry)
    requires WellFormed(t)
    ensures WellFormed(Step(t, e))
  {
    hide UnderFile, With, Without, WellFormed;
    if Removal(e).Some? {
      WithoutKeepsWellFormed(t, Removal(e).value);
    }
    if Added(e).Some? && StepError(t, e).None? {
      WithKeepsWellFormed(AfterRemoval(t, e), Added(e).value);
    }
  }

  // ---------- The extraction loops ----------

  /** One turn of extractTar's loop. */
  method ExtractEntry(fs: FileSystem, e: Entry) returns (r: Option<FsError>)
    requires WellFormed(fs.tree)
    modifies fs
    ensures r == StepError(old(fs.tree), e) && fs.tree == Step(old(fs.tree), e)
  {
    hide With, Without, UnderFile, WellFormed;
    if e.path == [] {
      return None;
    }
    var dirName, baseName := e.path[..|e.path| - 1], e.path[|e.path| - 1];
    if WHITEOUT <= baseName {
      if baseName == OPAQUE {
        r := fs.RemoveAll(dirName);
        if r.Some? {
          return;
        }
        RemovalClearsTheWay(old(fs.tree), dirName);
        r := fs.MkdirAll(dirName);
        return;
      }
      r := fs.RemoveAll(WhiteoutTarget(dirName, baseName[|WHITEOUT|..]));
      return;
    }
    match e.kind {
      case DirEntry =>
        r := fs.MkdirAll(e.path);
      case FileEntry(content) =>
        ParentReady(fs.tree, e.path);
        r := fs.MkdirAll(dirName);
        if r.Some? {
          return;
        }
        FileThroughParent(old(fs.tree), e.path, File(content));
        r := fs.WriteFile(e.path, content);
      case SkippedEntry =>
        r := None;
    }
  }

  lemma RemovalClearsTheWay(t: Tree, p: Path)
    requires !UnderFile(t, p)
    ensures !UnderFile(Without(t, p), p) && p !in Without(t, p)
  {
  }

  lemma PrefixOfParent(p: Path, q: Path)
    requires p != []
    ensures StrictPrefix(q, p) <==> q <= p[..|p| - 1]
  {
    if StrictPrefix(q, p) {
      assert q == p[..|q|];
    }
  }

  /** Making the parent first and then the file is adding the file with its ancestors. */
  lemma FileThroughParent(t: Tree, p: Path, n: Node)
    requires p != []
    ensures With(t, p[..|p| - 1], Dir)[p := n] == With(t, p, n)
  {
    hide With;
    var u := With(t, p[..|p| - 1], Dir)[p := n];
    forall q ensures (q in u <==> q in With(t, p, n)) && (q in u ==> u[q] == With(t, p, n)[q]) {
      PrefixOfParent(p, q);
      WithAt(t, p[..|p| - 1], Dir, q);
      WithAt(t, p, n, q);
    }
  }

  /** Making the parent changes nothing about the file's own path, and nothing at all if a directory is there. */
  lemma ParentReady(t: Tree, p: Path)
    requires WellFormed(t) && p != []
    ensures var dir := p[..|p| - 1];
            && (UnderFile(t, p) <==> UnderFile(t, dir) || (dir in t && t[dir].File?))
            && (p in With(t, dir, Dir) <==> p in t)
            && (p in t ==> With(t, dir, Dir)[p] == t[p])
            && (p in t && t[p].Dir? ==> With(t, dir, Dir) == t)
  {
    var dir := p[..|p| - 1];
    assert forall i :: 0 <= i < |dir| ==> dir[..i] == p[..i];
    WithAt(t, dir, Dir, p);
    if p in t {
      forall q ensures q in With(t, dir, Dir) <==> q in t {
        WithAt(t, dir, Dir, q);
        assert q <= dir ==> q == p[..|q|];
      }
      forall q | q in t ensures With(t, dir, Dir)[q] == t[q] {
        WithAt(t, dir, Dir, q);
        assert q <= dir ==> q == p[..|q|];
      }
    }
  }

  lemma ErrorSticks(t: Tree, layer: Layer, i: nat)
    requires i <= |layer| && Extracted(t, layer[..i]).error.Some?
    ensures Extracted(t, layer) == Extracted(t, layer[..i])
    decreases |layer|
  {
    if i < |layer| {
      assert layer[..|layer| - 1][..i] == layer[..i];
      ErrorSticks(t, layer[..|layer| - 1], i);
    } else {
      assert layer[..i] == layer;
    }
  }

  lemma {:induction false} ExtractedWellFormed(t: Tree, layer: Layer)
    requires WellFormed(t)
    ensures WellFormed(Extracted(t, layer).tree)
  {
    if layer != [] {
      ExtractedWellFormed(t, layer[..|layer| - 1]);
      StepKeepsWellFormed(Extracted(t, layer[..|layer| - 1]).tree, layer[|layer| - 1]);
    }
  }

  method ExtractTar(fs: FileSystem, layer: Layer) returns (r: Option<FsError>)
    requires WellFormed(fs.tree)
    modifies fs
    ensures Outcome(fs.tree, r) == Extracted(old(fs.tree), layer) && WellFormed(fs.tree)
  {
    var i := 0;
    while i < |layer|
      invariant 0 <= i <= |layer| && Extracted(old(fs.tree), layer[..i]) == Outcome(fs.tree, None)
                && WellFormed(fs.tree)
    {
      hide WellFormed, Step, StepError;
      assert layer[..i + 1][..i] == layer[..i];
      StepKeepsWellFormed(fs.tree, layer[i]);
      r := ExtractEntry(fs, layer[i]);
      if r.Some? {
        ErrorSticks(old(fs.tree), layer, i + 1);
        return;
      }
      i := i + 1;
    }
    assert layer[..|layer|] == layer;
    r := None;
  }

  type Image = seq<Layer>

  function ImageExtracted(t: Tree, image: Image): Outcome {
    if image == [] then Outcome(t, None)
    else
      var below := ImageExtracted(t, image[..|image| - 1]);
      if below.error.Some? then below else Extracted(below.tree, image[|image| - 1])
  }

  lemma ImageErrorSticks(t: Tree, image: Image, i: nat)
    requires i <= |image| && ImageExtracted(t, image[..i]).error.Some?
    ensures ImageExtracted(t, image) == ImageExtracted(t, image[..i])
    decreases |image|
  {
    if i < |image| {
      assert image[..|image| - 1][..i] == image[..i];
      ImageErrorSticks(t, image[..|image| - 1], i);
    } else {
      assert image[..i] == image;
    }
  }

  method ExtractImageLayers(fs: FileSystem, image: Image) returns (r: Option<FsError>)
    requires WellFormed(fs.tree)
    modifies fs
    ensures Outcome(fs.tree, r) == ImageExtracted(old(fs.tree), image) && WellFormed(fs.tree)
  {
    var k := 0;
    while k < |image|
      invariant 0 <= k <= |image| && ImageExtracted(old(fs.tree), image[..k]) == Outcome(fs.tree, None)
                && WellFormed(fs.tree)
    {
      assert image[..k + 1][..k] == image[..k];
      r := ExtractTar(fs, image[k]);
      if r.Some? {
        ImageErrorSticks(old(fs.tree), image, k + 1);
        return;
      }
      k := k + 1;
    }
    assert image[..|image|] == image;
    r := None;
  }

  // ---------- The overlay ----------

  predicate Removes(e: Entry, q: Path) {
    Removal(e).Some? && Removal(e).value <= q
  }

  /** The entry's node, or a directory that leads to it. */
  predicate Adds(e: Entry, q: Path) {
    Added(e).Some? && q <= Added(e).value.path
  }

  function NodeAt(e: Entry, q: Path): Node
    requires Adds(e, q)
  {
    if q == Added(e).value.path then Added(e).value.node else Dir
  }

  /** What a layer contributes, whiteouts apart: each path as the last entry that names or needs it has it. */
  function Contents(layer: Layer): Tree {
    if layer == [] then map[] else AfterAddition(Contents(layer[..|layer| - 1]), layer[|layer| - 1])
  }

  /** The overlay: the lower tree without what the layer's whiteouts cover, and then the layer's contents. */
  function Overlay(t: Tree, layer: Layer): Tree {
    (map q | q in t && !(exists i :: 0 <= i < |layer| && Removes(layer[i], q)) :: t[q]) + Contents(layer)
  }

  function ImageOverlay(t: Tree, image: Image): Tree {
    if image == [] then t else Overlay(ImageOverlay(t, image[..|image| - 1]), image[|image| - 1])
  }

  /** Whatever a whiteout covers of its own layer's entries is added again by it or after it. */
  predicate Lossless(layer: Layer) {
    forall i, j :: 0 <= i < j < |layer| ==> ReaddsCovered(layer, i, j)
  }

  /** No path added by entry i and removed by whiteout j is lost. */
  predicate ReaddsCovered(layer: Layer, i: nat, j: nat)
    requires i < j < |layer|
  {
    Added(layer[i]).Some? ==>
      var p := Added(layer[i]).value.path;
      forall n :: 0 <= n <= |p| && Removes(layer[j], p[..n]) ==>
        exists k :: j <= k < |layer| && Adds(layer[k], p[..n])
  }

  /**
   The usual order: a whiteout comes before the entries of its layer that it would cover, its own directory excepted.
   */
  predicate WhiteoutsFirst(layer: Layer) {
    forall i, j :: 0 <= i < j < |layer| && Added(layer[i]).Some? ==>
      var p := Added(layer[i]).value.path; Removes(layer[j], p) ==> Adds(layer[j], p) && Removal(layer[j]).value == p
  }

  lemma WhiteoutsFirstIsLossless(layer: Layer)
    requires WhiteoutsFirst(layer)
    ensures Lossless(layer)
  {
    forall i, j | 0 <= i < j < |layer| ensures ReaddsCovered(layer, i, j) {
      if Added(layer[i]).Some? {
        var p := Added(layer[i]).value.path;
        forall n | 0 <= n <= |p| && Removes(layer[j], p[..n])
          ensures exists k :: j <= k < |layer| && Adds(layer[k], p[..n])
        {
          assert Removes(layer[j], p);
          assert p[..n] == p;
          assert Adds(layer[j], p[..n]);
        }
      }
    }
  }

  function At(t: Tree, q: Path): Option<Node> {
    if q in t then Some(t[q]) else None
  }

  lemma AdditionAt(t: Tree, e: Entry, q: Path)
    ensures At(AfterAddition(t, e), q) == if Adds(e, q) then Some(NodeAt(e, q)) else At(t, q)
  {
    hide With;
    if Added(e).Some? {
      WithAt(t, Added(e).value.path, Added(e).value.node, q);
    }
  }

  /** What the entries of a layer, taken in order, last say about a path. */
  function LastSay(t: Tree, layer: Layer, q: Path): Option<Node> {
    if layer == [] then At(t, q)
    else
      var e := layer[|layer| - 1];
      if Adds(e, q) then Some(NodeAt(e, q))
      else if Removes(e, q) then None
      else LastSay(t, layer[..|layer| - 1], q)
  }

  lemma {:induction false} ExtractedAt(t: Tree, layer: Layer, q: Path)
    requires Extracted(t, layer).error.None?
    ensures At(Extracted(t, layer).tree, q) == LastSay(t, layer, q)
    decreases |layer|
  {
    if layer != [] {
      var before, e := Extracted(t, layer[..|layer| - 1]).tree, layer[|layer| - 1];
      ExtractedAt(t, layer[..|layer| - 1], q);
      AdditionAt(AfterRemoval(before, e), e, q);
    }
  }

  /** Some entry adds the path, a later whiteout removes it, and nothing adds it again. */
  predicate Lost(layer: Layer, q: Path) {
    if layer == [] then false
    else
      var e := layer[|layer| - 1];
      if Adds(e, q) then false
      else if Removes(e, q) then q in Contents(layer[..|layer| - 1])
      else Lost(layer[..|layer| - 1], q)
  }

  predicate Covered(layer: Layer, q: Path) {
    exists i :: 0 <= i < |layer| && Removes(layer[i], q)
  }

  lemma CoveredStep(layer: Layer, q: Path)
    requires layer != []
    ensures Covered(layer, q) <==> Covered(layer[..|layer| - 1], q) || Removes(layer[|layer| - 1], q)
  {
  }

  /** Layer extraction and overlay agree about a path exactly if it is not lost. */
  lemma {:induction false} LastSayIsOverlayIff(t: Tree, layer: Layer, q: Path)
    ensures LastSay(t, layer, q) == At(Overlay(t, layer), q) <==> !Lost(layer, q)
    ensures Lost(layer, q) ==> LastSay(t, layer, q).None? && q in Contents(layer)
    decreases |layer|
  {
    if layer != [] {
      var before, e := layer[..|layer| - 1], layer[|layer| - 1];
      LastSayIsOverlayIff(t, before, q);
      AdditionAt(Contents(before), e, q);
      CoveredStep(layer, q);
    }
  }

  predicate LastAdder(layer: Layer, q: Path, i: nat)
    requires i < |layer|
  {
    Adds(layer[i], q) && forall j :: i < j < |layer| ==> !Adds(layer[j], q)
  }

  /** The contents have exactly the paths some entry adds, each with the node of the last entry that adds it. */
  lemma {:induction false} ContentsAre(layer: Layer, q: Path)
    ensures q in Contents(layer) <==> exists i :: 0 <= i < |layer| && Adds(layer[i], q)
    ensures q in Contents(layer) ==>
      exists i :: 0 <= i < |layer| && LastAdder(layer, q, i) && Contents(layer)[q] == NodeAt(layer[i], q)
    decreases |layer|
  {
    hide Adds, NodeAt, AfterAddition;
    if layer != [] {
      var n, before := |layer| - 1, layer[..|layer| - 1];
      ContentsAre(before, q);
      AdditionAt(Contents(before), layer[n], q);
      if Adds(layer[n], q) {
        assert LastAdder(layer, q, n);
      } else if q in Contents(before) {
        var i :| 0 <= i < n && LastAdder(before, q, i) && Contents(before)[q] == NodeAt(before[i], q);
        assert LastAdder(layer, q, i) && layer[i] == before[i];
      }
    }
  }

  lemma {:induction false} LostWitness(layer: Layer, q: Path) returns (i: nat, j: nat)
    requires Lost(layer, q)
    ensures i < j < |layer| && Adds(layer[i], q) && Removes(layer[j], q)
    ensures forall k :: j <= k < |layer| ==> !Adds(layer[k], q)
    decreases |layer|
  {
    hide Adds, Removes, Contents;
    var n, before := |layer| - 1, layer[..|layer| - 1];
    assert forall k :: 0 <= k < n ==> before[k] == layer[k];
    if Removes(layer[n], q) {
      ContentsAre(before, q);
      i :| 0 <= i < n && Adds(before[i], q);
      j := n;
    } else {
      i, j := LostWitness(before, q);
    }
  }

  lemma AddedIsInContents(layer: Layer, q: Path, i: nat)
    requires i < |layer| && Adds(layer[i], q)
    ensures q in Contents(layer)
  {
    hide Adds, Contents, LastAdder, NodeAt;
    ContentsAre(layer, q);
  }

  lemma LostStep(layer: Layer, q: Path)
    requires layer != [] && !Adds(layer[|layer| - 1], q)
    ensures Lost(layer, q) <==>
      if Removes(layer[|layer| - 1], q) then q in Contents(layer[..|layer| - 1]) else Lost(layer[..|layer| - 1], q)
  {
    hide Adds, Removes, Contents;
  }

  lemma {:induction false} LostByWitness(layer: Layer, q: Path, i: nat, j: nat)
    requires i < j < |layer| && Adds(layer[i], q) && Removes(layer[j], q)
    requires forall k :: j <= k < |layer| ==> !Adds(layer[k], q)
    ensures Lost(layer, q)
    decreases |layer|
  {
    hide Adds, Removes, Contents, Lost;
    var n, before := |layer| - 1, layer[..|layer| - 1];
    assert forall k :: 0 <= k < n ==> before[k] == layer[k];
    if Removes(layer[n], q) {
      AddedIsInContents(before, q, i);
    } else {
      LostByWitness(before, q, i, j);
    }
    LostStep(layer, q);
  }

  lemma LostIsLoss(layer: Layer, q: Path)
    requires Lost(layer, q)
    ensures !Lossless(layer)
  {
    var i, j := LostWitness(layer, q);
    var p := Added(layer[i]).value.path;
    assert p[..|q|] == q;
    assert Removes(layer[j], p[..|q|]) && forall k :: j <= k < |layer| ==> !Adds(layer[k], p[..|q|]);
    assert !ReaddsCovered(layer, i, j);
  }

  ghost predicate LosesNothing(layer: Layer) {
    forall q :: !Lost(layer, q)
  }

  lemma LosslessIff(layer: Layer)
    ensures Lossless(layer) <==> LosesNothing(layer)
  {
    if Lossless(layer) {
      forall q ensures !Lost(layer, q) {
        if Lost(layer, q) {
          LostIsLoss(layer, q);
        }
      }
    } else {
      var i, j :| 0 <= i < j < |layer| && !ReaddsCovered(layer, i, j);
      var p := Added(layer[i]).value.path;
      var n :| 0 <= n <= |p| && Removes(layer[j], p[..n]) && !(exists k :: j <= k < |layer| && Adds(layer[k], p[..n]));
      LostByWitness(layer, p[..n], i, j);
    }
  }

  /** A layer that extracts without error gives its overlay exactly if its whiteouts lose none of its own entries. */
  lemma TarIsOverlayIff(t: Tree, layer: Layer)
    requires Extracted(t, layer).error.None?
    ensures Extracted(t, layer).tree == Overlay(t, layer) <==> Lossless(layer)
  {
    var r, o := Extracted(t, layer).tree, Overlay(t, layer);
    LosslessIff(layer);
    if LosesNothing(layer) {
      forall q ensures At(r, q) == At(o, q) {
        ExtractedAt(t, layer, q);
        LastSayIsOverlayIff(t, layer, q);
      }
      assert forall q :: (q in r <==> q in o) && (q in r ==> r[q] == o[q]) by {
        forall q ensures (q in r <==> q in o) && (q in r ==> r[q] == o[q]) {
          assert At(r, q) == At(o, q);
        }
      }
    } else {
      var q :| Lost(layer, q);
      ExtractedAt(t, layer, q);
      LastSayIsOverlayIff(t, layer, q);
    }
  }

  /** An image whose layers each put whiteouts first extracts, if without error, to the overlay of its layers. */
  lemma {:induction false} ImageIsOverlay(t: Tree, image: Image)
    requires ImageExtracted(t, image).error.None?
    requires forall k :: 0 <= k < |image| ==> Lossless(image[k])
    ensures ImageExtracted(t, image).tree == ImageOverlay(t, image)
    decreases |image|
  {
    if image != [] {
      ImageIsOverlay(t, image[..|image| - 1]);
      TarIsOverlayIff(ImageOverlay(t, image[..|image| - 1]), image[|image| - 1]);
    }
  }

  /** A whiteout after the file it names: the extraction drops the layer's own file, which the overlay keeps. */
  lemma LateWhiteoutLosesOwnEntry(content: string)
    ensures var t: Tree, layer := map[[] := Dir], [Entry(["a"], FileEntry(content)), Entry([".wh.a"], SkippedEntry)];
            && Extracted(t, layer).error.None? && ["a"] !in Extracted(t, layer).tree
            && ["a"] in Overlay(t, layer) && Overlay(t, layer)[["a"]] == File(content)
            && !Lossless(layer)
  {
    var t: Tree, file, whiteout := map[[] := Dir], Entry(["a"], FileEntry(content)), Entry([".wh.a"], SkippedEntry);
    var layer, u := [file, whiteout], With(t, ["a"], File(content));
    assert Added(file) == Some(Addition(["a"], File(content))) && Removal(file) == None by {
      assert "a"[0] != WHITEOUT[0];
    }
    assert Removal(whiteout) == Some(["a"]) && Added(whiteout) == None by {
      var base := whiteout.path[|whiteout.path| - 1];
      assert base == ".wh.a" && |base| != |OPAQUE|;
      assert base[..4] == WHITEOUT && base[4..] == "a";
      assert WhiteoutTarget([], "a") == [] + ["a"] == ["a"];
      assert whiteout.path[..|whiteout.path| - 1] == [];
    }
    assert layer[..1] == [file] && [file][..0] == [];
    assert ["a"][..0] == [];
    assert !UnderFile(t, ["a"]) && Step(t, file) == u && StepError(t, file) == None;
    assert !UnderFile(u, ["a"]) by {
      WithAt(t, ["a"], File(content), []);
    }
    assert StepError(u, whiteout) == None && Step(u, whiteout) == Without(u, ["a"]);
    assert Extracted(t, [file]) == Outcome(u, None);
    assert Extracted(t, layer) == Outcome(Without(u, ["a"]), None);
    ExtractedAt(t, layer, ["a"]);
    LastSayIsOverlayIff(t, layer, ["a"]);
    ContentsAre([file], ["a"]);
    assert [file][0] == file;
    assert Lost(layer, ["a"]);
    AdditionAt(map[], file, ["a"]);
    AdditionAt(Contents([file]), whiteout, ["a"]);
    LostIsLoss(layer, ["a"]);
  }

  // ---------- What each kind of entry leaves ----------

  /**
   An opaque whiteout leaves its directory with nothing in it, and everything outside it as it was, but for the
   directories that lead to it.
   */
  lemma OpaqueWhiteoutLeaves(t: Tree, dir: Path, kind: Kind, q: Path)
    requires StepError(t, Entry(dir + [".wh..wh..opq"], kind)).None?
    ensures var u := Step(t, Entry(dir + [".wh..wh..opq"], kind));
            && (q == dir ==> q in u && u[q] == Dir)
            && (dir < q ==> q !in u)
            && (q < dir ==> q in u && u[q] == Dir)
            && (!(dir <= q) && !(q <= dir) ==> (q in u <==> q in t) && (q in t ==> u[q] == t[q]))
  {
    var e := Entry(dir + [".wh..wh..opq"], kind);
    assert e.path[..|e.path| - 1] == dir;
    AdditionAt(AfterRemoval(t, e), e, q);
    AncestorsAre(dir, q);
  }

  /** A whiteout for a name removes it and all below it, and nothing else. */
  lemma WhiteoutRemoves(t: Tree, dir: Path, name: string, kind: Kind, q: Path)
    requires name != "" && name != "." && name != ".." && name != ".wh..opq"
    requires StepError(t, Entry(dir + [".wh." + name], kind)).None?
    ensures var u := Step(t, Entry(dir + [".wh." + name], kind));
            q in u <==> q in t && !(dir + [name] <= q)
    ensures var u := Step(t, Entry(dir + [".wh." + name], kind));
            q in u ==> u[q] == t[q]
  {
    var e := Entry(dir + [".wh." + name], kind);
    WhiteoutName(name);
    assert e.path[..|e.path| - 1] == dir && e.path[|e.path| - 1] == ".wh." + name;
  }

  /**
   A whiteout whose name is empty or a dot removes its own directory, one whose name is two dots the directory above;
   and either takes with it all that is below. At the destination itself both remove everything.
   */
  lemma DotWhiteoutRemoves(t: Tree, dir: Path, name: string, kind: Kind, q: Path)
    requires name == "" || name == "." || name == ".."
    requires StepError(t, Entry(dir + [".wh." + name], kind)).None?
    ensures var u := Step(t, Entry(dir + [".wh." + name], kind));
            var gone := if name == ".." && dir != [] then dir[..|dir| - 1] else dir;
            && (q in u <==> q in t && !(gone <= q))
            && (q in u ==> u[q] == t[q])
  {
    var e := Entry(dir + [".wh." + name], kind);
    WhiteoutName(name);
    assert e.path[..|e.path| - 1] == dir && e.path[|e.path| - 1] == ".wh." + name;
  }

  lemma WhiteoutName(name: string)
    ensures ".wh." <= ".wh." + name && (".wh." + name)[4..] == name
    ensures ".wh." + name == ".wh..wh..opq" <==> name == ".wh..opq"
  {
    assert ".wh..wh..opq" == ".wh." + ".wh..opq";
    assert ".wh..wh..opq"[4..] == ".wh..opq";
  }

  /**
   Any other entry leaves a directory or a file with its content at its path, directories on the way to it, and
   everything else as it was; entries of other types are passed over, and so is the destination itself.
   */
  lemma PlainEntryLeaves(t: Tree, e: Entry, q: Path)
    requires e.path == [] || !(".wh." <= e.path[|e.path| - 1])
    requires StepError(t, e).None?
    ensures e.path == [] || e.kind.SkippedEntry? ==> Step(t, e) == t
    ensures e.path != [] && !e.kind.SkippedEntry? ==>
      && e.path in Step(t, e)
      && Step(t, e)[e.path] == (if e.kind.DirEntry? then Dir else File(e.kind.content))
      && (q < e.path ==> q in Step(t, e) && Step(t, e)[q] == Dir)
      && (!(q <= e.path) ==> (q in Step(t, e) <==> q in t) && (q in t ==> Step(t, e)[q] == t[q]))
  {
    NotOpaque(e);
    AdditionAt(t, e, q);
    AdditionAt(t, e, e.path);
    AncestorsAre(e.path, q);
  }

  lemma NotOpaque(e: Entry)
    requires e.path == [] || !(".wh." <= e.path[|e.path| - 1])
    ensures Removal(e).None? && (e.path != [] ==> e.path[|e.path| - 1] != ".wh..wh..opq")
  {
    assert ".wh..wh..opq"[..4] == ".wh.";
  }

  /** A file is in the way of a path. */
  predicate FileAbove(t: Tree, p: Path) {
    exists q :: q in t && t[q] != Dir && q < p
  }

  lemma FileAboveIff(t: Tree, p: Path)
    ensures FileAbove(t, p) <==> UnderFile(t, p)
  {
    if FileAbove(t, p) {
      var q :| q in t && t[q] != Dir && q < p;
      assert p[..|q|] == q;
    }
    if UnderFile(t, p) {
      var i :| 0 <= i < |p| && p[..i] in t && t[p[..i]].File?;
      assert p[..i] < p;
    }
  }

  /**
   A plain entry fails exactly if a file is above its path, if it is a directory where a file is, or a file where a
   directory is; what fails changes nothing.
   */
  lemma PlainEntryFailsIff(t: Tree, e: Entry)
    requires e.path != [] && !(".wh." <= e.path[|e.path| - 1])
    ensures StepError(t, e).Some? <==>
      && !e.kind.SkippedEntry?
      && (|| FileAbove(t, e.path)
          || (e.path in t && (if e.kind.DirEntry? then t[e.path] != Dir else t[e.path] == Dir)))
    ensures StepError(t, e).Some? ==> Step(t, e) == t
  {
    NotOpaque(e);
    FileAboveIff(t, e.path);
  }

  /** A whiteout fails exactly if a file is above what it removes. */
  lemma WhiteoutFailsIff(t: Tree, dir: Path, name: string, kind: Kind)
    requires name != "" && name != "." && name != ".." && name != ".wh..opq"
    ensures StepError(t, Entry(dir + [".wh." + name], kind)).Some? <==> FileAbove(t, dir + [name])
  {
    var e := Entry(dir + [".wh." + name], kind);
    WhiteoutName(name);
    assert e.path[..|e.path| - 1] == dir && e.path[|e.path| - 1] == ".wh." + name;
    FileAboveIff(t, dir + [name]);
  }
}
