/** Source roots: which import name, if any, a file path has under which root. */
module SourceRoots {
  import opened Common

  /** A normalized path or root, one entry per component; the workspace root has none. */
  type Parts = seq<string>

  /** A module's dotted name, and whether it is a package. */
  datatype ModuleName = ModuleName(parts: Parts, isPackage: bool)

  predicate Overlap(a: Parts, b: Parts) { a <= b || b <= a }

  predicate Apart(roots: seq<Parts>) { forall i, j :: 0 <= i < j < |roots| ==> !Overlap(roots[i], roots[j]) }

  /** The pairwise check: the shorter of two roots may not be the beginning of the longer. */
  method ValidateSourceRoots(roots: seq<Parts>) returns (ok: bool)
    ensures ok <==> roots != [] && Apart(roots)
  {
    if roots == [] { return false; }
    for i := 0 to |roots|
      invariant forall a, b :: 0 <= a < i && a < b < |roots| ==> !Overlap(roots[a], roots[b])
    {
      for j := i + 1 to |roots|
        invariant forall b :: i < b < j ==> !Overlap(roots[i], roots[b])
      {
        var shortest := if |roots[i]| < |roots[j]| then |roots[i]| else |roots[j]|;
        SamePrefix(roots[i], roots[j]);
        if roots[i][..shortest] == roots[j][..shortest] { return false; }
      }
    }
    ok := true;
  }

  lemma SamePrefix(a: Parts, b: Parts)
    ensures var n := if |a| < |b| then |a| else |b|; a[..n] == b[..n] <==> Overlap(a, b)
  {
    if |a| <= |b| {
      assert a[..|a|] == a;
    } else {
      assert b[..|b|] == b;
    }
    if Overlap(a, b) {
      var n := if |a| < |b| then |a| else |b|;
      assert forall i :: 0 <= i < n ==> a[i] == b[i];
    }
  }

  function Under(path: Parts, root: Parts): Option<Parts> {
    if root < path then Some(path[|root|..]) else None
  }

  predicate PythonFile(name: string) { |name| > 3 && name[|name| - 3..] == ".py" }

  /** `importable` says which components can be written in an import: identifiers that are not keywords. */
  function ModuleFromPath(path: Parts, root: Parts, importable: string -> bool): Option<ModuleName> {
    var relative := Under(path, root);
    if relative.None? then None
    else
      var dirs, name := relative.value[..|relative.value| - 1], relative.value[|relative.value| - 1];
      if !PythonFile(name) then None
      else
        var found := if name == "__init__.py" then ModuleName(dirs, true)
                     else ModuleName(dirs + [name[..|name| - 3]], false);
        if found.parts != [] && forall p | p in found.parts :: importable(p) then Some(found) else None
  }

  /** With validated roots a file has a name under one root at most, so taking the first match loses nothing. */
  lemma OneRoot(path: Parts, roots: seq<Parts>, importable: string -> bool, i: nat, j: nat)
    requires Apart(roots) && i < |roots| && j < |roots|
    requires ModuleFromPath(path, roots[i], importable).Some? && ModuleFromPath(path, roots[j], importable).Some?
    ensures i == j
  {
    PrefixesOverlap(roots[i], roots[j], path);
  }

  lemma PrefixesOverlap(a: Parts, b: Parts, path: Parts)
    requires a <= path && b <= path
    ensures Overlap(a, b)
  {
    if |a| <= |b| {
      assert forall i :: 0 <= i < |a| ==> a[i] == b[i];
    } else {
      assert forall i :: 0 <= i < |b| ==> a[i] == b[i];
    }
  }

  /** The file a module name stands for. */
  function FileOf(m: ModuleName, root: Parts): Parts
    requires m.parts != []
  {
    if m.isPackage then root + m.parts + ["__init__.py"]
    else root + m.parts[..|m.parts| - 1] + [m.parts[|m.parts| - 1] + ".py"]
  }

  /** A name found under a root leads back to the file. */
  lemma NameLeadsBack(path: Parts, root: Parts, importable: string -> bool)
    requires ModuleFromPath(path, root, importable).Some?
    ensures var m := ModuleFromPath(path, root, importable).value; m.parts != [] && FileOf(m, root) == path
  {
    var m := ModuleFromPath(path, root, importable).value;
    var relative := path[|root|..];
    var dirs, name := relative[..|relative| - 1], relative[|relative| - 1];
    assert path == root + relative && relative == dirs + [name];
    if !m.isPackage {
      assert m.parts[..|m.parts| - 1] == dirs;
      assert name == name[..|name| - 3] + name[|name| - 3..];
    }
  }

  /** Two files of one root collide on a name exactly as a package and a module beside it. */
  lemma CollisionExactly(p: Parts, q: Parts, root: Parts, importable: string -> bool)
    requires ModuleFromPath(p, root, importable).Some? && ModuleFromPath(q, root, importable).Some?
    requires ModuleFromPath(p, root, importable).value.parts == ModuleFromPath(q, root, importable).value.parts
    ensures p != q <==>
      ModuleFromPath(p, root, importable).value.isPackage != ModuleFromPath(q, root, importable).value.isPackage
  {
    NameLeadsBack(p, root, importable);
    NameLeadsBack(q, root, importable);
  }
}
