/**
 Where LocalFS keeps the bytes of a key: {root}/{first two characters}/{key}, or {root}/{key} for a
 one-character key.  The root is a cleaned path other than the file system's own root.
 */
module KeyPaths {
  import opened Wrappers
  import Slugs

  /** The regular expression ^[a-zA-Z0-9]+$. */
  predicate ValidKey(key: string) {
    key != [] && forall i :: 0 <= i < |key| ==> Slugs.IsLetterOrDigit(key[i])
  }

  function Folder(root: string, key: string): string {
    if |key| < 2 then root else root + "/" + key[..2]
  }

  /** keyPath: the error for an invalid key is None. */
  function KeyPath(root: string, key: string): Option<string> {
    if ValidKey(key) then Some(Folder(root, key) + "/" + key) else None
  }

  /** os.CreateTemp(folder, ".tmp-"): the suffix is made of digits. */
  function TempPath(folder: string, suffix: string): string {
    folder + "/" + ".tmp-" + suffix
  }

  /** filepath.Dir for a cleaned path with at least one separator: everything before the last one. */
  function Parent(path: string): string {
    if path == [] then []
    else if path[|path| - 1] == '/' then path[..|path| - 1]
    else Parent(path[..|path| - 1])
  }

  lemma {:induction false} ParentOf(folder: string, name: string)
    requires forall i :: 0 <= i < |name| ==> name[i] != '/'
    ensures Parent(folder + "/" + name) == folder
  {
    var path := folder + "/" + name;
    if name == [] {
      assert path[..|path| - 1] == folder;
    } else {
      var shorter := name[..|name| - 1];
      assert path[..|path| - 1] == folder + "/" + shorter;
      ParentOf(folder, shorter);
    }
  }

  /** The temp file is made in the folder the rename target lives in. */
  lemma FolderIsParent(root: string, key: string)
    requires ValidKey(key)
    ensures Parent(KeyPath(root, key).value) == Folder(root, key)
  {
    ParentOf(Folder(root, key), key);
  }

  /** Distinct valid keys have distinct paths. */
  lemma KeyPathIsInjective(root: string, k1: string, k2: string)
    requires ValidKey(k1) && ValidKey(k2) && KeyPath(root, k1) == KeyPath(root, k2)
    ensures k1 == k2
  {
    var p1, p2 := KeyPath(root, k1).value, KeyPath(root, k2).value;
    assert |p1| == |root| + 1 + |k1| + if |k1| < 2 then 0 else 3;
    assert |p2| == |root| + 1 + |k2| + if |k2| < 2 then 0 else 3;
    assert p1[|p1| - |k1|..] == k1 && p2[|p2| - |k2|..] == k2;
  }

  /** No key's path is the root or a folder in which another key is stored. */
  lemma NoPathIsAFolder(root: string, k1: string, k2: string)
    requires ValidKey(k1) && ValidKey(k2)
    ensures KeyPath(root, k1).value != Folder(root, k2) && KeyPath(root, k1).value != root
  {
    assert |KeyPath(root, k1).value| != |root| + 3;
  }

  /** No temp file name is ever the path of a key. */
  lemma NoTempIsAKey(root: string, k1: string, k2: string, suffix: string)
    requires ValidKey(k1) && ValidKey(k2)
    ensures TempPath(Folder(root, k1), suffix) != KeyPath(root, k2).value
  {
    var t, p := TempPath(Folder(root, k1), suffix), KeyPath(root, k2).value;
    var dot := |Folder(root, k1)| + 1;
    assert t[dot] == '.';
    assert |p| > dot ==> p[dot] == k2[0];
  }

  /** Every generated slug is an acceptable key. */
  lemma SlugsAreKeys(s: string, n: nat)
    requires n > 0 && Slugs.IsSlug(s, n)
    ensures ValidKey(s)
    ensures n >= 2 ==> forall root :: KeyPath(root, s) == Some(root + "/" + s[..2] + "/" + s)
  {
  }
}
