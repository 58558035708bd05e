/** How RenderAndSave and RenderGameObjectAndSave decide the output file. */
module Naming {
  import opened Wrappers

  /** char.IsWhiteSpace: the Unicode space separators, line and paragraph separators, and the C0/C1 spacing controls. */
  predicate IsWhiteSpace(c: char) {
    || c == ' ' || ('\t' <= c <= '\r') || c == '\U{0085}' || c == '\U{00A0}' || c == '\U{1680}'
    || ('\U{2000}' <= c <= '\U{200A}') || c == '\U{2028}' || c == '\U{2029}' || c == '\U{202F}'
    || c == '\U{205F}' || c == '\U{3000}'
  }

  /** string.IsNullOrWhiteSpace on a string that is not null: empty, or nothing but white space. */
  predicate IsBlank(s: string) {
    forall i :: 0 <= i < |s| ==> IsWhiteSpace(s[i])
  }

  /** string.IsNullOrWhiteSpace on a string that may be null. */
  predicate IsNullOrWhiteSpace(s: Option<string>) {
    s.None? || IsBlank(s.value)
  }

  const IconSuffix := "_Icon"

  /**
    * The name RenderAndSave saves under: the configured file name, or the
    * prefab's name followed by "_Icon" when the configured one is blank. The
    * name used is never blank, whatever the prefab is called.
    */
  function OutputFileName(fileName: string, prefabName: string): (name: string)
    ensures !IsBlank(name)
    ensures !IsBlank(fileName) <==> name == fileName
    ensures IsBlank(fileName) ==> |name| == |prefabName| + |IconSuffix| && name[..|prefabName|] == prefabName && name[|prefabName|..] == IconSuffix
  {
    if IsBlank(fileName) then
      var name := prefabName + IconSuffix;
      assert name[|prefabName|] == '_';
      name
    else fileName
  }

  /** `$"{folderPath}/{name}.png"`: the folder, a slash, the name and the extension, each recoverable from the path. */
  function OutputPath(folderPath: string, name: string): (path: string)
    ensures |path| == |folderPath| + 1 + |name| + 4
    ensures path[..|folderPath|] == folderPath && path[|folderPath|] == '/'
    ensures path[|folderPath| + 1 .. |path| - 4] == name && path[|path| - 4..] == ".png"
  {
    folderPath + "/" + name + ".png"
  }

  /** Within one folder, different names never give the same path. */
  lemma OutputPathInjective(folderPath: string, a: string, b: string)
    requires OutputPath(folderPath, a) == OutputPath(folderPath, b)
    ensures a == b
  {
    var p := OutputPath(folderPath, a);
    assert a == p[|folderPath| + 1 .. |p| - 4];
  }

  /** The value a wrapper argument gives a settings field: the argument unless it is null or white space. */
  function OrCurrent(arg: Option<string>, current: string): (r: string)
    ensures r == current || (arg == Some(r) && !IsBlank(r))
    ensures !IsNullOrWhiteSpace(arg) <==> (arg.Some? && r == arg.value && !IsBlank(r))
  {
    if IsNullOrWhiteSpace(arg) then current else arg.value
  }
}
