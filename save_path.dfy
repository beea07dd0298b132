/** Where the level editor writes a level: Path.Combine(Application.dataPath,
    levelName + ".json"), on a platform whose directory separator is '/'. */
module SavePaths {

  const DirectorySeparator: char := '/'
  const LevelFileExtension: string := ".json"

  /** Path.IsPathRooted: the path starts at the file-system root. */
  predicate IsPathRooted(path: string) {
    |path| > 0 && path[0] == DirectorySeparator
  }

  predicate EndsWithSeparator(path: string) {
    |path| > 0 && path[|path| - 1] == DirectorySeparator
  }

  /** Path.Combine(path1, path2): an empty part yields the other, a rooted
      second part discards the first, otherwise the two are joined with one
      separator unless the first already ends with one. */
  function Combine(path1: string, path2: string): (r: string)
    ensures |path2| <= |r| && r[|r| - |path2|..] == path2
    ensures path2 == [] ==> r == path1
    ensures path1 == [] ==> r == path2
    ensures IsPathRooted(path2) ==> r == path2
    ensures !IsPathRooted(path2) ==> path1 <= r
    ensures path1 != [] && path2 != [] && !IsPathRooted(path2) ==>
      r[..|r| - |path2|] == if EndsWithSeparator(path1) then path1 else path1 + [DirectorySeparator]
  {
    if path2 == [] then path1
    else if path1 == [] then path2
    else if IsPathRooted(path2) then path2
    else if EndsWithSeparator(path1) then path1 + path2
    else path1 + [DirectorySeparator] + path2
  }

  /** The file a level named `levelName` is saved to. */
  function SavePath(dataPath: string, levelName: string): (r: string)
    ensures |r| >= |levelName| + |LevelFileExtension|
    ensures r[|r| - |levelName| - |LevelFileExtension|..] == levelName + LevelFileExtension
    ensures IsPathRooted(levelName) || dataPath == [] ==> r == levelName + LevelFileExtension
    ensures !IsPathRooted(levelName) ==> dataPath <= r
    ensures dataPath != [] && !IsPathRooted(levelName) ==>
      r == (if EndsWithSeparator(dataPath) then dataPath else dataPath + [DirectorySeparator]) + levelName + LevelFileExtension
  {
    Combine(dataPath, levelName + LevelFileExtension)
  }

  /** The index of the last separator in s, or -1 when s holds none. */
  function LastSeparator(s: string): (r: int)
    ensures -1 <= r < |s|
    ensures 0 <= r ==> s[r] == DirectorySeparator
    ensures forall j :: r < j < |s| ==> s[j] != DirectorySeparator
  {
    if s == [] then -1
    else if s[|s| - 1] == DirectorySeparator then |s| - 1
    else LastSeparator(s[..|s| - 1])
  }

  /** The last separator of dir + file is the one that ends dir, when file
      holds none. */
  lemma LastSeparatorOfJoin(dir: string, file: string)
    requires EndsWithSeparator(dir)
    requires DirectorySeparator !in file
    ensures LastSeparator(dir + file) == |dir| - 1
  {
    var p := dir + file;
    assert p[|dir| - 1] == DirectorySeparator;
    assert forall j :: |dir| <= j < |p| ==> p[j] == file[j - |dir|];
  }

  /** Splitting the save path at its last separator gives back the data
      directory (with one trailing separator) and the file name
      levelName + ".json", as long as the level name holds no separator. */
  lemma SavePathSplits(dataPath: string, levelName: string)
    requires dataPath != []
    requires DirectorySeparator !in levelName
    ensures var p := SavePath(dataPath, levelName);
            var k := LastSeparator(p);
            && 0 <= k
            && p[k + 1..] == levelName + LevelFileExtension
            && p[..k + 1] == if EndsWithSeparator(dataPath) then dataPath else dataPath + [DirectorySeparator]
  {
    var file := levelName + LevelFileExtension;
    var dir := if EndsWithSeparator(dataPath) then dataPath else dataPath + [DirectorySeparator];
    assert DirectorySeparator !in file;
    assert SavePath(dataPath, levelName) == dir + file;
    LastSeparatorOfJoin(dir, file);
    assert (dir + file)[|dir|..] == file;
    assert (dir + file)[..|dir|] == dir;
  }
}
