/** How the level editor derives the prefab name of a placed object from the
    object's name: everything before the first space ("Crate (3)" is an
    instance of the prefab "Crate"). */
module PrefabNames {

  /** The position of the first space in s, or -1 when s holds none
      (String.IndexOf(" ") under ordinal comparison). */
  function IndexOfSpace(s: string): (r: int)
    ensures -1 <= r < |s|
    ensures r == -1 <==> ' ' !in s
    ensures 0 <= r ==> s[r] == ' ' && forall j :: 0 <= j < r ==> s[j] != ' '
  {
    if s == [] then -1
    else if s[0] == ' ' then 0
    else
      var k := IndexOfSpace(s[1..]);
      if k == -1 then -1 else k + 1
  }

  /** The prefab name recorded for an object called `name`: the prefix before
      the first space, or the whole name when it has no space. Nothing rejects
      a name that begins with a space; its prefab name is empty. */
  function PrefabName(name: string): (r: string)
    ensures r <= name
    ensures ' ' !in r
    ensures |r| < |name| ==> name[|r|] == ' '
    ensures ' ' !in name ==> r == name
    ensures r == [] <==> name == [] || name[0] == ' '
  {
    if ' ' in name then name[..IndexOfSpace(name)] else name
  }

  /** The three properties above pin the prefab name down: any prefix of the
      name that holds no space and ends where the name ends or at a space is
      the prefab name. */
  lemma PrefabNameUnique(name: string, p: string)
    requires p <= name
    requires ' ' !in p
    requires |p| < |name| ==> name[|p|] == ' '
    ensures p == PrefabName(name)
  {
  }
}
