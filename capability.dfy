/** Capability.cs: a named ability of a given type, and its factories. */
module Capabilities {
  import opened Collections

  const SKILL := "SKILL"
  const PERMISSION := "PERMISSION"
  const ASSET := "ASSET"

  /** The record's value equality compares name and type. */
  datatype Capability = Capability(name: string, kind: string) {
    predicate IsOfType(t: string) {
      kind == t
    }
  }

  function Skill(name: string): Capability {
    Capability(name, SKILL)
  }

  function Permission(name: string): Capability {
    Capability(name, PERMISSION)
  }

  function Asset(name: string): Capability {
    Capability(name, ASSET)
  }

  function Skills(names: seq<string>): (r: HashSet<Capability>)
    ensures Elements(r) == set x | x in names :: Skill(x)
    ensures |r| <= |names|
  {
    ToHashSet(Map(Skill, names))
  }

  function Assets(names: seq<string>): (r: HashSet<Capability>)
    ensures Elements(r) == set x | x in names :: Asset(x)
    ensures |r| <= |names|
  {
    ToHashSet(Map(Asset, names))
  }

  function Permissions(names: seq<string>): (r: HashSet<Capability>)
    ensures Elements(r) == set x | x in names :: Permission(x)
    ensures |r| <= |names|
  {
    ToHashSet(Map(Permission, names))
  }

  /** The three factories build capabilities of their own type, and never coincide on one name. */
  lemma FactoriesTyped(n: string)
    ensures Skill(n).IsOfType(SKILL) && Skill(n).name == n
    ensures Permission(n).IsOfType(PERMISSION) && Permission(n).name == n
    ensures Asset(n).IsOfType(ASSET) && Asset(n).name == n
    ensures Skill(n) != Permission(n) && Permission(n) != Asset(n) && Skill(n) != Asset(n)
    ensures !Skill(n).IsOfType(PERMISSION) && !Permission(n).IsOfType(SKILL)
  {
  }

  /** Duplicate names collapse: naming a skill a second time leaves the set as it was. */
  lemma SkillsCollapseDuplicates(names: seq<string>, n: string)
    requires n in names
    ensures Skills(names + [n]) == Skills(names)
  {
    var skills := Map(Skill, names + [n]);
    assert skills[..|names|] == Map(Skill, names);
    var i :| 0 <= i < |names| && names[i] == n;
    assert Skill(n) == Map(Skill, names)[i];
    assert Skill(n) in Elements(ToHashSet(Map(Skill, names)));
    assert skills[|skills| - 1] == Skill(n);
  }
}
