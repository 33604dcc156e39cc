// LevelSelector: the fixed order of the four levels, named by their class
// names, and a cursor into it.

module Levels {
  import opened Wrappers

  const PackageName := "com.example.demo.level"

  /** LEVELS: the class names of the levels, in the order they are played. */
  const LevelNames: seq<string> := [
    PackageName + ".LevelOne",
    PackageName + ".LevelTwo",
    PackageName + ".LevelThree",
    PackageName + ".LevelBoss"
  ]

  /** `List.indexOf`: the first position of `name`, or -1 when it is absent. */
  function IndexOf(names: seq<string>, name: string): (r: int)
    ensures -1 <= r < |names|
    ensures r == -1 <==> name !in names
    ensures r >= 0 ==> names[r] == name && forall k :: 0 <= k < r ==> names[k] != name
  {
    if |names| == 0 then -1
    else if names[0] == name then 0
    else
      var i := IndexOf(names[1..], name);
      if i == -1 then -1 else i + 1
  }

  /** The four level names differ, so each is found at its own position. */
  lemma IndexOfLevelName(i: nat)
    requires i < |LevelNames|
    ensures IndexOf(LevelNames, LevelNames[i]) == i
  {
    assert LevelNames[0][23..] == "LevelOne";
    assert LevelNames[1][23..] == "LevelTwo";
    assert LevelNames[2][23..] == "LevelThree";
    assert LevelNames[3][23..] == "LevelBoss";
  }

  /** getFirstLevel() */
  function FirstLevel(): (name: string)
    ensures IndexOf(LevelNames, name) == 0
  {
    LevelNames[0]
  }

  class LevelSelector {
    var currentLevelIndex: int

    /** The index always points into LEVELS. */
    ghost predicate Valid()
      reads this`currentLevelIndex
    {
      0 <= currentLevelIndex < |LevelNames|
    }

    /** LevelSelector(): starts at the first level. */
    constructor ()
      ensures currentLevelIndex == 0 && Valid()
    {
      currentLevelIndex := 0;
    }

    /** getNextLevel(): steps to the next level and names it; past the last one, "" and no step. */
    method GetNextLevel() returns (name: string)
      requires Valid()
      modifies `currentLevelIndex
      ensures Valid()
      ensures old(currentLevelIndex) < |LevelNames| - 1 ==>
        currentLevelIndex == old(currentLevelIndex) + 1 && name == LevelNames[currentLevelIndex]
      ensures old(currentLevelIndex) == |LevelNames| - 1 ==>
        currentLevelIndex == old(currentLevelIndex) && name == ""
    {
      if currentLevelIndex < |LevelNames| - 1 {
        currentLevelIndex := currentLevelIndex + 1;
        name := LevelNames[currentLevelIndex];
      } else {
        name := "";
      }
    }

    /** getCurrentLevel() */
    function GetCurrentLevel(): (name: string)
      requires Valid()
      reads this`currentLevelIndex
      ensures name in LevelNames && IndexOf(LevelNames, name) == currentLevelIndex
    {
      IndexOfLevelName(currentLevelIndex);
      LevelNames[currentLevelIndex]
    }

    /**
     * setCurrentLevel(name): an unknown name is refused with
     * IllegalArgumentException and leaves the index alone; a known one
     * becomes the current level.
     */
    method SetCurrentLevel(currentLevel: string) returns (r: Result<()>)
      requires Valid()
      modifies `currentLevelIndex
      ensures Valid()
      ensures r.Failure? <==> currentLevel !in LevelNames
      ensures r.Failure? ==> r.error == "Invalid level: " + currentLevel && currentLevelIndex == old(currentLevelIndex)
      ensures r.Success? ==> GetCurrentLevel() == currentLevel
    {
      var index := IndexOf(LevelNames, currentLevel);
      if index == -1 {
        return Failure("Invalid level: " + currentLevel);
      }
      currentLevelIndex := index;
      r := Success(());
    }
  }

  /**
   * LevelSelector(currentLevel): a selector placed at `currentLevel`, or the
   * IllegalArgumentException of setCurrentLevel for an unknown name.
   */
  method NewLevelSelector(currentLevel: string) returns (r: Result<LevelSelector>)
    ensures r.Failure? <==> currentLevel !in LevelNames
    ensures r.Success? ==> fresh(r.value) && r.value.Valid() && r.value.GetCurrentLevel() == currentLevel
  {
    var selector := new LevelSelector();
    var placed := selector.SetCurrentLevel(currentLevel);
    if placed.Failure? {
      return Failure(placed.error);
    }
    r := Success(selector);
  }

  /**
   * Starting from any level, successive getNextLevel calls name the
   * remaining levels in order and then "" for ever: a selector never leaves
   * LEVELS. This is the pure counterpart of GetNextLevel.
   */
  function NextLevelIndex(index: int): (r: int)
    requires 0 <= index < |LevelNames|
    ensures 0 <= r < |LevelNames| && index <= r <= index + 1
    ensures r == index <==> index == |LevelNames| - 1
  {
    if index < |LevelNames| - 1 then index + 1 else index
  }

  /** After at most three steps from anywhere, the selector rests on the boss level. */
  lemma {:induction false} StepsReachBossLevel(index: int, n: nat)
    requires 0 <= index < |LevelNames| && n >= |LevelNames| - 1 - index
    ensures Iterate(index, n) == |LevelNames| - 1
    decreases n
  {
    if n > 0 {
      if index < |LevelNames| - 1 {
        StepsReachBossLevel(index + 1, n - 1);
      } else {
        StepsReachBossLevel(index, n - 1);
      }
    }
  }

  /** The index after `n` getNextLevel calls. */
  function Iterate(index: int, n: nat): (r: int)
    requires 0 <= index < |LevelNames|
    ensures 0 <= r < |LevelNames|
    decreases n
  {
    if n == 0 then index else Iterate(NextLevelIndex(index), n - 1)
  }
}
