/** The path-selection page: the searchable skill list, the selection toggle
    with its cap of three, and the checks before a roadmap is requested
    (src/pages/SelectPath.tsx). */
module SelectPath {
  import opened Text
  import opened Learning
  import opened Catalog

  /** `skills.filter(skill => skill.name.toLowerCase().includes(filter.toLowerCase()))` */
  function FilterSkills(skills: seq<AvailableSkill>, filter: string): (r: seq<AvailableSkill>)
    ensures |r| <= |skills|
    ensures forall s :: s in r <==> s in skills && Contains(Lower(s.name), Lower(filter))
  {
    if |skills| == 0 then []
    else
      (if Contains(Lower(skills[0].name), Lower(filter)) then [skills[0]] else [])
      + FilterSkills(skills[1..], filter)
  }

  /** The skills the page lists for the current search text. */
  function FilteredSkills(filter: string): seq<AvailableSkill> {
    FilterSkills(AvailableSkills, filter)
  }

  /** An empty search lists every skill, in order. */
  lemma {:induction false} EmptyFilterShowsAll(skills: seq<AvailableSkill>)
    ensures FilterSkills(skills, "") == skills
  {
    if |skills| > 0 {
      assert Lower("") == "";
      ContainsEmpty(Lower(skills[0].name));
      EmptyFilterShowsAll(skills[1..]);
    }
  }

  /** The search ignores ASCII case. */
  lemma FilterIgnoresCase(skills: seq<AvailableSkill>, filter: string)
    ensures FilterSkills(skills, Lower(filter)) == FilterSkills(skills, filter)
  {
    LowerIdempotent(filter);
  }

  // ---------------------------------------------------------------------------
  // The selection

  predicate NoDuplicates(names: seq<string>) {
    forall i, j :: 0 <= i < j < |names| ==> names[i] != names[j]
  }

  /** What the page lets the selection become: at most three distinct names. */
  predicate SelectionOk(names: seq<string>) {
    |names| <= 3 && NoDuplicates(names)
  }

  /** `selectedSkills.filter(skill => skill !== name)` */
  function Remove(names: seq<string>, name: string): (r: seq<string>)
    ensures |r| <= |names|
    ensures forall x :: x in r <==> x in names && x != name
    ensures name !in names ==> r == names
  {
    if |names| == 0 then []
    else if names[0] == name then Remove(names[1..], name)
    else [names[0]] + Remove(names[1..], name)
  }

  /** Removing from a selection without duplicates leaves none, and takes out
      exactly one entry when the name was selected. */
  lemma {:induction false} RemoveKeepsDistinct(names: seq<string>, name: string)
    requires NoDuplicates(names)
    ensures NoDuplicates(Remove(names, name))
    ensures name in names ==> |Remove(names, name)| == |names| - 1
  {
    if |names| > 0 {
      assert NoDuplicates(names[1..]);
      RemoveKeepsDistinct(names[1..], name);
      if names[0] == name {
        assert name !in names[1..];
      } else {
        assert names[0] !in names[1..];
        var r := [names[0]] + Remove(names[1..], name);
        assert forall j :: 1 <= j < |r| ==> r[j] in Remove(names[1..], name);
      }
    }
  }

  /** The maximum number of selected skills. */
  const MaxSkills: nat := 3

  /** `handleSkillSelect(name)` */
  function Toggle(names: seq<string>, name: string): seq<string> {
    if name in names then Remove(names, name)
    else if |names| < MaxSkills then names + [name]
    else names
  }

  /** Toggling keeps the selection to at most three distinct names. */
  lemma ToggleKeepsSelectionOk(names: seq<string>, name: string)
    requires SelectionOk(names)
    ensures SelectionOk(Toggle(names, name))
  {
    if name in names {
      RemoveKeepsDistinct(names, name);
    }
  }

  /** Toggling a selected name removes it and keeps the others in order. */
  lemma ToggleSelected(names: seq<string>, name: string)
    requires name in names
    ensures Toggle(names, name) == Remove(names, name)
    ensures name !in Toggle(names, name)
    ensures forall x :: x != name ==> (x in Toggle(names, name) <==> x in names)
  {
  }

  /** Toggling an unselected name appends it while fewer than three are
      selected, and otherwise changes nothing. */
  lemma ToggleUnselected(names: seq<string>, name: string)
    requires name !in names
    ensures |names| < MaxSkills ==> Toggle(names, name) == names + [name]
    ensures |names| >= MaxSkills ==> Toggle(names, name) == names
  {
  }

  /** Selecting a name and then deselecting it restores the selection. */
  lemma ToggleTwice(names: seq<string>, name: string)
    requires name !in names
    ensures Toggle(Toggle(names, name), name) == names
  {
    if |names| < MaxSkills {
      RemoveAppended(names, name);
    }
  }

  lemma {:induction false} RemoveAppended(names: seq<string>, name: string)
    requires name !in names
    ensures Remove(names + [name], name) == names
  {
    if |names| == 0 {
      assert [name][1..] == [];
    } else {
      assert (names + [name])[1..] == names[1..] + [name];
      RemoveAppended(names[1..], name);
    }
  }

  // ---------------------------------------------------------------------------
  // Continue

  /** The outcome of `handleContinue`: one of the two rejections (each shown as
      a toast), or the generation request the page sends. */
  datatype ContinueResult =
    | GoalRequired
    | SkillRequired
    | Generate(goal: string, skills: seq<string>, level: Level, language: string)

  /** `selectedSkills.map(s => s.toLowerCase())` */
  function LowerAll(names: seq<string>): (r: seq<string>)
    ensures |r| == |names|
    ensures forall i :: 0 <= i < |names| ==> r[i] == Lower(names[i])
  {
    seq(|names|, i requires 0 <= i < |names| => Lower(names[i]))
  }

  function Continue(goal: string, names: seq<string>, level: Level, language: string): (r: ContinueResult)
    ensures r == GoalRequired <==> IsBlank(goal)
    ensures r == SkillRequired <==> !IsBlank(goal) && |names| == 0
    ensures r.Generate? ==> r == Generate(goal, LowerAll(names), level, language)
  {
    if IsBlank(goal) then GoalRequired
    else if |names| == 0 then SkillRequired
    else Generate(goal, LowerAll(names), level, language)
  }

  /** `selectedSkills.length === 0 || !careerGoal.trim()` */
  predicate ContinueDisabled(goal: string, names: seq<string>) {
    |names| == 0 || IsBlank(goal)
  }

  /** The button is disabled exactly when pressing it would be rejected. */
  lemma DisabledIffRejected(goal: string, names: seq<string>, level: Level, language: string)
    ensures ContinueDisabled(goal, names) <==> !Continue(goal, names, level, language).Generate?
  {
  }

  /** The page's form state. */
  class SelectPathForm {
    var careerGoal: string
    var selectedSkills: seq<string>
    var currentLevel: Level
    var preferredLanguage: string
    var skillFilter: string

    ghost predicate Valid()
      reads this
    {
      SelectionOk(selectedSkills)
    }

    constructor ()
      ensures Valid()
      ensures careerGoal == "" && selectedSkills == [] && currentLevel == Beginner
      ensures preferredLanguage == "English" && skillFilter == ""
    {
      careerGoal := "";
      selectedSkills := [];
      currentLevel := Beginner;
      preferredLanguage := "English";
      skillFilter := "";
    }

    /** A click on a listed skill or on the remove button of a selected one. */
    method SelectSkill(name: string)
      requires Valid()
      modifies this
      ensures Valid()
      ensures selectedSkills == Toggle(old(selectedSkills), name)
      ensures careerGoal == old(careerGoal) && currentLevel == old(currentLevel)
      ensures preferredLanguage == old(preferredLanguage) && skillFilter == old(skillFilter)
    {
      ToggleKeepsSelectionOk(selectedSkills, name);
      selectedSkills := Toggle(selectedSkills, name);
    }

    method SetCareerGoal(goal: string)
      modifies this
      ensures careerGoal == goal && selectedSkills == old(selectedSkills)
      ensures currentLevel == old(currentLevel) && preferredLanguage == old(preferredLanguage)
      ensures skillFilter == old(skillFilter)
    {
      careerGoal := goal;
    }

    method SetSkillFilter(filter: string)
      modifies this
      ensures skillFilter == filter && careerGoal == old(careerGoal)
      ensures selectedSkills == old(selectedSkills)
      ensures currentLevel == old(currentLevel) && preferredLanguage == old(preferredLanguage)
    {
      skillFilter := filter;
    }

    method SetLevel(level: Level)
      modifies this
      ensures currentLevel == level && careerGoal == old(careerGoal)
      ensures selectedSkills == old(selectedSkills)
      ensures preferredLanguage == old(preferredLanguage) && skillFilter == old(skillFilter)
    {
      currentLevel := level;
    }

    method SetPreferredLanguage(language: string)
      modifies this
      ensures preferredLanguage == language && careerGoal == old(careerGoal)
      ensures selectedSkills == old(selectedSkills)
      ensures currentLevel == old(currentLevel) && skillFilter == old(skillFilter)
    {
      preferredLanguage := language;
    }
  }
}
