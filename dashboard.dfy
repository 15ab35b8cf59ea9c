/** The overall progress shown on the dashboard: the mean of the skills'
    progress, or 0 without skills (src/pages/Dashboard.tsx). */
module Dashboard {
  import opened Learning
  import Progress

  /** `skills.map(skill => skill.progress)`, in the order `reduce` visits them. */
  function SkillProgresses(skills: seq<Skill>): (ps: seq<real>)
    ensures |ps| == |skills|
    ensures forall i :: 0 <= i < |skills| ==> ps[i] == skills[i].progress
  {
    seq(|skills|, i requires 0 <= i < |skills| => skills[i].progress)
  }

  /** `skills.length ? sum / skills.length : 0` */
  function OverallProgress(skills: seq<Skill>): real {
    if |skills| == 0 then 0.0 else Progress.Mean(SkillProgresses(skills))
  }

  /** No skills give 0; otherwise the value is the sum of the skills' progress
      divided by their number. */
  lemma OverallProgressMeaning(skills: seq<Skill>)
    ensures |skills| == 0 ==> OverallProgress(skills) == 0.0
    ensures |skills| > 0 ==>
      OverallProgress(skills) * |skills| as real == Progress.Sum(SkillProgresses(skills))
  {
    if |skills| > 0 {
      var n := |skills| as real;
      var s := Progress.Sum(SkillProgresses(skills));
      assert OverallProgress(skills) == s / n;
    }
  }

  /** With every skill's progress a percentage, so is the overall value; in
      particular for any tree the engine produces. */
  lemma OverallProgressBounded(skills: seq<Skill>)
    requires forall i :: 0 <= i < |skills| ==> 0.0 <= skills[i].progress <= 100.0
    ensures 0.0 <= OverallProgress(skills) <= 100.0
  {
    if |skills| > 0 {
      Progress.MeanBounds(SkillProgresses(skills));
    }
  }

  lemma WellFormedOverallBounded(skills: seq<Skill>)
    requires WellFormed(skills)
    ensures 0.0 <= OverallProgress(skills) <= 100.0
  {
    forall i | 0 <= i < |skills| ensures 0.0 <= skills[i].progress <= 100.0 {
      SkillProgressBounded(skills[i]);
    }
    OverallProgressBounded(skills);
  }

  lemma ProgressesAppend(x: seq<Skill>, y: seq<Skill>)
    ensures SkillProgresses(x + y) == SkillProgresses(x) + SkillProgresses(y)
  {
  }

  lemma RemoveAt<T>(b: seq<T>, j: nat)
    requires j < |b|
    ensures b == b[..j] + [b[j]] + b[j + 1..]
    ensures multiset(b[..j] + b[j + 1..]) == multiset(b) - multiset{b[j]}
  {
    assert b == b[..j] + [b[j]] + b[j + 1..];
  }

  /** Putting the same skill back on both sides keeps the progress values a
      permutation of each other. */
  lemma ProgressesStep(init: seq<Skill>, front: seq<Skill>, back: seq<Skill>, x: Skill)
    requires multiset(SkillProgresses(init)) == multiset(SkillProgresses(front + back))
    ensures multiset(SkillProgresses(init + [x])) == multiset(SkillProgresses(front + [x] + back))
  {
    ProgressesAppend(init, [x]);
    ProgressesAppend(front + [x], back);
    ProgressesAppend(front, [x]);
    ProgressesAppend(front, back);
    var px := SkillProgresses([x]);
    var pf, pb := SkillProgresses(front), SkillProgresses(back);
    assert multiset(SkillProgresses(front + [x] + back)) == multiset(pf) + multiset(px) + multiset(pb);
    assert multiset(SkillProgresses(front + back)) == multiset(pf) + multiset(pb);
  }

  /** Reordering the skills permutes their progress values. */
  lemma {:induction false} ProgressesPermutation(a: seq<Skill>, b: seq<Skill>)
    requires multiset(a) == multiset(b)
    ensures multiset(SkillProgresses(a)) == multiset(SkillProgresses(b))
    decreases |a|
  {
    if |a| == 0 {
      assert |multiset(b)| == 0;
      assert b == [];
    } else {
      var x := a[|a| - 1];
      assert x in multiset(b);
      var j :| 0 <= j < |b| && b[j] == x;
      var init, front, back := a[..|a| - 1], b[..j], b[j + 1..];
      assert a == init + [x];
      assert multiset(init) == multiset(a) - multiset{x};
      RemoveAt(b, j);
      ProgressesPermutation(init, front + back);
      ProgressesStep(init, front, back, x);
    }
  }

  /** The overall value does not depend on the order of the skills. */
  lemma OverallProgressOrderFree(a: seq<Skill>, b: seq<Skill>)
    requires multiset(a) == multiset(b)
    ensures OverallProgress(a) == OverallProgress(b)
  {
    assert |a| == |multiset(a)| == |multiset(b)| == |b|;
    ProgressesPermutation(a, b);
    Progress.SumPermutation(SkillProgresses(a), SkillProgresses(b));
  }
}
