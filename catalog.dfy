/** The catalog the roadmap data source returns (`fetchRoadmap`) and the list of
    skills offered for selection (`availableSkills`), src/data/mockRoadmap.ts. */
module Catalog {
  import opened Learning
  import opened Text
  import Progress

  // The bodies of the article lessons.
  const JsDataTypesArticle: string :=
    "JavaScript has several data types: String, Number, Boolean, Object, undefined, etc. Strings are used for text content, while Numbers handle numerical values. Booleans are either true or false. Objects are collections of key-value pairs."
  const JsScopeArticle: string :=
    "JavaScript has function scope. Variables defined inside a function are not accessible from outside the function. Functions defined in the global scope can be accessed from anywhere in your code."
  const ReactPropsArticle: string :=
    "React components are like JavaScript functions that accept inputs (props) and return React elements. Props are read-only and allow you to pass data from parent to child components."
  const PythonVariablesArticle: string :=
    "Python variables are containers for storing data values. Unlike other programming languages, Python has no command for declaring a variable. A variable is created the moment you first assign a value to it."

  datatype AvailableSkill = AvailableSkill(id: string, name: string)

  const JavaScriptSkill: Skill :=
    Skill("js-123", "JavaScript", "Master JavaScript programming language", Beginner,
      [ Stage("js-stage-1", 1, "JavaScript Basics", "Learn the fundamentals of JavaScript",
          [ Lesson("js-lesson-1", "JavaScript Variables", Video, "English",
              "https://www.youtube.com/embed/PkZNo7MFNFg", false),
            Lesson("js-lesson-2", "Variables en JavaScript", Video, "Spanish",
              "https://www.youtube.com/embed/sYqn4lhcMZE", false),
            Lesson("js-lesson-3", "Data Types in JavaScript", Article, "English",
              JsDataTypesArticle,
              false) ],
          Quiz("js-quiz-1",
            [ Question("js-q1", "Which keyword is used to declare variables in modern JavaScript?",
                ["var", "let", "const", "All of the above"], 3),
              Question("js-q2", "What is the output of: console.log(typeof([]));",
                ["array", "object", "undefined", "null"], 1),
              Question("js-q3", "How do you create a function in JavaScript?",
                ["function = myFunction()", "function:myFunction()", "function myFunction()", "myFunction = function()"], 2) ]),
          false, false, false, 0.0),
        Stage("js-stage-2", 2, "Functions & Scope", "Understanding functions and variable scope",
          [ Lesson("js-lesson-4", "JavaScript Functions", Video, "English",
              "https://www.youtube.com/embed/xUI5Tsl2JpY", false),
            Lesson("js-lesson-5", "Function Scope", Article, "English",
              JsScopeArticle,
              false) ],
          Quiz("js-quiz-2",
            [ Question("js-q4", "What is the scope of a variable declared with 'var' inside a function?",
                ["Global scope", "Function scope", "Block scope", "Module scope"], 1),
              Question("js-q5", "What is hoisting in JavaScript?",
                ["Moving all variable declarations to the top", "Moving all function declarations to the bottom",
                 "Removing unused variables", "Organizing code in alphabetical order"], 0) ]),
          true, false, false, 0.0) ],
      0.0, "73% of web developers use JavaScript daily")


  const ReactSkill: Skill :=
    Skill("react-456", "React", "Learn React framework for building user interfaces", Beginner,
      [ Stage("react-stage-1", 1, "React Fundamentals", "Learn the basics of React",
          [ Lesson("react-lesson-1", "Introduction to React", Video, "English",
              "https://www.youtube.com/embed/Tn6-PIqc4UM", false),
            Lesson("react-lesson-2", "React का परिचय", Video, "Hindi",
              "https://www.youtube.com/embed/RGKi6LSPDLU", false),
            Lesson("react-lesson-3", "Components and Props", Article, "English",
              ReactPropsArticle,
              false) ],
          Quiz("react-quiz-1",
            [ Question("react-q1", "What is JSX in React?",
                ["A JavaScript library", "A syntax extension for JavaScript", "A React component", "A testing framework"], 1),
              Question("react-q2", "How do you create a React component?",
                ["By creating a new JavaScript file", "By creating a function that returns React elements",
                 "By importing React in your file", "By using JSX"], 1) ]),
          false, false, false, 0.0) ],
      0.0, "React is used by over 11 million developers worldwide")


  const PythonSkill: Skill :=
    Skill("python-789", "Python", "Master Python programming language", Beginner,
      [ Stage("python-stage-1", 1, "Python Basics", "Learn the fundamentals of Python",
          [ Lesson("python-lesson-1", "Introduction to Python", Video, "English",
              "https://www.youtube.com/embed/_uQrJ0TkZlc", false),
            Lesson("python-lesson-2", "Python Variables", Article, "English",
              PythonVariablesArticle,
              false),
            Lesson("python-lesson-3", "Python కోసం పరిచయం", Video, "Telugu",
              "https://www.youtube.com/embed/Tto8TS-fJQU", false) ],
          Quiz("python-quiz-1",
            [ Question("python-q1", "Which of these is NOT a valid Python data type?",
                ["int", "float", "decimal", "complex"], 2),
              Question("python-q2", "How do you create a comment in Python?",
                ["// comment", "/* comment */", "# comment", "<!-- comment -->"], 2) ]),
          false, false, false, 0.0) ],
      0.0, "Python is the fastest-growing programming language in 2023")


  /** The value `fetchRoadmap()` resolves to. */
  const FetchRoadmap: seq<Skill> := [JavaScriptSkill, ReactSkill, PythonSkill]

  const AvailableSkills: seq<AvailableSkill> :=
    [ AvailableSkill("js", "JavaScript"), AvailableSkill("react", "React"),
      AvailableSkill("python", "Python"), AvailableSkill("node", "Node.js"),
      AvailableSkill("html", "HTML"), AvailableSkill("css", "CSS"),
      AvailableSkill("sql", "SQL"), AvailableSkill("git", "Git"),
      AvailableSkill("typescript", "TypeScript") ]


  // ---------------------------------------------------------------------------
  // Well-formedness of the fixture

  predicate QuestionOk(q: Question) {
    0 <= q.correctOptionIndex < |q.options|
  }

  /** Stage `j` (0-based) as the catalog delivers it. */
  predicate InitialStage(st: Stage, j: nat) {
    && st.number == j + 1
    && st.isLocked == (j != 0)
    && !st.isCompleted && !st.quizPassed
    && st.progress == 0.0
    && |st.lessons| > 0
    && (forall k :: 0 <= k < |st.lessons| ==> !st.lessons[k].completed)
    && |st.quiz.questions| > 0
    && (forall k :: 0 <= k < |st.quiz.questions| ==> QuestionOk(st.quiz.questions[k]))
  }

  predicate InitialSkill(sk: Skill) {
    && sk.progress == 0.0
    && |sk.stages| > 0
    && forall j :: 0 <= j < |sk.stages| ==> InitialStage(sk.stages[j], j)
  }

  /** Any tree in its initial state satisfies the engine's invariant. */
  lemma InitialIsWellFormed(skills: seq<Skill>)
    requires forall i :: 0 <= i < |skills| ==> InitialSkill(skills[i])
    ensures WellFormed(skills)
  {
    forall i | 0 <= i < |skills| ensures SkillOk(skills[i]) {
      var sk := skills[i];
      assert InitialSkill(sk);
      forall j | 0 <= j < |sk.stages| ensures StageOk(sk.stages[j]) {
        assert InitialStage(sk.stages[j], j);
      }
      forall j | 1 <= j < |sk.stages| ensures sk.stages[j].isLocked {
        assert InitialStage(sk.stages[j], j);
      }
      var ps := StageProgresses(sk.stages);
      forall j | 0 <= j < |ps| ensures ps[j] == 0.0 {
        assert InitialStage(sk.stages[j], j);
      }
      Progress.MeanConstant(ps, 0.0);
    }
  }

  lemma JavaScriptInitial()
    ensures InitialSkill(JavaScriptSkill)
  {
    assert InitialStage(JavaScriptSkill.stages[0], 0);
    assert InitialStage(JavaScriptSkill.stages[1], 1);
  }

  lemma ReactInitial()
    ensures InitialSkill(ReactSkill)
  {
    assert InitialStage(ReactSkill.stages[0], 0);
  }

  lemma PythonInitial()
    ensures InitialSkill(PythonSkill)
  {
    assert InitialStage(PythonSkill.stages[0], 0);
  }

  /** Every skill of the catalog starts locked beyond its first stage, with nothing
      completed or passed and every progress at 0. */
  lemma RoadmapInitial()
    ensures forall i :: 0 <= i < |FetchRoadmap| ==> InitialSkill(FetchRoadmap[i])
  {
    JavaScriptInitial();
    ReactInitial();
    PythonInitial();
  }

  /** The catalog satisfies the engine's invariant, so the 0/0 of the roll-up
      never arises from it. */
  lemma RoadmapWellFormed()
    ensures WellFormed(FetchRoadmap)
  {
    RoadmapInitial();
    InitialIsWellFormed(FetchRoadmap);
  }

  /** Three skills, JavaScript, React and Python, with distinct ids. */
  lemma RoadmapSkills()
    ensures |FetchRoadmap| == 3
    ensures FetchRoadmap[0].name == "JavaScript" && FetchRoadmap[1].name == "React"
         && FetchRoadmap[2].name == "Python"
    ensures forall i, j :: 0 <= i < j < 3 ==> FetchRoadmap[i].id != FetchRoadmap[j].id
  {
  }

  /** What a roadmap request for any list of names yields from this catalog: the
      JavaScript, React and Python skills in that order, each present exactly when
      its lower-cased name was requested, and with the requested level. */
  lemma FilterRoadmap(names: seq<string>, level: Level)
    ensures FilterCatalog(FetchRoadmap, names, level)
         == (if Lower("JavaScript") in names then [JavaScriptSkill.(level := level)] else [])
          + (if Lower("React") in names then [ReactSkill.(level := level)] else [])
          + (if Lower("Python") in names then [PythonSkill.(level := level)] else [])
  {
    assert FetchRoadmap == [JavaScriptSkill] + [ReactSkill] + [PythonSkill];
    FilterCatalogAppend([JavaScriptSkill] + [ReactSkill], [PythonSkill], names, level);
    FilterCatalogAppend([JavaScriptSkill], [ReactSkill], names, level);
    FilterCatalogSingle(JavaScriptSkill, names, level);
    FilterCatalogSingle(ReactSkill, names, level);
    FilterCatalogSingle(PythonSkill, names, level);
  }

  /** Lower-casing keeps the names of the offered skills apart: the six that have
      no catalog entry never collide with JavaScript, React or Python. */
  lemma OfferedNamesApart()
    ensures forall i :: 3 <= i < |AvailableSkills| ==>
      Lower(AvailableSkills[i].name) !in [Lower("JavaScript"), Lower("React"), Lower("Python")]
  {
    forall i | 3 <= i < |AvailableSkills|
      ensures Lower(AvailableSkills[i].name) !in [Lower("JavaScript"), Lower("React"), Lower("Python")]
    {
      var n := AvailableSkills[i].name;
      if n == "TypeScript" {
        assert Lower(n)[0] != Lower("JavaScript")[0];
      }
    }
  }

  /** Of the offered skills exactly the first three, JavaScript, React and Python,
      have a catalog entry: requesting any other one alone yields an empty roadmap,
      and requesting one of the three yields that catalog skill alone. */
  lemma OfferedInCatalog(level: Level)
    ensures forall i :: 0 <= i < |AvailableSkills| ==>
      FilterCatalog(FetchRoadmap, [Lower(AvailableSkills[i].name)], level)
        == if i < |FetchRoadmap| then [FetchRoadmap[i].(level := level)] else []
  {
    OfferedNamesApart();
    forall i | 0 <= i < |AvailableSkills|
      ensures FilterCatalog(FetchRoadmap, [Lower(AvailableSkills[i].name)], level)
        == if i < |FetchRoadmap| then [FetchRoadmap[i].(level := level)] else []
    {
      FilterRoadmap([Lower(AvailableSkills[i].name)], level);
    }
  }
}
