/**
 * The learning hub: the lesson catalogue, its category and search filter,
 * the difficulty badge colour, and the per-lesson action label and
 * progress bar.
 */
module Learning {
  import opened Wrappers
  import opened Text
  import opened Listing

  datatype Difficulty = Beginner | Intermediate | Advanced

  /** The string each difficulty is written as. */
  function DifficultyName(d: Difficulty): string {
    match d
    case Beginner => "beginner"
    case Intermediate => "intermediate"
    case Advanced => "advanced"
  }

  /** One lesson; `progress` is a percentage. */
  datatype Lesson = Lesson(
    id: string,
    title: string,
    category: string,
    difficulty: Difficulty,
    duration: string,
    description: string,
    completed: bool,
    hasPlayground: bool,
    hasQuiz: bool,
    progress: int)

  /** The catalogue the hub shows. */
  const Lessons: seq<Lesson> := [
    Lesson("1", "Introduction to Entity-Relationship Modeling", "data-modeling", Beginner, "15 min",
           "Learn the basics of ER diagrams and how to model real-world relationships", true, true, true, 100),
    Lesson("2", "Primary Keys and Foreign Keys", "dbms-basics", Beginner, "12 min",
           "Understand how to identify and implement primary and foreign key relationships", true, true, true, 100),
    Lesson("3", "Data Deduplication Strategies", "daos-platform", Intermediate, "20 min",
           "Master techniques for identifying and resolving duplicate records", false, true, true, 65),
    Lesson("4", "Schema Mapping with DAOS Agents", "daos-platform", Intermediate, "25 min",
           "Use AI agents to automatically map fields between different data sources", false, true, false, 0),
    Lesson("5", "Document Database Fundamentals", "nosql-concepts", Beginner, "18 min",
           "Learn about document stores, JSON structures, and flexible schemas", false, false, true, 0),
    Lesson("6", "Creating Golden Data Sets", "daos-platform", Advanced, "30 min",
           "Build comprehensive golden records using survivorship rules and data quality checks", false, true, true, 0)
  ]

  /** A category card of the sidebar, with its lesson counts. */
  datatype Category = Category(id: string, name: string, description: string, lessonCount: nat, completedCount: nat)

  const Categories: seq<Category> := [
    Category("all", "All Courses", "Browse all available learning content", 24, 8),
    Category("dbms-basics", "DBMS Fundamentals", "Core database concepts and principles", 8, 3),
    Category("nosql-concepts", "NoSQL Concepts", "Document, key-value, and graph databases", 6, 2),
    Category("data-modeling", "Data Modeling", "Entity relationships, normalization, and schema design", 7, 2),
    Category("daos-platform", "DAOS Platform", "How to use DAOS tools and features effectively", 9, 4)
  ]

  /**
   * `Math.round((completed / total) * 100)` in exact arithmetic: the whole
   * percentage nearest to the ratio, halves rounded up; with no lessons the
   * ratio is not a finite number and there is no percentage.
   */
  function CompletionPercent(completed: nat, total: nat): (r: Option<int>)
    ensures r.Some? <==> total > 0
    ensures r.Some? ==> 200 * completed - total < 2 * total * r.value <= 200 * completed + total
  {
    if total == 0 then None
    else
      var q := (200 * completed + total) / (2 * total);
      DivBounds(200 * completed + total, 2 * total);
      Some(q)
  }

  lemma DivBounds(a: nat, b: nat)
    requires b > 0
    ensures b * (a / b) <= a < b * (a / b) + b
  {
  }

  /** A share of the lessons is a percentage between 0 and 100, reaching 100 exactly when all are done. */
  lemma CompletionPercentRange(completed: nat, total: nat)
    requires 0 < total && completed <= total
    ensures 0 <= CompletionPercent(completed, total).value <= 100
    ensures completed == 0 ==> CompletionPercent(completed, total).value == 0
    ensures completed == total ==> CompletionPercent(completed, total).value == 100
  {
    var r := CompletionPercent(completed, total).value;
    var k := 2 * total;
    ScaleLess(k, -1, r);
    ScaleLess(k, r, 101);
    if completed == 0 {
      ScaleLess(k, r, 1);
    }
    if completed == total {
      ScaleLess(k, 99, r);
    }
  }

  /** The sidebar's five cards read 33%, 38%, 33%, 29% and 44%. */
  lemma CategoryCardPercents()
    ensures |Categories| == 5
    ensures CompletionPercent(Categories[0].completedCount, Categories[0].lessonCount) == Some(33)
    ensures CompletionPercent(Categories[1].completedCount, Categories[1].lessonCount) == Some(38)
    ensures CompletionPercent(Categories[2].completedCount, Categories[2].lessonCount) == Some(33)
    ensures CompletionPercent(Categories[3].completedCount, Categories[3].lessonCount) == Some(29)
    ensures CompletionPercent(Categories[4].completedCount, Categories[4].lessonCount) == Some(44)
  {
  }

  /** Multiplying by a positive number keeps a strict order. */
  lemma ScaleLess(k: int, a: int, b: int)
    requires k > 0
    ensures k * a < k * b <==> a < b
  {
    assert k * b - k * a == k * (b - a);
  }

  const GrayBadge := "bg-gray-100 text-gray-800"

  /** `getDifficultyColor`: a switch on the difficulty string with a gray default. */
  function DifficultyColor(difficulty: string): string {
    if difficulty == "beginner" then "bg-green-100 text-green-800"
    else if difficulty == "intermediate" then "bg-yellow-100 text-yellow-800"
    else if difficulty == "advanced" then "bg-red-100 text-red-800"
    else GrayBadge
  }

  /** The three difficulties get three different colours, none of them the gray default. */
  lemma DifficultyColorsDistinct(d: Difficulty, e: Difficulty)
    ensures DifficultyColor(DifficultyName(d)) != GrayBadge
    ensures d != e ==> DifficultyColor(DifficultyName(d)) != DifficultyColor(DifficultyName(e))
  {
  }

  /** Any string that names no difficulty gets the gray default. */
  lemma UnknownDifficultyIsGray(difficulty: string)
    requires forall d :: DifficultyName(d) != difficulty
    ensures DifficultyColor(difficulty) == GrayBadge
  {
    assert DifficultyName(Beginner) != difficulty;
    assert DifficultyName(Intermediate) != difficulty;
    assert DifficultyName(Advanced) != difficulty;
  }

  // ---------------------------------------------------------------------------
  // The filter

  /** The predicate of `filteredLessons`: category, then title or description search. */
  predicate LessonMatches(lesson: Lesson, selectedCategory: string, searchTerm: string) {
    MatchesCategory(selectedCategory, lesson.category)
    && MatchesSearch(lesson.title, lesson.description, searchTerm)
  }

  function KeepLesson(selectedCategory: string, searchTerm: string): Lesson -> bool {
    lesson => LessonMatches(lesson, selectedCategory, searchTerm)
  }

  /** `filteredLessons`. */
  function FilteredLessons(lessons: seq<Lesson>, selectedCategory: string, searchTerm: string): seq<Lesson> {
    Filter(lessons, KeepLesson(selectedCategory, searchTerm))
  }

  /**
   * The filtered list keeps the catalogue's order, a lesson is in it exactly
   * when it matches, and a matching lesson appears as often as in the catalogue.
   */
  lemma FilteredLessonsSpec(lessons: seq<Lesson>, selectedCategory: string, searchTerm: string, lesson: Lesson)
    ensures SubsequenceOf(FilteredLessons(lessons, selectedCategory, searchTerm), lessons)
    ensures lesson in FilteredLessons(lessons, selectedCategory, searchTerm) <==>
              lesson in lessons && LessonMatches(lesson, selectedCategory, searchTerm)
    ensures multiset(FilteredLessons(lessons, selectedCategory, searchTerm))[lesson] ==
              if LessonMatches(lesson, selectedCategory, searchTerm) then multiset(lessons)[lesson] else 0
  {
    FilterMember(lessons, KeepLesson(selectedCategory, searchTerm), lesson);
  }

  /** With category 'all' and an empty search the whole catalogue shows. */
  lemma AllAndEmptySearchShowEverything(lessons: seq<Lesson>)
    ensures FilteredLessons(lessons, "all", "") == lessons
  {
    forall i | 0 <= i < |lessons| ensures LessonMatches(lessons[i], "all", "") {
      EmptySearchMatches(lessons[i].title, lessons[i].description);
    }
    FilterKeepsAll(lessons, KeepLesson("all", ""));
  }

  /** Outside 'all', only lessons of exactly the selected category can show. */
  lemma OtherCategoriesHidden(lessons: seq<Lesson>, selectedCategory: string, searchTerm: string, lesson: Lesson)
    requires selectedCategory != "all"
    requires lesson in FilteredLessons(lessons, selectedCategory, searchTerm)
    ensures lesson.category == selectedCategory
  {
    FilterMember(lessons, KeepLesson(selectedCategory, searchTerm), lesson);
    CategoryExact(selectedCategory, lesson.category);
  }

  /** The search term's letter case does not matter. */
  lemma SearchIgnoresCase(lessons: seq<Lesson>, selectedCategory: string, searchTerm: string)
    ensures FilteredLessons(lessons, selectedCategory, Lower(searchTerm)) ==
            FilteredLessons(lessons, selectedCategory, searchTerm)
  {
    forall i | 0 <= i < |lessons|
      ensures KeepLesson(selectedCategory, Lower(searchTerm))(lessons[i]) == KeepLesson(selectedCategory, searchTerm)(lessons[i])
    {
      SearchIgnoresTermCase(lessons[i].title, lessons[i].description, searchTerm);
    }
    FilterAgree(lessons, KeepLesson(selectedCategory, Lower(searchTerm)), KeepLesson(selectedCategory, searchTerm));
  }

  /** Filtering the filtered list again changes nothing. */
  lemma FilteredLessonsIdempotent(lessons: seq<Lesson>, selectedCategory: string, searchTerm: string)
    ensures var once := FilteredLessons(lessons, selectedCategory, searchTerm);
      FilteredLessons(once, selectedCategory, searchTerm) == once
  {
    FilterIdempotent(lessons, KeepLesson(selectedCategory, searchTerm));
  }

  // ---------------------------------------------------------------------------
  // Per-lesson display

  /** The progress bar shows only for a lesson that is started but not finished. */
  predicate ShowsProgressBar(lesson: Lesson) {
    0 < lesson.progress < 100
  }

  /** The lesson's button: 'Review' when completed, else 'Continue' once started, else 'Start'. */
  function ActionLabel(lesson: Lesson): (r: string)
    ensures r == "Review" <==> lesson.completed
    ensures r == "Continue" <==> !lesson.completed && lesson.progress > 0
    ensures r == "Start" <==> !lesson.completed && lesson.progress <= 0
  {
    if lesson.completed then "Review" else if lesson.progress > 0 then "Continue" else "Start"
  }

  /** A lesson whose progress bar shows offers 'Continue' unless it is marked completed. */
  lemma ProgressBarMeansContinue(lesson: Lesson)
    requires ShowsProgressBar(lesson) && !lesson.completed
    ensures ActionLabel(lesson) == "Continue"
  {
  }

  /** A lesson offering 'Start' shows no progress bar. */
  lemma StartHasNoProgressBar(lesson: Lesson)
    requires ActionLabel(lesson) == "Start"
    ensures !ShowsProgressBar(lesson)
  {
  }
}
