/**
 * The course catalogue page (Courses.jsx): the search filter that produces
 * the shown list, the progress caption, the status badge and the action
 * button's text.
 */
module CoursesPage {
  import opened JsText

  /** The fields of a catalogue entry the page's logic looks at */
  datatype Course = Course(id: nat, title: string, category: string, instructor: string, progress: int)

  /** The case-insensitive test of one course against the query as typed */
  function MatchesQuery(c: Course, query: string): (matches: bool)
    ensures query == "" ==> matches
    ensures Contains(c.title, query) || Contains(c.category, query) || Contains(c.instructor, query) ==> matches
  {
    var q := ToLower(query);
    ContainsLower(c.title, query);
    ContainsLower(c.category, query);
    ContainsLower(c.instructor, query);
    Contains(ToLower(c.title), q) || Contains(ToLower(c.category), q) || Contains(ToLower(c.instructor), q)
  }

  /** `courses.filter(...)`: the matching courses, in catalogue order */
  function Matching(courses: seq<Course>, query: string): (r: seq<Course>)
    ensures |r| <= |courses|
    ensures forall c :: c in r <==> c in courses && MatchesQuery(c, query)
  {
    if courses == [] then []
    else (if MatchesQuery(courses[0], query) then [courses[0]] else []) + Matching(courses[1..], query)
  }

  /** The search effect: a query that trims to nothing shows the whole
      catalogue; any other query filters with the query as typed (untrimmed) */
  function FilterCourses(courses: seq<Course>, query: string): (r: seq<Course>)
    ensures (forall k :: 0 <= k < |query| ==> IsSpace(query[k])) ==> r == courses
    ensures (exists k :: 0 <= k < |query| && !IsSpace(query[k])) ==>
      forall c :: c in r <==> c in courses && MatchesQuery(c, query)
  {
    TrimBlankIff(query);
    if Trim(query) == "" then courses else Matching(courses, query)
  }

  /** The filter keeps the catalogue's order: filtering two lists one after
      the other is filtering their concatenation */
  lemma {:induction false} MatchingAppend(a: seq<Course>, b: seq<Course>, query: string)
    ensures Matching(a + b, query) == Matching(a, query) + Matching(b, query)
  {
    if a != [] {
      assert (a + b)[0] == a[0];
      assert (a + b)[1..] == a[1..] + b;
      MatchingAppend(a[1..], b, query);
    } else {
      assert a + b == b;
    }
  }

  /** Filtering a filtered list again changes nothing, and the result has one
      entry per matching course of the catalogue */
  lemma {:induction false} MatchingIdempotent(courses: seq<Course>, query: string)
    ensures Matching(Matching(courses, query), query) == Matching(courses, query)
    ensures |Matching(courses, query)| == CountMatching(courses, query)
  {
    if courses != [] {
      MatchingIdempotent(courses[1..], query);
      var head := if MatchesQuery(courses[0], query) then [courses[0]] else [];
      MatchingAppend(head, Matching(courses[1..], query), query);
      if MatchesQuery(courses[0], query) {
        assert Matching(head, query) == [courses[0]] by {
          assert head[1..] == [];
        }
      }
    }
  }

  function CountMatching(courses: seq<Course>, query: string): nat {
    if courses == [] then 0
    else (if MatchesQuery(courses[0], query) then 1 else 0) + CountMatching(courses[1..], query)
  }

  // ------------------------------------------------------------- progress texts

  const NotStarted := "Not Started"
  const JustStarted := "Just Started"
  const InProgress := "In Progress"
  const AlmostThere := "Almost There"
  const NearlyComplete := "Nearly Complete"

  /** `getProgressColor`: the caption for a progress percentage */
  function ProgressCaption(progress: int): (caption: string)
    ensures caption == NotStarted <==> progress == 0
    ensures caption == JustStarted <==> progress != 0 && progress < 25
    ensures caption == InProgress <==> 25 <= progress < 50
    ensures caption == AlmostThere <==> 50 <= progress < 75
    ensures caption == NearlyComplete <==> 75 <= progress
  {
    if progress == 0 then NotStarted
    else if progress < 25 then JustStarted
    else if progress < 50 then InProgress
    else if progress < 75 then AlmostThere
    else NearlyComplete
  }

  /** The position of a caption in the sequence of stages */
  function Stage(caption: string): nat {
    if caption == NotStarted then 0
    else if caption == JustStarted then 1
    else if caption == InProgress then 2
    else if caption == AlmostThere then 3
    else 4
  }

  /** Between 0 and 100, more progress never shows an earlier stage; a
      finished course still reads "Nearly Complete" */
  lemma ProgressCaptionMonotone(p: int, q: int)
    requires 0 <= p <= q
    ensures Stage(ProgressCaption(p)) <= Stage(ProgressCaption(q))
    ensures ProgressCaption(100) == NearlyComplete
  {
  }

  datatype Badge = NotStartedBadge | CompletedBadge | InProgressBadge

  /** The status badge's class */
  function StatusBadge(progress: int): (b: Badge)
    ensures b == NotStartedBadge <==> progress == 0
    ensures b == CompletedBadge <==> progress == 100
  {
    if progress == 0 then NotStartedBadge else if progress == 100 then CompletedBadge else InProgressBadge
  }

  /** The primary button's text */
  function ButtonLabel(progress: int): (text: string)
    ensures text == "Start Learning" <==> progress == 0
    ensures text == "Review" <==> progress == 100
    ensures text == "Continue Learning" <==> progress != 0 && progress != 100
  {
    if progress == 0 then "Start Learning" else if progress == 100 then "Review" else "Continue Learning"
  }

  /** The badge, the button and the caption agree on an unstarted course;
      the badge and the button agree on every other one */
  lemma BadgeButtonCaptionAgree(progress: int)
    ensures StatusBadge(progress) == NotStartedBadge <==> ProgressCaption(progress) == NotStarted
    ensures StatusBadge(progress) == NotStartedBadge <==> ButtonLabel(progress) == "Start Learning"
    ensures StatusBadge(progress) == CompletedBadge <==> ButtonLabel(progress) == "Review"
    ensures StatusBadge(progress) == InProgressBadge <==> ButtonLabel(progress) == "Continue Learning"
  {
  }

  /** The "No courses found" panel is shown exactly when the filtered list is
      empty, and its Clear Search button sets the query to "", which shows the
      whole catalogue again */
  function ShowsNoResults(filtered: seq<Course>): bool {
    |filtered| == 0
  }

  lemma {:induction false} ClearSearchRestores(courses: seq<Course>, query: string)
    ensures ShowsNoResults(FilterCourses(courses, query)) ==>
      forall c :: c in courses ==> !MatchesQuery(c, query)
    ensures FilterCourses(courses, "") == courses
    ensures ShowsNoResults(FilterCourses(courses, "")) <==> courses == []
  {
    TrimBlankIff(query);
    if ShowsNoResults(FilterCourses(courses, query)) && Trim(query) != "" {
      forall c | c in courses ensures !MatchesQuery(c, query) {
        assert c !in Matching(courses, query);
      }
    }
  }
}
