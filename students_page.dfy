/** The students page: it turns the students response into cards and narrows them by a search query. */
module StudentsPage {
  import opened JsText
  import opened Seqs

  /** The nested `student` of one response entry, as far as the page reads it. */
  datatype StudentDoc = StudentDoc(mongoId: Option<string>, id: Option<string>, name: string,
                                   enrollmentNo: string, profilePic: Option<string>)

  /** A card: `id`, `name`, `enrollNumber`, `image`. */
  datatype Student = Student(id: Option<string>, name: string, enrollNumber: string, image: Option<string>)

  /** `{ id: student._id || student.id, name, enrollNumber: enrollment_no, image: profile_pic }` */
  function ToStudent(d: StudentDoc): Student
  {
    Student(if Truthy(d.mongoId) then d.mongoId else d.id, d.name, d.enrollmentNo, d.profilePic)
  }

  function MapToStudents(ds: seq<StudentDoc>): seq<Student>
  {
    seq(|ds|, i requires 0 <= i < |ds| => ToStudent(ds[i]))
  }

  /** Each card takes `_id` when it is non-empty and `id` otherwise; the other fields are copied. */
  lemma MappedStudents(ds: seq<StudentDoc>)
    ensures var ss := MapToStudents(ds);
      |ss| == |ds|
      && forall i :: 0 <= i < |ds| ==>
        (Truthy(ds[i].mongoId) ==> ss[i].id == ds[i].mongoId)
        && (!Truthy(ds[i].mongoId) ==> ss[i].id == ds[i].id)
        && ss[i].name == ds[i].name && ss[i].enrollNumber == ds[i].enrollmentNo
        && ss[i].image == ds[i].profilePic
  {
  }

  /** The lowered query, untrimmed, occurs in the lowered name or enrollment number. */
  predicate MatchesQuery(s: Student, query: string)
  {
    Includes(ToLower(s.name), ToLower(query)) || Includes(ToLower(s.enrollNumber), ToLower(query))
  }

  /** The search effect's result: everything for a blank query, else the matching students. */
  function SearchFilter(students: seq<Student>, query: string): seq<Student>
  {
    if Trim(query) == "" then students
    else Filter(students, (s: Student) => MatchesQuery(s, query))
  }

  /** A query that is empty or only whitespace shows every student. */
  lemma BlankQueryShowsAll(students: seq<Student>, query: string)
    requires AllWhitespace(query)
    ensures SearchFilter(students, query) == students
  {
    TrimBlank(query);
  }

  /** Any other query keeps, in order, exactly the students whose lowered name or enrollment
      number contains the lowered query as typed (surrounding spaces included). */
  lemma QueryIsSelection(students: seq<Student>, query: string)
    requires !AllWhitespace(query)
    ensures var r := SearchFilter(students, query);
      var ks := KeptIndices(students, (s: Student) => MatchesQuery(s, query));
      |r| == |ks|
      && (forall k :: 0 <= k < |ks| ==> ks[k] < |students| && r[k] == students[ks[k]])
      && (forall k, l :: 0 <= k < l < |ks| ==> ks[k] < ks[l])
      && (forall i :: 0 <= i < |students| ==> (i in ks <==>
            Includes(ToLower(students[i].name), ToLower(query))
            || Includes(ToLower(students[i].enrollNumber), ToLower(query))))
  {
    TrimBlank(query);
    FilterSelectsKept(students, (s: Student) => MatchesQuery(s, query));
  }

  /** The query is not trimmed before matching: " ab" does not find a student named "ab". */
  lemma UntrimmedQuery(id: Option<string>, image: Option<string>)
    ensures SearchFilter([Student(id, "ab", "", image)], " ab") == []
  {
    var s := Student(id, "ab", "", image);
    assert Trim(" ab") != "" by {
      assert !IsWhitespace('a');
      TrimBlank(" ab");
    }
    assert ToLower(" ab") == " ab";
    assert ToLower("ab") == "ab";
    assert !Includes("ab", " ab") by {
      assert !Includes("b", " ab");
      assert !Includes("", " ab");
    }
    assert !Includes("", " ab");
    assert !MatchesQuery(s, " ab");
  }

  /** What `getAllStudents()` gave: a response whose `data` is an array, anything else, or an error. */
  datatype FetchOutcome = Fetched(data: Option<seq<StudentDoc>>) | FetchFailed

  class Students {
    var students: seq<Student>
    var filteredStudents: seq<Student>
    var searchQuery: string
    var loading: bool

    constructor()
      ensures students == [] && filteredStudents == [] && searchQuery == "" && loading
    {
      students := [];
      filteredStudents := [];
      searchQuery := "";
      loading := true;
    }

    /** The shown list agrees with the list and the query; the search effect restores this. */
    predicate SearchApplied()
      reads this
    {
      filteredStudents == SearchFilter(students, searchQuery)
    }

    method BeginFetch()
      modifies this
      ensures loading
      ensures students == old(students) && filteredStudents == old(filteredStudents) && searchQuery == old(searchQuery)
    {
      loading := true;
    }

    /** An array response sets both lists to its cards, any other response empties them, an
        error leaves them; loading ends in every case. */
    method CompleteFetch(outcome: FetchOutcome)
      modifies this
      ensures !loading && searchQuery == old(searchQuery)
      ensures outcome.Fetched? && outcome.data.Some? ==>
        students == MapToStudents(outcome.data.value) && filteredStudents == students
      ensures outcome.Fetched? && outcome.data.None? ==> students == [] && filteredStudents == []
      ensures outcome.FetchFailed? ==>
        students == old(students) && filteredStudents == old(filteredStudents)
    {
      match outcome {
        case Fetched(data) =>
          if data.Some? {
            var formatted := MapToStudents(data.value);
            students := formatted;
            filteredStudents := formatted;
          } else {
            students := [];
            filteredStudents := [];
          }
        case FetchFailed =>
      }
      loading := false;
    }

    method SetSearchQuery(query: string)
      modifies this
      ensures searchQuery == query
      ensures students == old(students) && filteredStudents == old(filteredStudents) && loading == old(loading)
    {
      searchQuery := query;
    }

    /** The effect on `[searchQuery, students]`. */
    method ApplySearch()
      modifies this
      ensures SearchApplied()
      ensures students == old(students) && searchQuery == old(searchQuery) && loading == old(loading)
    {
      if Trim(searchQuery) == "" {
        filteredStudents := students;
        return;
      }
      var query := searchQuery;
      filteredStudents := Filter(students, (s: Student) => MatchesQuery(s, query));
    }
  }
}
