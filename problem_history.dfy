/**
 * The problem-history hook: the fetched problems, the search and subject filter over them, the
 * list of distinct subjects, and the loading and error flags of a fetch.
 */
module ProblemHistory {
  import opened Common
  import opened Ascii
  import opened Types

  const AllSubjects := "all"
  const FetchFailed := "Failed to fetch problems"

  /** Case-insensitive `includes`: both sides lower-cased first. */
  predicate IncludesIgnoringCase(text: string, term: string)
  {
    Contains(ToLower(text), ToLower(term))
  }

  /** The search matches the title, the description or some tag. */
  predicate MatchesSearch(p: ProblemEntry, searchTerm: string)
  {
    || IncludesIgnoringCase(p.title, searchTerm)
    || IncludesIgnoringCase(p.description, searchTerm)
    || exists i :: 0 <= i < |p.tags| && IncludesIgnoringCase(p.tags[i], searchTerm)
  }

  predicate MatchesSubject(p: ProblemEntry, selectedSubject: string)
  {
    selectedSubject == AllSubjects || p.subject == selectedSubject
  }

  predicate Keep(p: ProblemEntry, searchTerm: string, selectedSubject: string)
  {
    MatchesSearch(p, searchTerm) && MatchesSubject(p, selectedSubject)
  }

  /** `problems.filter(...)`: the problems the search and the subject both keep, in order. */
  function Filter(problems: seq<ProblemEntry>, searchTerm: string, selectedSubject: string): seq<ProblemEntry>
  {
    if problems == [] then []
    else (if Keep(problems[0], searchTerm, selectedSubject) then [problems[0]] else [])
         + Filter(problems[1..], searchTerm, selectedSubject)
  }

  /** `a` is obtained from `b` by deleting elements, keeping the order of the rest. */
  ghost predicate IsSubsequence<T>(a: seq<T>, b: seq<T>)
    decreases |b|
  {
    if a == [] then true
    else if b == [] then false
    else (a[0] == b[0] && IsSubsequence(a[1..], b[1..])) || IsSubsequence(a, b[1..])
  }

  /** A problem survives the filter exactly when it is in the list and both conditions hold. */
  lemma {:induction false} FilterMembership(problems: seq<ProblemEntry>, searchTerm: string, selectedSubject: string, p: ProblemEntry)
    ensures p in Filter(problems, searchTerm, selectedSubject) <==> p in problems && Keep(p, searchTerm, selectedSubject)
  {
    if problems != [] {
      FilterMembership(problems[1..], searchTerm, selectedSubject, p);
      assert problems == [problems[0]] + problems[1..];
    }
  }

  /** The filtered list is an order-preserving sub-list of the problems. */
  lemma {:induction false} FilterIsSubsequence(problems: seq<ProblemEntry>, searchTerm: string, selectedSubject: string)
    ensures IsSubsequence(Filter(problems, searchTerm, selectedSubject), problems)
  {
    if problems != [] {
      var rest := Filter(problems[1..], searchTerm, selectedSubject);
      FilterIsSubsequence(problems[1..], searchTerm, selectedSubject);
      if Keep(problems[0], searchTerm, selectedSubject) {
        assert ([problems[0]] + rest)[1..] == rest;
      } else {
        assert [] + rest == rest;
        if rest != [] {
          assert IsSubsequence(rest, problems[1..]);
        }
      }
    }
  }

  /** An empty search over all subjects keeps every problem. */
  lemma {:induction false} EmptySearchKeepsAll(problems: seq<ProblemEntry>)
    ensures Filter(problems, "", AllSubjects) == problems
  {
    if problems != [] {
      EmptySearchKeepsAll(problems[1..]);
      ContainsEmpty(ToLower(problems[0].title));
      assert ToLower("") == "";
    }
  }

  /** The search ignores the case of the term: an upper-cased term keeps the same problems. */
  lemma {:induction false} FilterIgnoresCase(problems: seq<ProblemEntry>, searchTerm: string, selectedSubject: string)
    ensures Filter(problems, ToUpper(searchTerm), selectedSubject) == Filter(problems, searchTerm, selectedSubject)
  {
    LowerOfUpper(searchTerm);
    if problems != [] {
      FilterIgnoresCase(problems[1..], searchTerm, selectedSubject);
      assert Keep(problems[0], ToUpper(searchTerm), selectedSubject) == Keep(problems[0], searchTerm, selectedSubject);
    }
  }

  /** `Array.from(new Set(xs))`: each value once, in the order it first appears. */
  function Distinct(xs: seq<string>): seq<string>
  {
    if xs == [] then []
    else
      var d := Distinct(xs[..|xs| - 1]);
      if xs[|xs| - 1] in d then d else d + [xs[|xs| - 1]]
  }

  /** The position of the first occurrence of `x` in `xs`. */
  function FirstIndex(xs: seq<string>, x: string): (i: nat)
    requires x in xs
    ensures i < |xs| && xs[i] == x && x !in xs[..i]
  {
    if xs[0] == x then 0 else 1 + FirstIndex(xs[1..], x)
  }

  predicate NoDuplicates(xs: seq<string>)
  {
    forall i, j :: 0 <= i < j < |xs| ==> xs[i] != xs[j]
  }

  lemma FirstIndexOfPrefix(xs: seq<string>, x: string)
    requires xs != [] && x in xs[..|xs| - 1]
    ensures FirstIndex(xs, x) == FirstIndex(xs[..|xs| - 1], x)
  {
    var j := FirstIndex(xs[..|xs| - 1], x);
    assert xs[..|xs| - 1][..j] == xs[..j];
  }

  lemma FirstIndexOfLast(xs: seq<string>)
    requires xs != [] && xs[|xs| - 1] !in xs[..|xs| - 1]
    ensures FirstIndex(xs, xs[|xs| - 1]) == |xs| - 1
  {
  }

  /**
   * The distinct list holds exactly the values of `xs`, each once, ordered by where each first
   * appears in `xs`.
   */
  lemma {:induction false} DistinctSpec(xs: seq<string>)
    ensures forall x :: x in Distinct(xs) <==> x in xs
    ensures NoDuplicates(Distinct(xs))
    ensures forall i, j :: 0 <= i < j < |Distinct(xs)| ==>
              Distinct(xs)[i] in xs && Distinct(xs)[j] in xs &&
              FirstIndex(xs, Distinct(xs)[i]) < FirstIndex(xs, Distinct(xs)[j])
  {
    if xs != [] {
      var n := |xs| - 1;
      var init, last := xs[..n], xs[n];
      DistinctSpec(init);
      var d := Distinct(init);
      assert xs == init + [last];
      forall x | x in init ensures FirstIndex(xs, x) == FirstIndex(init, x) {
        FirstIndexOfPrefix(xs, x);
      }
      if last !in d {
        FirstIndexOfLast(xs);
        forall i | 0 <= i < |d| ensures FirstIndex(xs, d[i]) < n {
          assert d[i] in init;
        }
      }
    }
  }

  /** The subject of every problem, in order. */
  function SubjectsOf(problems: seq<ProblemEntry>): (r: seq<string>)
    ensures |r| == |problems| && forall i :: 0 <= i < |r| ==> r[i] == problems[i].subject
  {
    seq(|problems|, i requires 0 <= i < |problems| => problems[i].subject)
  }

  /** `subjects`: each subject of the problems exactly once, in first-occurrence order. */
  function Subjects(problems: seq<ProblemEntry>): seq<string>
  {
    Distinct(SubjectsOf(problems))
  }

  /** A subject is listed exactly when some problem has it, and never twice. */
  lemma SubjectsSpec(problems: seq<ProblemEntry>)
    ensures forall s :: s in Subjects(problems) <==> exists i :: 0 <= i < |problems| && problems[i].subject == s
    ensures NoDuplicates(Subjects(problems))
  {
    DistinctSpec(SubjectsOf(problems));
    forall s ensures s in SubjectsOf(problems) <==> exists i :: 0 <= i < |problems| && problems[i].subject == s {
      if s in SubjectsOf(problems) {
        var i :| 0 <= i < |problems| && SubjectsOf(problems)[i] == s;
      }
    }
  }

  /** The hook's state: the fetched problems, the flags, and the search and subject controls. */
  class ProblemHistory {
    var problems: seq<ProblemEntry>
    var loading: bool
    var error: Option<string>
    var searchTerm: string
    var selectedSubject: string

    constructor ()
      ensures problems == [] && loading && error.None? && searchTerm == "" && selectedSubject == AllSubjects
    {
      problems := [];
      loading := true;
      error := None;
      searchTerm := "";
      selectedSubject := AllSubjects;
    }

    /** The list the hook returns as `problems`. */
    function FilteredProblems(): seq<ProblemEntry>
      reads this
    {
      Filter(problems, searchTerm, selectedSubject)
    }

    function SubjectList(): seq<string>
      reads this
    {
      Subjects(problems)
    }

    /**
     * The mount-time fetch; `data` is how `getProblemHistory()` ended. The error is cleared first,
     * a failure records its message or the default, and loading ends false on every path.
     */
    method FetchProblems(data: Result<seq<ProblemEntry>>)
      modifies this`problems, this`loading, this`error
      ensures !loading
      ensures data.Success? ==> problems == data.value && error.None?
      ensures data.Failure? ==>
        problems == old(problems) && error == Some(InstanceMessage(data.thrown, FetchFailed))
    {
      loading := true;
      error := None;
      match data {
        case Success(fetched) => problems := fetched;
        case Failure(e) => error := Some(InstanceMessage(e, FetchFailed));
      }
      loading := false;
    }

    /**
     * `refetch()`: loads again and ends with loading false, but never touches the error: a failure
     * keeps the old problems and the old error.
     */
    method Refetch(data: Result<seq<ProblemEntry>>)
      modifies this`problems, this`loading
      ensures !loading
      ensures data.Success? ==> problems == data.value
      ensures data.Failure? ==> problems == old(problems)
    {
      loading := true;
      if data.Success? {
        problems := data.value;
      }
      loading := false;
    }

    method SetSearchTerm(term: string)
      modifies this`searchTerm
      ensures searchTerm == term
    {
      searchTerm := term;
    }

    method SetSelectedSubject(subject: string)
      modifies this`selectedSubject
      ensures selectedSubject == subject
    {
      selectedSubject := subject;
    }
  }
}
