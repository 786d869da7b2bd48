/**
 * The human-readable payload Reconcile builds for a pending cluster request:
 * a subject line naming the priority and the owner Cluster, and a body
 * carrying the free-form request. Each has a parser that recovers its inputs,
 * so no two different inputs give the same text.
 */
module Message {
  import opened Wrappers

  const SubjectOpen := "["
  const SubjectMiddle := "] New Cluster "
  const SubjectClose := " requested"
  const BodyOpen := "Hello! One ChumichCluster please. \n\n"
  const BodyClose := "\n"

  /** `"[<priority>] New Cluster <clusterName> requested"`. */
  function Subject(priority: string, clusterName: string): (subject: string)
  {
    SubjectOpen + priority + SubjectMiddle + clusterName + SubjectClose
  }

  /** `"Hello! One ChumichCluster please. \n\n<request>\n"`. */
  function Body(request: string): (body: string)
  {
    BodyOpen + request + BodyClose
  }

  /** The position of the first `c` in `s`, if any. */
  function IndexOf(s: string, c: char): (r: Option<nat>)
    ensures r.Some? ==> r.value < |s| && s[r.value] == c && c !in s[..r.value]
    ensures r.None? ==> c !in s
  {
    if s == [] then None
    else if s[0] == c then Some(0)
    else match IndexOf(s[1..], c)
      case None => None
      case Some(i) => Some(i + 1)
  }

  /**
   * Reads a subject back: the priority is the text up to the first `]`, the
   * cluster name what lies between the fixed middle and the fixed close.
   */
  function ParseSubject(s: string): (parsed: Option<(string, string)>)
  {
    if |s| < |SubjectOpen| || s[..|SubjectOpen|] != SubjectOpen then None
    else
      var t := s[|SubjectOpen|..];
      match IndexOf(t, ']')
      case None => None
      case Some(i) =>
        var rest := t[i..];
        if |rest| < |SubjectMiddle| + |SubjectClose|
           || rest[..|SubjectMiddle|] != SubjectMiddle
           || rest[|rest| - |SubjectClose|..] != SubjectClose
        then None
        else Some((t[..i], rest[|SubjectMiddle|..|rest| - |SubjectClose|]))
  }

  /** Reads a body back: the request is what lies between the fixed open and close. */
  function ParseBody(s: string): (request: Option<string>)
  {
    if |s| < |BodyOpen| + |BodyClose|
       || s[..|BodyOpen|] != BodyOpen
       || s[|s| - |BodyClose|..] != BodyClose
    then None
    else Some(s[|BodyOpen|..|s| - |BodyClose|])
  }

  /** The first `c` in `a + b`, when `a` has none, is the first `c` in `b`, shifted. */
  lemma {:induction false} IndexOfAfter(a: string, b: string, c: char)
    requires c !in a
    ensures IndexOf(a + b, c) == match IndexOf(b, c)
      case None => None
      case Some(i) => Some(|a| + i)
  {
    if a != [] {
      assert (a + b)[1..] == a[1..] + b;
      IndexOfAfter(a[1..], b, c);
    } else {
      assert a + b == b;
    }
  }

  /**
   * A priority without `]` and any cluster name are recovered from the subject
   * built from them.
   */
  lemma SubjectRoundTrip(priority: string, clusterName: string)
    requires ']' !in priority
    ensures ParseSubject(Subject(priority, clusterName)) == Some((priority, clusterName))
  {
    var s := Subject(priority, clusterName);
    var tail := SubjectMiddle + clusterName + SubjectClose;
    assert s[..|SubjectOpen|] == SubjectOpen;
    var t := s[|SubjectOpen|..];
    assert t == priority + tail;
    IndexOfAfter(priority, tail, ']');
    assert IndexOf(tail, ']') == Some(0);
    assert t[..|priority|] == priority;
    var rest := t[|priority|..];
    assert rest == tail;
    assert rest[..|SubjectMiddle|] == SubjectMiddle;
    assert rest[|rest| - |SubjectClose|..] == SubjectClose;
    assert rest[|SubjectMiddle|..|rest| - |SubjectClose|] == clusterName;
  }

  /** Subjects built from priorities without `]` determine their inputs. */
  lemma SubjectInjective(p1: string, n1: string, p2: string, n2: string)
    requires ']' !in p1 && ']' !in p2
    requires Subject(p1, n1) == Subject(p2, n2)
    ensures p1 == p2 && n1 == n2
  {
    SubjectRoundTrip(p1, n1);
    SubjectRoundTrip(p2, n2);
  }

  /** Every request is recovered from the body built from it. */
  lemma BodyRoundTrip(request: string)
    ensures ParseBody(Body(request)) == Some(request)
  {
  }
}
