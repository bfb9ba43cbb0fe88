/**
 * Building a new project record (lib/project.ts): the input fields are
 * copied, the id is supplied by the caller (it stands for the browser's UUID
 * generator), the status and counters take their defaults, and the URL slug
 * is the name lowercased with every run of whitespace replaced by one `-`.
 * Sending the record to the server is not modelled.
 */
module Project {
  import opened Wrappers

  /** What the form sends. */
  datatype CreateProjectInput = CreateProjectInput(
    name: string,
    description: string,
    color: string,
    dueDate: Option<string>)

  datatype Project = Project(
    id: string,
    slug: string,
    name: string,
    description: string,
    color: string,
    status: string,
    tasksTotal: int,
    tasksCompleted: int,
    dueDate: Option<string>)

  // ---------------------------------------------------------------------------
  // Characters
  // ---------------------------------------------------------------------------

  /** The characters the regular-expression class `\s` matches in JavaScript. */
  predicate IsWhitespace(c: char) {
    c == ' ' || c == '\t' || c == '\n' || c == '\r' || c == '\U{000B}' || c == '\U{000C}'
    || c == '\U{00A0}' || c == '\U{1680}' || ('\U{2000}' <= c <= '\U{200A}')
    || c == '\U{2028}' || c == '\U{2029}' || c == '\U{202F}' || c == '\U{205F}'
    || c == '\U{3000}' || c == '\U{FEFF}'
  }

  predicate IsUpperAscii(c: char) {
    'A' <= c <= 'Z'
  }

  /** Lowercases one character (the ASCII letters only). */
  function LowerChar(c: char): (r: char)
    ensures !IsUpperAscii(r)
    ensures IsWhitespace(r) <==> IsWhitespace(c)
    ensures !IsUpperAscii(c) ==> r == c
  {
    if IsUpperAscii(c) then (c as int + 32) as char else c
  }

  predicate NoWhitespace(s: string) {
    forall i :: 0 <= i < |s| ==> !IsWhitespace(s[i])
  }

  predicate NoUpperAscii(s: string) {
    forall i :: 0 <= i < |s| ==> !IsUpperAscii(s[i])
  }

  predicate AllWhitespace(s: string) {
    forall i :: 0 <= i < |s| ==> IsWhitespace(s[i])
  }

  // ---------------------------------------------------------------------------
  // Slug
  // ---------------------------------------------------------------------------

  /** `toLowerCase()`: each character lowercased in place. */
  function ToLowerCase(s: string): (r: string)
    ensures |r| == |s|
    ensures forall i :: 0 <= i < |s| ==> r[i] == LowerChar(s[i])
  {
    if s == [] then [] else [LowerChar(s[0])] + ToLowerCase(s[1..])
  }

  /** The rest of `s` after its leading whitespace. */
  function SkipWhitespace(s: string): (r: string)
    ensures |r| <= |s| && r == s[|s| - |r|..]
    ensures AllWhitespace(s[..|s| - |r|])
    ensures r == [] || !IsWhitespace(r[0])
    ensures NoUpperAscii(s) ==> NoUpperAscii(r)
  {
    if s != [] && IsWhitespace(s[0]) then
      var r := SkipWhitespace(s[1..]);
      assert s[..|s| - |r|] == [s[0]] + s[1..][..|s| - 1 - |r|];
      r
    else s
  }

  /** `replace(/\s+/g, '-')`: every maximal run of whitespace becomes one `-`. */
  function DashWhitespaceRuns(s: string): (r: string)
    ensures NoWhitespace(r)
    ensures |r| <= |s|
    decreases |s|
  {
    if s == [] then []
    else if IsWhitespace(s[0]) then
      var tail := DashWhitespaceRuns(SkipWhitespace(s[1..]));
      NoWhitespaceCons('-', tail);
      ['-'] + tail
    else
      var tail := DashWhitespaceRuns(s[1..]);
      NoWhitespaceCons(s[0], tail);
      [s[0]] + tail
  }

  lemma NoWhitespaceCons(c: char, t: string)
    requires !IsWhitespace(c) && NoWhitespace(t)
    ensures NoWhitespace([c] + t)
  {
  }

  lemma NoUpperAsciiCons(c: char, t: string)
    requires !IsUpperAscii(c) && NoUpperAscii(t)
    ensures NoUpperAscii([c] + t)
  {
  }

  /** The replacement introduces no uppercase letter. */
  lemma {:induction false} DashKeepsNoUpper(s: string)
    requires NoUpperAscii(s)
    ensures NoUpperAscii(DashWhitespaceRuns(s))
    decreases |s|
  {
    if s != [] {
      if IsWhitespace(s[0]) {
        var rest := SkipWhitespace(s[1..]);
        DashKeepsNoUpper(rest);
        NoUpperAsciiCons('-', DashWhitespaceRuns(rest));
      } else {
        DashKeepsNoUpper(s[1..]);
        NoUpperAsciiCons(s[0], DashWhitespaceRuns(s[1..]));
      }
    }
  }

  /** The URL slug derived from a project name. */
  function Slug(name: string): (r: string)
    ensures NoWhitespace(r)
    ensures NoUpperAscii(r)
    ensures |r| <= |name|
  {
    DashKeepsNoUpper(ToLowerCase(name));
    DashWhitespaceRuns(ToLowerCase(name))
  }

  /** Text without whitespace passes through the replacement unchanged. */
  lemma {:induction false} DashWithoutWhitespace(s: string)
    requires NoWhitespace(s)
    ensures DashWhitespaceRuns(s) == s
  {
    if s != [] {
      DashWithoutWhitespace(s[1..]);
    }
  }

  /** A name without whitespace gets its lowercased self as slug. */
  lemma SlugWithoutWhitespace(name: string)
    requires NoWhitespace(name)
    ensures Slug(name) == ToLowerCase(name)
  {
    DashWithoutWhitespace(ToLowerCase(name));
  }

  /** Lowercasing text without uppercase letters changes nothing. */
  lemma LowerCaseOfLower(s: string)
    requires NoUpperAscii(s)
    ensures ToLowerCase(s) == s
  {
  }

  /** Deriving the slug of a slug gives the same slug. */
  lemma SlugIdempotent(name: string)
    ensures Slug(Slug(name)) == Slug(name)
  {
    var s := Slug(name);
    LowerCaseOfLower(s);
    DashWithoutWhitespace(s);
  }

  /** Leading whitespace in front of non-whitespace text is skipped entirely. */
  lemma {:induction false} SkipWhitespaceRun(w: string, b: string)
    requires AllWhitespace(w)
    requires b == [] || !IsWhitespace(b[0])
    ensures SkipWhitespace(w + b) == b
  {
    if w != [] {
      assert (w + b)[1..] == w[1..] + b;
      SkipWhitespaceRun(w[1..], b);
    }
  }

  /** A whole run of whitespace in front of non-whitespace text becomes one `-`. */
  lemma DashRun(w: string, b: string)
    requires w != [] && AllWhitespace(w)
    requires b == [] || !IsWhitespace(b[0])
    ensures DashWhitespaceRuns(w + b) == "-" + DashWhitespaceRuns(b)
  {
    var s := w + b;
    assert s[0] == w[0] && s[1..] == w[1..] + b;
    SkipWhitespaceRun(w[1..], b);
  }

  /** A text with no whitespace, then one run of whitespace, then the rest: the run becomes one `-`. */
  lemma {:induction false} DashAfterWord(a: string, w: string, b: string)
    requires NoWhitespace(a)
    requires w != [] && AllWhitespace(w)
    requires b == [] || !IsWhitespace(b[0])
    ensures DashWhitespaceRuns(a + w + b) == a + "-" + DashWhitespaceRuns(b)
  {
    if a == [] {
      assert a + w + b == w + b;
      DashRun(w, b);
    } else {
      var s := a + w + b;
      assert s[0] == a[0] && s[1..] == a[1..] + w + b;
      DashAfterWord(a[1..], w, b);
      assert DashWhitespaceRuns(s) == [a[0]] + DashWhitespaceRuns(s[1..]);
    }
  }

  /**
   * The slug of a name made of a word, a run of whitespace and the rest is the
   * lowercased word, one `-`, and the slug of the rest.
   */
  lemma SlugSplitsAtRun(a: string, w: string, b: string)
    requires NoWhitespace(a)
    requires w != [] && AllWhitespace(w)
    requires b == [] || !IsWhitespace(b[0])
    ensures Slug(a + w + b) == ToLowerCase(a) + "-" + Slug(b)
  {
    var la, lw, lb := ToLowerCase(a), ToLowerCase(w), ToLowerCase(b);
    LowerCaseConcat(a + w, b);
    LowerCaseConcat(a, w);
    assert NoWhitespace(la) by {
      forall i | 0 <= i < |la| ensures !IsWhitespace(la[i]) { assert la[i] == LowerChar(a[i]); }
    }
    assert AllWhitespace(lw) by {
      forall i | 0 <= i < |lw| ensures IsWhitespace(lw[i]) { assert lw[i] == LowerChar(w[i]); }
    }
    assert lb == [] || !IsWhitespace(lb[0]) by {
      if lb != [] { assert lb[0] == LowerChar(b[0]); }
    }
    DashAfterWord(la, lw, lb);
  }

  /** Lowercasing works character by character, so it distributes over concatenation. */
  lemma LowerCaseConcat(x: string, y: string)
    ensures ToLowerCase(x + y) == ToLowerCase(x) + ToLowerCase(y)
  {
  }

  /**
   * The facts about the example's literals, one per lemma: asked together in
   * one proof they exhaust the solver.
   */
  lemma LowerCaseMy()
    ensures ToLowerCase("My") == "my"
  {
  }

  lemma LowerCaseProject()
    ensures ToLowerCase("Project") == "project"
  {
  }

  lemma ExampleJoin()
    ensures "my" + "-" + "project" == "my-project"
  {
  }

  /** "My Project" gives "my-project". */
  lemma SlugExample()
    ensures Slug("My Project") == "my-project"
  {
    var a, w, b := "My", " ", "Project";
    assert a + w + b == "My Project";
    assert NoWhitespace(a) && AllWhitespace(w) && NoWhitespace(b);
    SlugSplitsAtRun(a, w, b);
    SlugWithoutWhitespace(b);
    LowerCaseMy();
    LowerCaseProject();
    ExampleJoin();
  }

  // ---------------------------------------------------------------------------
  // Record construction
  // ---------------------------------------------------------------------------

  /** The defaults a new project starts with. */
  const InitialStatus: string := "active"

  /**
   * The record `createProject` sends: the input's fields as given, the supplied
   * id, the slug of the name, status "active" and no tasks counted yet.
   */
  function CreateProject(input: CreateProjectInput, id: string): (p: Project)
    ensures p.id == id
    ensures p.name == input.name && p.description == input.description
    ensures p.color == input.color && p.dueDate == input.dueDate
    ensures p.status == InitialStatus && p.tasksTotal == 0 && p.tasksCompleted == 0
    ensures p.slug == Slug(input.name)
    ensures NoWhitespace(p.slug) && NoUpperAscii(p.slug) && |p.slug| <= |input.name|
    ensures Slug(p.slug) == p.slug
  {
    SlugIdempotent(input.name);
    Project(id, Slug(input.name), input.name, input.description, input.color,
            InitialStatus, 0, 0, input.dueDate)
  }
}
