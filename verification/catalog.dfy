/**
  The course record and the fixed, build-time catalog of the landing page. Each title and
  description is given as the list of its words, which `Text.Concat` joins back into the text;
  the split lets proofs examine a text one short word at a time.
 */
module Catalog {
  import opened Wrappers
  import opened Text

  /** A course's difficulty tier: the only three values the `level` field may hold. */
  datatype Level = Beginner | Intermediate | Advanced

  /** The string stored in a course's `level` field. */
  function LevelName(l: Level): string {
    match l
    case Beginner => "beginner"
    case Intermediate => "intermediate"
    case Advanced => "advanced"
  }

  /** Reads a `level` string: exactly the three level names are accepted. */
  function ParseLevel(s: string): (r: Option<Level>)
    ensures r.Some? <==> s in {"beginner", "intermediate", "advanced"}
    ensures r.Some? ==> LevelName(r.value) == s
  {
    if s == "beginner" then Some(Beginner)
    else if s == "intermediate" then Some(Intermediate)
    else if s == "advanced" then Some(Advanced)
    else None
  }

  /** Every level is read back from its own name, so the names are pairwise distinct. */
  lemma LevelNameRoundTrip(l: Level)
    ensures ParseLevel(LevelName(l)) == Some(l)
  {
  }

  /**
    One catalog entry. `duration`, `category` and `image` are opaque labels that never take part
    in filtering.
   */
  datatype Course = Course(
    id: string,
    title: string,
    description: string,
    level: Level,
    duration: string,
    category: string,
    image: string)

  /**
    The words of each title and description, each word but the last keeping the space that
    follows it: `Concat` of a list is character for character the text of the catalog entry.
   */
  // Course 1
  const TITLE_1: seq<string> := ["DevOps ", "with ", "Docker"]
  const DESCRIPTION_1: seq<string> :=
    ["Deploy ", "and ", "manage ", "applications ", "with ", "Docker. ", "Learn ", "to ",
     "containerize ", "your ", "apps ", "and ", "optimize ", "your ", "workflow."]

  // Course 2
  const TITLE_2: seq<string> := ["Frontend ", "with ", "React"]
  const DESCRIPTION_2: seq<string> :=
    ["Develop ", "modern ", "interfaces ", "with ", "React. ", "Master ", "hooks, ", "global ",
     "state, ", "and ", "ecosystem ", "best ", "practices."]

  // Course 3
  const TITLE_3: seq<string> := ["JavaScript ", "Essentials"]
  const DESCRIPTION_3: seq<string> :=
    ["Master ", "JavaScript ", "for ", "modern ", "web ", "development. ", "From ", "variables ",
     "to ", "asynchronous ", "programming ", "and ", "ES6+."]

  // Course 4
  const TITLE_4: seq<string> := ["PHP ", "Fundamentals"]
  const DESCRIPTION_4: seq<string> :=
    ["Learn ", "the ", "fundamentals ", "of ", "PHP, ", "from ", "variables ", "to ",
     "object-oriented ", "programming. ", "Ideal ", "for ", "backend ", "beginners."]

  // Course 5
  const TITLE_5: seq<string> := ["IT ", "Programmer ", "- ", "Casa ", "Pia ", "de ", "Lisboa"]
  const DESCRIPTION_5: seq<string> :=
    ["Complete ", "professional ", "course ", "in ", "IT ", "programming. ", "Combines ",
     "software ", "development ", "with ", "infrastructure."]

  // Course 6
  const TITLE_6: seq<string> := ["RESTful ", "API ", "Development"]
  const DESCRIPTION_6: seq<string> :=
    ["Create ", "professional ", "REST ", "APIs ", "with ", "PHP ", "and ", "security. ",
     "Learn ", "JWT ", "authentication ", "and ", "design ", "patterns."]

  // Course 7
  const TITLE_7: seq<string> := ["Web ", "Security ", "Best ", "Practices"]
  const DESCRIPTION_7: seq<string> :=
    ["Protect ", "your ", "applications ", "against ", "common ", "vulnerabilities. ", "OWASP ",
     "Top ", "10, ", "encryption, ", "and ", "data ", "security."]

  // Course 8
  const TITLE_8: seq<string> :=
    ["Software ", "Development ", "Technician ", "- ", "Casa ", "Pia ", "de ", "Lisboa"]
  const DESCRIPTION_8: seq<string> :=
    ["Specialized ", "technical ", "course ", "focused ", "on ", "full-stack ", "software ",
     "development, ", "systems ", "analysis, ", "and ", "database ", "management."]

  /** The catalog, in display order. */
  const COURSES: seq<Course> :=
    [
      Course(
        id := "1",
        title := Concat(TITLE_1),
        description := Concat(DESCRIPTION_1),
        level := Advanced,
        duration := "40h",
        category := "DevOps",
        image := "https://picsum.photos/seed/shipping-containers/600/400"),
      Course(
        id := "2",
        title := Concat(TITLE_2),
        description := Concat(DESCRIPTION_2),
        level := Intermediate,
        duration := "60h",
        category := "Frontend",
        image := "https://picsum.photos/seed/web-design/600/400"),
      Course(
        id := "3",
        title := Concat(TITLE_3),
        description := Concat(DESCRIPTION_3),
        level := Beginner,
        duration := "45h",
        category := "Development",
        image := "https://picsum.photos/seed/code-js/600/400"),
      Course(
        id := "4",
        title := Concat(TITLE_4),
        description := Concat(DESCRIPTION_4),
        level := Beginner,
        duration := "40h",
        category := "Backend",
        image := "https://picsum.photos/seed/backend-dev/600/400"),
      Course(
        id := "5",
        title := Concat(TITLE_5),
        description := Concat(DESCRIPTION_5),
        level := Intermediate,
        duration := "300h",
        category := "Professional",
        image := "https://picsum.photos/seed/it-professional/600/400"),
      Course(
        id := "6",
        title := Concat(TITLE_6),
        description := Concat(DESCRIPTION_6),
        level := Intermediate,
        duration := "50h",
        category := "Backend",
        image := "https://picsum.photos/seed/api-network/600/400"),
      Course(
        id := "7",
        title := Concat(TITLE_7),
        description := Concat(DESCRIPTION_7),
        level := Intermediate,
        duration := "30h",
        category := "Security",
        image := "https://picsum.photos/seed/cyber-security/600/400"),
      Course(
        id := "8",
        title := Concat(TITLE_8),
        description := Concat(DESCRIPTION_8),
        level := Intermediate,
        duration := "350h",
        category := "Professional",
        image := "https://picsum.photos/seed/software-engineer/600/400")
    ]

  /** No two courses of `cs` share an id. */
  predicate DistinctIds(cs: seq<Course>) {
    forall i, j :: 0 <= i < j < |cs| ==> cs[i].id != cs[j].id
  }

  /** A course has a non-empty title and a non-empty description. */
  predicate HasText(c: Course) {
    c.title != [] && c.description != []
  }

  /** The catalog has eight entries with ids "1" to "8" in order, so no id repeats. */
  lemma CatalogIds()
    ensures |COURSES| == 8
    ensures forall i :: 0 <= i < |COURSES| ==> COURSES[i].id == [('1' as int + i) as char]
    ensures DistinctIds(COURSES)
  {
    var ids := seq(|COURSES|, i requires 0 <= i < |COURSES| => COURSES[i].id);
    assert ids == ["1", "2", "3", "4", "5", "6", "7", "8"];
  }

  /** The levels of the catalog entries, in catalog order. */
  lemma CatalogLevels()
    ensures COURSES[0].level == Advanced && COURSES[1].level == Intermediate
    ensures COURSES[2].level == Beginner && COURSES[3].level == Beginner
    ensures COURSES[4].level == Intermediate && COURSES[5].level == Intermediate
    ensures COURSES[6].level == Intermediate && COURSES[7].level == Intermediate
  {
  }

  /** Every catalog entry has a non-empty title and a non-empty description. */
  lemma CatalogHasText()
    ensures forall i :: 0 <= i < |COURSES| ==> HasText(COURSES[i])
  {
  }
}
