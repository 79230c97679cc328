/**
 * The table of named animation classes and `combineAnimations`, which turns a
 * list of names into one `className` string, passing unknown names through.
 */
module AnimationClasses {
  import opened Text

  /** `animationClasses`: animation name to the utility classes it stands for. */
  const Table: map<string, string> := map[
    "fade-in" := "animate-fadeIn",
    "fade-out" := "animate-fadeOut",
    "slide-in-left" := "animate-slideInLeft",
    "slide-in-right" := "animate-slideInRight",
    "slide-in-up" := "animate-slideInUp",
    "slide-in-down" := "animate-slideInDown",
    "scale-in" := "animate-scaleIn",
    "scale-out" := "animate-scaleOut",
    "pulse" := "animate-pulse",
    "bounce" := "animate-bounce",
    "btn-hover" := "transform transition-all duration-200 hover:scale-105",
    "btn-active" := "active:scale-95",
    "card-hover" := "transform transition-all duration-300 hover:scale-[1.02] hover:shadow-lg",
    "page-transition" := "animate-fadeIn",
    "spin" := "animate-spin",
    "ping" := "animate-ping"
  ]

  /** No entry maps to the empty string, so `||` never falls back for a listed name. */
  lemma TableValuesNonEmpty()
    ensures forall k :: k in Table ==> Table[k] != ""
  {
  }

  /** `animationClasses[name] || name`: the listed classes for a known name, the name itself otherwise. */
  function ClassFor(name: string): (c: string)
    ensures name in Table ==> c == Table[name]
    ensures name !in Table ==> c == name
  {
    TableValuesNonEmpty();
    if name in Table && Table[name] != "" then Table[name] else name
  }

  /** `classNames.map(...)`: each name resolved on its own, in order. */
  function Resolved(names: seq<string>): (r: seq<string>)
    ensures |r| == |names|
    ensures forall i :: 0 <= i < |names| ==> r[i] == ClassFor(names[i])
  {
    seq(|names|, i requires 0 <= i < |names| => ClassFor(names[i]))
  }

  /** `combineAnimations(...classNames)`: the resolved classes joined by single spaces. */
  function CombineAnimations(names: seq<string>): (classes: string)
    ensures names == [] ==> classes == ""
    ensures names != [] ==> ClassFor(names[0]) <= classes
  {
    Join(Resolved(names), " ")
  }

  /** No names give the empty class string. */
  lemma CombineNothing()
    ensures CombineAnimations([]) == ""
  {
  }

  /** One name gives its classes alone, with no separator. */
  lemma CombineOne(name: string)
    ensures CombineAnimations([name]) == ClassFor(name)
  {
  }

  /** Adding a name at the end appends a space and its classes. */
  lemma CombineAppend(names: seq<string>, name: string)
    requires |names| >= 1
    ensures CombineAnimations(names + [name]) == CombineAnimations(names) + " " + ClassFor(name)
  {
    assert Resolved(names + [name]) == Resolved(names) + [ClassFor(name)];
    JoinAppend(Resolved(names), ClassFor(name), " ");
  }

  /** Names that are not in the table pass through unchanged: the result is their plain join. */
  lemma UnknownNamesPassThrough(names: seq<string>)
    requires forall i :: 0 <= i < |names| ==> names[i] !in Table
    ensures CombineAnimations(names) == Join(names, " ")
  {
    assert Resolved(names) == names;
  }

  /**
   * When every resolved class is a single token (no space), splitting the
   * result on spaces gives back exactly the resolved classes, one per name.
   */
  lemma CombineSplitsBack(names: seq<string>)
    requires |names| >= 1
    requires forall i :: 0 <= i < |names| ==> ' ' !in ClassFor(names[i])
    ensures SplitOn(CombineAnimations(names), ' ') == Resolved(names)
  {
    SplitJoin(Resolved(names), ' ');
  }
}
