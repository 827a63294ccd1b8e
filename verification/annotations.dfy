/** The four recognised annotations and the per-kind dispatch table. */
module Annotations {
  import opened Results
  import opened Text

  datatype AnnotationKind = Props | AbstractProps | State | AbstractState

  /** The annotation's name as written after `@`. */
  function KindName(k: AnnotationKind): string {
    match k
    case Props => "Props"
    case AbstractProps => "AbstractProps"
    case State => "State"
    case AbstractState => "AbstractState"
  }

  /** The framework base type an annotated class must extend. */
  function BaseType(k: AnnotationKind): string {
    if k.Props? || k.AbstractProps? then "UiProps" else "UiState"
  }

  /** The type of the generated `meta` constant. */
  function MetaType(k: AnnotationKind): string {
    if k.Props? || k.AbstractProps? then "PropsMeta" else "StateMeta"
  }

  /** The `meta` constant's type follows the base type: the two props
      annotations extend `UiProps` and get `PropsMeta`, the two state
      annotations extend `UiState` and get `StateMeta`. */
  lemma MetaFollowsBase(k: AnnotationKind)
    ensures MetaType(k) == "PropsMeta" <==> BaseType(k) == "UiProps"
    ensures MetaType(k) == "StateMeta" <==> BaseType(k) == "UiState"
    ensures BaseType(k) == "UiProps" <==> k in {Props, AbstractProps}
  {
  }

  /** An argument list: absent, or parenthesised and otherwise opaque. */
  predicate IsArgs(a: string) {
    a == "" || (|a| >= 2 && a[0] == '(' && a[|a| - 1] == ')')
  }

  /** `line` invokes annotation `k`, with or without arguments. */
  predicate Invokes(line: string, k: AnnotationKind) {
    var name := "@" + KindName(k);
    StartsWith(line, name) && IsArgs(line[|name|..])
  }

  /** Any annotation line, recognised or not. */
  predicate IsAnnotationLine(line: string) {
    |line| > 0 && line[0] == '@'
  }

  /** The recognised annotation a line invokes, if any. */
  function TriggerKind(line: string): (r: Option<AnnotationKind>)
    ensures r.Some? ==> Invokes(line, r.value) && IsAnnotationLine(line)
    ensures r.None? ==> forall k :: !Invokes(line, k)
  {
    var r :=
      if Invokes(line, Props) then Some(Props)
      else if Invokes(line, AbstractProps) then Some(AbstractProps)
      else if Invokes(line, State) then Some(State)
      else if Invokes(line, AbstractState) then Some(AbstractState)
      else None;
    if r.Some? then InvokerIsAnnotation(line, r.value); r else r
  }

  /** A line that invokes a recognised annotation is an annotation line. */
  lemma InvokerIsAnnotation(line: string, k: AnnotationKind)
    requires Invokes(line, k)
    ensures IsAnnotationLine(line)
  {
    assert line[0] == ("@" + KindName(k))[0];
  }

  /** No line invokes two different recognised annotations, so the kind a
      trigger line selects is unambiguous. */
  lemma InvokesUnique(line: string, k1: AnnotationKind, k2: AnnotationKind)
    requires Invokes(line, k1) && Invokes(line, k2)
    ensures k1 == k2
  {
    // the names first differ after `@` or, for the two abstract kinds,
    // after `@Abstract`
    var i := if (k1.AbstractProps? || k1.AbstractState?) && (k2.AbstractProps? || k2.AbstractState?) then 9 else 1;
    assert line[i] == ("@" + KindName(k1))[i] && line[i] == ("@" + KindName(k2))[i];
  }
}
