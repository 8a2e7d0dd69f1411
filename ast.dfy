/**
 * The declaration records built by the parser (ast.py). They only store
 * their constructor arguments; nothing mutates them afterwards.
 */
module Ast {
  import opened Wrappers

  /** A single flag bit at position `bitpos`. */
  datatype Signal = Signal(name: string, bitpos: int)

  /** A multi-bit field occupying bits `msb` down to `lsb`. */
  datatype Field = Field(name: string, msb: int, lsb: int)

  /** A named constant. */
  datatype Const = Const(name: string, value: int)

  /**
   * One entry of a default, group or pattern block: a field assignment
   * carrying the raw lexeme of its value, or a signal assertion.
   */
  datatype Assignment = Assignment(target: string, value: Option<string>, isSignal: bool)

  /** A reusable bit-pattern template with its assignments. */
  datatype Group = Group(name: string, bitpattern: string, assignments: seq<Assignment>)

  /**
   * A concrete decode rule. The record keeps both optional parts, exactly as
   * the constructor does: nothing forces one of them to be present.
   */
  datatype Pattern = Pattern(bitpattern: Option<string>, baseGroup: Option<string>, assignments: seq<Assignment>)

  /** `Assignment(target, value=None, is_signal=False)`. */
  function NewAssignment(target: string, value: Option<string> := None, isSignal: bool := false): (a: Assignment)
    ensures a.target == target && a.value == value && a.isSignal == isSignal
  {
    Assignment(target, value, isSignal)
  }

  /** `assignments or []`: a missing list becomes the empty list. */
  function ListOrEmpty(assignments: Option<seq<Assignment>>): seq<Assignment>
  {
    match assignments
    case None => []
    case Some(s) => s
  }

  /** `Group(name, bitpattern, assignments=None)`. */
  function NewGroup(name: string, bitpattern: string, assignments: Option<seq<Assignment>> := None): (g: Group)
    ensures g.name == name && g.bitpattern == bitpattern
    ensures assignments.None? ==> g.assignments == []
    ensures assignments.Some? ==> g.assignments == assignments.value
  {
    Group(name, bitpattern, ListOrEmpty(assignments))
  }

  /** `Pattern(bitpattern=None, base_group=None, assignments=None)`. */
  function NewPattern(bitpattern: Option<string> := None, baseGroup: Option<string> := None,
                      assignments: Option<seq<Assignment>> := None): (p: Pattern)
    ensures p.bitpattern == bitpattern && p.baseGroup == baseGroup
    ensures assignments.None? ==> p.assignments == []
    ensures assignments.Some? ==> p.assignments == assignments.value
  {
    Pattern(bitpattern, baseGroup, ListOrEmpty(assignments))
  }

  /** An assignment built from its target alone is a field assignment without a value. */
  lemma BareAssignment(target: string)
    ensures NewAssignment(target) == Assignment(target, None, false)
  {
  }

  /** A pattern built without arguments has neither part and no assignments. */
  lemma EmptyPattern()
    ensures NewPattern() == Pattern(None, None, [])
  {
  }

  /** The constructor accepts a pattern with both a bit-pattern and a base group. */
  lemma PatternExclusivityNotEnforced(bits: string, base: string)
    ensures var p := NewPattern(Some(bits), Some(base));
      p.bitpattern.Some? && p.baseGroup.Some?
  {
  }

  /** How `__repr__` prints a value: a missing one prints as `None`. */
  function ShowValue(v: Option<string>): string
  {
    match v
    case None => "None"
    case Some(s) => s
  }

  /**
   * `Assignment.__repr__`: a signal assertion whenever `isSignal` holds,
   * otherwise a field assignment showing the target and the value.
   */
  function Show(a: Assignment): (r: string)
    ensures a.isSignal <==> "AssignSignal(" <= r
    ensures !a.isSignal <==> "AssignField(" <= r
  {
    var r := if a.isSignal then "AssignSignal(" + a.target + ")"
             else "AssignField(" + a.target + "=" + ShowValue(a.value) + ")";
    // the two shapes part at their seventh character, 'S' against 'F'
    assert |r| > 6 && r[6] == (if a.isSignal then 'S' else 'F');
    assert a.isSignal ==> r[..13] == "AssignSignal(";
    assert !a.isSignal ==> r[..12] == "AssignField(";
    r
  }

  /** A signal assertion is shown the same way whatever its value holds. */
  lemma ShowSignalIgnoresValue(a: Assignment, v: Option<string>)
    requires a.isSignal
    ensures Show(a.(value := v)) == Show(a) == "AssignSignal(" + a.target + ")"
  {
  }
}
