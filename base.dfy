/**
  The values the pest tree walker of src/parse.rs builds: locations, names
  and the process-calculus terms of the `base` module (whose definitions are
  not part of this model: each constructor below is the one the walker
  applies, with its fields in the order the walker passes them).  Shared
  pointers (`Arc`) become plain values.
*/
module Base {
  import opened Wrappers

  datatype Location = Location(line: nat, column: nat)

  /** A name as written, with where it was written. */
  datatype Name = Name(text: string, location: Location)

  datatype Ordering = Less | Equal | Greater

  function Flip(o: Ordering): Ordering {
    match o
    case Less => Greater
    case Equal => Equal
    case Greater => Less
  }

  /** `String::cmp`: lexicographic, character by character, a proper prefix first. */
  function CompareStrings(a: string, b: string): (r: Ordering)
    ensures r == Equal <==> a == b
  {
    if a == [] && b == [] then Equal
    else if a == [] then Less
    else if b == [] then Greater
    else if a[0] < b[0] then Less
    else if a[0] > b[0] then Greater
    else
      var r := CompareStrings(a[1..], b[1..]);
      assert a == [a[0]] + a[1..] && b == [b[0]] + b[1..];
      r
  }

  /** `Ord for Name`: the texts alone are compared. */
  function Compare(a: Name, b: Name): (r: Ordering)
    ensures r == Equal <==> a.text == b.text
  {
    CompareStrings(a.text, b.text)
  }

  /** `PartialEq for Name`: equal when `cmp` says so, whatever the locations. */
  predicate Same(a: Name, b: Name) {
    Compare(a, b) == Equal
  }

  /** Two names are the same exactly when their texts are; the location never matters. */
  lemma SameIffText(a: Name, b: Name)
    ensures Same(a, b) <==> a.text == b.text
    ensures forall l :: Same(a, b) <==> Same(Name(a.text, l), b)
  {
  }

  /** Swapping the arguments of `cmp` flips the answer. */
  lemma {:induction false} CompareStringsFlip(a: string, b: string)
    ensures CompareStrings(b, a) == Flip(CompareStrings(a, b))
  {
    if a != [] && b != [] && a[0] == b[0] {
      CompareStringsFlip(a[1..], b[1..]);
    }
  }

  /** `cmp` orders strings transitively. */
  lemma {:induction false} CompareStringsTransitive(a: string, b: string, c: string)
    requires CompareStrings(a, b) == Less && CompareStrings(b, c) == Less
    ensures CompareStrings(a, c) == Less
  {
    if a != [] && b != [] && c != [] && a[0] == b[0] && b[0] == c[0] {
      CompareStringsTransitive(a[1..], b[1..], c[1..]);
    }
  }

  /** The capture list of a fork: the free names it takes from its surroundings. */
  datatype Capture = Capture(variables: seq<Name>)

  datatype Expression =
    | Fork(capture: Capture, channel: Name, process: Process)
    | Ref(name: Name)

  datatype Process =
    | Let(name: Name, value: Expression, next: Process)
    | Link(subject: Name, argument: Expression)
    | Do(subject: Name, command: Command)

  datatype Command =
    | Break
    | Continue(next: Process)
    | Send(argument: Expression, next: Process)
    | Receive(parameter: Name, next: Process)
    | Select(branch: Name, next: Process)
    | Case(branches: seq<(Name, Process)>, otherwise: Option<Process>)
}
