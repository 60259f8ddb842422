/**
 * The host document, reduced to a recorder: every primitive the converters
 * create is appended to `layers`, and a creation can fail, as the host's
 * constructors can throw. Whether the n-th creation attempt fails is decided
 * by the oracle `fails`, fixed when the document is made.
 */
module Host {
  import opened JsValues
  import opened DesignNode
  import opened NativeStyle

  datatype Kind = Artboard | Group | Shape | Text | ImportedSvg

  /** Where a primitive is attached: the page, an earlier primitive, or nowhere (a `null` parent). */
  datatype Parent = Page | Layer(index: nat) | Detached

  /**
   * One created primitive. `groupFills` is the fill list a shape group
   * leaves on its container for path children to inherit; `background` is
   * an artboard's background colour.
   */
  datatype Record = Record(kind: Kind, name: string, frame: Frame, parent: Parent, style: ShapeStyle,
                           text: string, fontSize: Option<real>, groupFills: seq<FillOut>,
                           cornerRadius: real, background: Option<string>)

  /** A primitive with nothing but its kind, name, frame and parent set. */
  function Primitive(kind: Kind, name: string, frame: Frame, parent: Parent): Record
  {
    Record(kind, name, frame, parent, NoStyle, "", None, [], 0.0, None)
  }

  /** Every primitive's parent was created before it. */
  predicate ParentsPrecede(s: seq<Record>)
  {
    forall i :: 0 <= i < |s| && s[i].parent.Layer? ==> s[i].parent.index < i
  }

  /** Nesting depth of primitive `i`: 0 for one attached to the page (or to nothing). */
  function Depth(s: seq<Record>, i: nat): nat
    requires ParentsPrecede(s) && i < |s|
    decreases i
  {
    if s[i].parent.Layer? then 1 + Depth(s, s[i].parent.index) else 0
  }

  /** Appending primitives does not change the depth of those already there. */
  lemma {:induction false} DepthStable(s: seq<Record>, t: seq<Record>, i: nat)
    requires ParentsPrecede(s) && ParentsPrecede(s + t) && i < |s|
    ensures Depth(s + t, i) == Depth(s, i)
    decreases i
  {
    assert (s + t)[i] == s[i];
    if s[i].parent.Layer? {
      DepthStable(s, t, s[i].parent.index);
    }
  }

  /** What a document holds at one moment: its primitives and how many creations were attempted. */
  datatype HostState = HostState(layers: seq<Record>, attempts: nat)

  /**
   * One creation attempt on a state, as the oracle decides it: the attempt
   * is always counted, and the record is appended only when it does not fail.
   */
  function Try(fails: nat -> bool, s: HostState, r: Record): (t: HostState)
    ensures t.attempts == s.attempts + 1
    ensures fails(s.attempts) <==> t.layers == s.layers
    ensures !fails(s.attempts) ==> t.layers == s.layers + [r]
  {
    if fails(s.attempts) then HostState(s.layers, s.attempts + 1) else HostState(s.layers + [r], s.attempts + 1)
  }

  class Document {
    var layers: seq<Record>
    var attempts: nat
    const fails: nat -> bool

    ghost predicate Valid()
      reads this
    {
      ParentsPrecede(layers)
    }

    function State(): HostState
      reads this
    {
      HostState(layers, attempts)
    }

    /** A parent a new primitive may name. */
    predicate Attachable(p: Parent)
      reads this
    {
      p.Layer? ==> p.index < |layers|
    }

    constructor (fails: nat -> bool)
      ensures Valid() && layers == [] && attempts == 0 && this.fails == fails
    {
      layers := [];
      attempts := 0;
      this.fails := fails;
    }

    /** One constructor call of the host (`new sketch.Group(...)` and the like). */
    method Create(r: Record) returns (h: Option<Parent>)
      requires Valid() && Attachable(r.parent)
      modifies this
      ensures Valid()
      ensures State() == Try(fails, old(State()), r)
      ensures attempts == old(attempts) + 1
      ensures fails(old(attempts)) ==> h == None && layers == old(layers)
      ensures !fails(old(attempts)) ==> h == Some(Layer(|old(layers)|)) && layers == old(layers) + [r]
    {
      if fails(attempts) {
        h := None;
      } else {
        h := Some(Layer(|layers|));
        layers := layers + [r];
      }
      attempts := attempts + 1;
    }
  }
}
