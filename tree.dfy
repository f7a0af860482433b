/**
 * The element tree every card builder produces and the two renderers consume:
 * the `{ type, props: { ...props, children } }` objects built by the `el` helper
 * in api/generate-share-image.ts, and the JSX elements of
 * api/generate-share-image.tsx.  Style objects are opaque: a style is named by
 * the role of its literal in the source, together with the values the builder
 * computes from the request (colours, a bar width).
 */
module Tree {
  import opened Wrappers

  /** An opaque style literal and the request-dependent values spliced into it. */
  datatype Style = Style(name: string, values: seq<string>)

  /** A style literal with no request-dependent values. */
  function Fixed(name: string): Style {
    Style(name, [])
  }

  /** A value that can stand in a children position. */
  datatype Node =
    | Text(text: string)                 // a string (or a number that has been printed)
    | Hole                               // `undefined`, `null` or `false`: displays nothing
    | Fragment(items: seq<Node>)         // a JavaScript array given as one JSX child
    | Element(tag: string, style: Style, children: Children)

  /** `props.children`: absent, one child unwrapped, or an array of children. */
  datatype Children = NoChildren | Only(child: Node) | Several(items: seq<Node>)

  /** The children an element was built from, in argument order. */
  function Items(c: Children): seq<Node> {
    match c
    case NoChildren => []
    case Only(k) => [k]
    case Several(ks) => ks
  }

  /**
   * `el(type, props, ...children)`: no children leaves `children` undefined,
   * exactly one is stored unwrapped, two or more are stored as the array.
   * The JSX runtime normalises the children of an element the same way.
   */
  function El(tag: string, style: Style, kids: seq<Node>): (n: Node)
    ensures n.Element? && n.tag == tag && n.style == style
    ensures n.children == NoChildren <==> |kids| == 0
    ensures n.children.Only? <==> |kids| == 1
    ensures n.children.Several? <==> |kids| >= 2
    ensures Items(n.children) == kids
  {
    Element(tag, style, if |kids| == 1 then Only(kids[0]) else if |kids| > 0 then Several(kids) else NoChildren)
  }

  function Div(style: Style, kids: seq<Node>): Node {
    El("div", style, kids)
  }

  /** The children of an element (nothing for any other value). */
  function Kids(n: Node): seq<Node> {
    if n.Element? then Items(n.children) else []
  }

  // ---------------------------------------------------------------------
  // What a renderer displays
  // ---------------------------------------------------------------------

  /** A value that a renderer draws: an element, or a non-empty text. */
  predicate Visible(n: Node) {
    n.Element? || (n.Text? && n.text != "")
  }

  /**
   * The children a renderer draws for a children list: arrays are spliced in
   * and values that draw nothing (`undefined`, `null`, `false`, "") are dropped.
   */
  function Shown(kids: seq<Node>): (r: seq<Node>)
    ensures forall i :: 0 <= i < |r| ==> Visible(r[i])
    decreases kids, 0
  {
    if kids == [] then [] else ShownOne(kids[0]) + Shown(kids[1..])
  }

  function ShownOne(k: Node): (r: seq<Node>)
    ensures forall i :: 0 <= i < |r| ==> Visible(r[i])
    decreases k, 1
  {
    match k
    case Hole => []
    case Text(t) => if t == "" then [] else [k]
    case Fragment(items) => Shown(items)
    case Element(_, _, _) => [k]
  }

  /** All the text inside a value, in document order. */
  function TextOf(n: Node): string
    decreases n, 1
  {
    match n
    case Text(t) => t
    case Hole => ""
    case Fragment(items) => TextOfAll(items)
    case Element(_, _, c) =>
      match c
      case NoChildren => ""
      case Only(k) => TextOf(k)
      case Several(ks) => TextOfAll(ks)
  }

  function TextOfAll(ns: seq<Node>): string
    decreases ns, 0
  {
    if ns == [] then "" else TextOf(ns[0]) + TextOfAll(ns[1..])
  }

  /** The text of each value, one entry per value. */
  function Texts(ns: seq<Node>): (r: seq<string>)
    ensures |r| == |ns|
    ensures forall i :: 0 <= i < |ns| ==> r[i] == TextOf(ns[i])
  {
    seq(|ns|, i requires 0 <= i < |ns| => TextOf(ns[i]))
  }

  /** The text of each item an element draws, in order: its "lines". */
  function Lines(n: Node): seq<string> {
    Texts(Shown(Kids(n)))
  }

  /** An element built from the style literal of the given role. */
  predicate HasRole(n: Node, role: string) {
    n.Element? && n.style.name == role
  }

  /** The first of `ns` built with the style of the given role, if any. */
  function Find(ns: seq<Node>, role: string): Option<Node> {
    if ns == [] then None
    else if HasRole(ns[0], role) then Some(ns[0])
    else Find(ns[1..], role)
  }

  /** The text of the element of the given role, if there is one. */
  function TextAt(ns: seq<Node>, role: string): Option<string> {
    var f := Find(ns, role);
    if f.Some? then Some(TextOf(f.value)) else None
  }

  /** The lines of the element of the given role, if there is one. */
  function LinesAt(ns: seq<Node>, role: string): Option<seq<string>> {
    var f := Find(ns, role);
    if f.Some? then Some(Lines(f.value)) else None
  }

  /** The request-dependent style values of the element of the given role, if there is one. */
  function StyleAt(ns: seq<Node>, role: string): Option<seq<string>> {
    var f := Find(ns, role);
    if f.Some? && f.value.Element? then Some(f.value.style.values) else None
  }

  /** The lines of each item the element of the given role draws: a row of chips. */
  function ChipsAt(ns: seq<Node>, role: string): Option<seq<seq<string>>> {
    var f := Find(ns, role);
    if f.Some? then Some(LinesOfEach(Shown(Kids(f.value)))) else None
  }

  /** The lines of each of a row of chips. */
  function LinesOfEach(ns: seq<Node>): (r: seq<seq<string>>)
    ensures |r| == |ns|
    ensures forall i :: 0 <= i < |ns| ==> r[i] == Lines(ns[i])
  {
    seq(|ns|, i requires 0 <= i < |ns| => Lines(ns[i]))
  }

  // ---------------------------------------------------------------------
  // The three regions every card has, counted from the end of the root's
  // children (some cards put a decorative circle first)
  // ---------------------------------------------------------------------

  predicate IsCard(card: Node) {
    card.Element? && |Kids(card)| >= 3
  }

  function TopLabel(card: Node): Node
    requires IsCard(card)
  {
    Kids(card)[|Kids(card)| - 3]
  }

  function MainColumn(card: Node): Node
    requires IsCard(card)
  {
    Kids(card)[|Kids(card)| - 2]
  }

  function BottomStrip(card: Node): Node
    requires IsCard(card)
  {
    Kids(card)[|Kids(card)| - 1]
  }

  // ---------------------------------------------------------------------
  // Lemmas
  // ---------------------------------------------------------------------

  lemma {:induction false} TextOfAllConcat(a: seq<Node>, b: seq<Node>)
    ensures TextOfAll(a + b) == TextOfAll(a) + TextOfAll(b)
    decreases |a|
  {
    if a == [] {
      assert a + b == b;
    } else {
      assert (a + b)[0] == a[0];
      assert (a + b)[1..] == a[1..] + b;
      TextOfAllConcat(a[1..], b);
    }
  }

  /** However `el` stores the children, the element's text is theirs, in order. */
  lemma TextOfEl(tag: string, style: Style, kids: seq<Node>)
    ensures TextOf(El(tag, style, kids)) == TextOfAll(kids)
  {
    if |kids| == 1 {
      assert kids[1..] == [];
    }
  }

  lemma {:induction false} ShownConcat(a: seq<Node>, b: seq<Node>)
    ensures Shown(a + b) == Shown(a) + Shown(b)
    decreases |a|
  {
    if a == [] {
      assert a + b == b;
    } else {
      assert (a + b)[0] == a[0];
      assert (a + b)[1..] == a[1..] + b;
      ShownConcat(a[1..], b);
    }
  }

  /** Dropping what draws nothing loses no text. */
  lemma {:induction false} TextOfShown(kids: seq<Node>)
    ensures TextOfAll(Shown(kids)) == TextOfAll(kids)
    decreases kids, 0
  {
    if kids != [] {
      TextOfShownOne(kids[0]);
      TextOfShown(kids[1..]);
      TextOfAllConcat(ShownOne(kids[0]), Shown(kids[1..]));
    }
  }

  lemma {:induction false} TextOfShownOne(k: Node)
    ensures TextOfAll(ShownOne(k)) == TextOf(k)
    decreases k, 1
  {
    match k
    case Hole =>
    case Text(t) =>
    case Fragment(items) => TextOfShown(items);
    case Element(_, _, _) =>
  }

  lemma {:induction false} TextsConcat(a: seq<Node>, b: seq<Node>)
    ensures Texts(a + b) == Texts(a) + Texts(b)
  {
  }

  lemma {:induction false} FindConcat(a: seq<Node>, b: seq<Node>, role: string)
    ensures Find(a + b, role) == if Find(a, role).Some? then Find(a, role) else Find(b, role)
  {
    if a == [] {
      assert a + b == b;
    } else {
      assert (a + b)[0] == a[0];
      assert (a + b)[1..] == a[1..] + b;
      FindConcat(a[1..], b, role);
    }
  }

  /** `Find` gives the first element of the role, and nothing exactly when there is none. */
  lemma {:induction false} FindFirst(ns: seq<Node>, role: string)
    ensures Find(ns, role).Some? <==> exists i :: 0 <= i < |ns| && HasRole(ns[i], role)
    ensures Find(ns, role).Some? ==>
      exists i :: 0 <= i < |ns| && ns[i] == Find(ns, role).value && HasRole(ns[i], role)
        && forall j :: 0 <= j < i ==> !HasRole(ns[j], role)
  {
    if ns != [] {
      FindFirst(ns[1..], role);
      assert forall i :: 1 <= i < |ns| ==> ns[i] == ns[1..][i - 1];
      if !HasRole(ns[0], role) && Find(ns, role).Some? {
        var i :| 0 <= i < |ns[1..]| && ns[1..][i] == Find(ns, role).value && HasRole(ns[1..][i], role)
          && forall j :: 0 <= j < i ==> !HasRole(ns[1..][j], role);
        assert ns[i + 1] == ns[1..][i];
        assert forall j :: 0 <= j < i + 1 ==> !HasRole(ns[j], role) by {
          forall j | 0 <= j < i + 1 ensures !HasRole(ns[j], role) {
            if j > 0 { assert ns[j] == ns[1..][j - 1]; }
          }
        }
      }
    }
  }

  lemma ShownOfVisible(kids: seq<Node>)
    requires forall i :: 0 <= i < |kids| ==> Visible(kids[i])
    ensures Shown(kids) == kids
  {
    if kids != [] {
      ShownOfVisible(kids[1..]);
    }
  }
}
