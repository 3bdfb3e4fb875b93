/** The part of an XML document tree (pugixml's xml_node / xml_attribute) that the
    configuration parser reads: element names, attributes, children in document order. */
module Xml {

  datatype Option<T> = None | Some(value: T)

  /** An attribute: its text, and the integer and floating-point readings of that text
      (as_int / as_uint and as_double), which the XML library computes. */
  datatype Attr = Attr(text: string, asInt: int, asReal: real)

  datatype Node = Node(name: string, attrs: map<string, Attr>, children: seq<Node>, text: string)

  /** The empty node pugixml hands back for a child that does not exist: no name, no
      attributes, no children. */
  const EmptyNode: Node := Node("", map[], [], "")

  /** First node of `cs` named `name` (xml_node::child). */
  function FirstNamed(cs: seq<Node>, name: string): Option<Node> {
    if cs == [] then None
    else if cs[0].name == name then Some(cs[0])
    else FirstNamed(cs[1..], name)
  }

  /** The child found is the first one with that name, and none is found exactly when no
      child has the name. */
  lemma {:induction false} FirstNamedSpec(cs: seq<Node>, name: string)
    ensures var r := FirstNamed(cs, name);
            && (r.None? <==> forall i :: 0 <= i < |cs| ==> cs[i].name != name)
            && (r.Some? ==> exists i :: 0 <= i < |cs| && cs[i] == r.value && r.value.name == name &&
                                        forall j :: 0 <= j < i ==> cs[j].name != name)
  {
    if cs != [] && cs[0].name != name {
      FirstNamedSpec(cs[1..], name);
      assert forall i :: 1 <= i < |cs| ==> cs[1..][i - 1] == cs[i];
      var r := FirstNamed(cs, name);
      if r.Some? {
        var i :| 0 <= i < |cs[1..]| && cs[1..][i] == r.value && r.value.name == name &&
                 forall j :: 0 <= j < i ==> cs[1..][j].name != name;
        assert cs[i + 1] == r.value;
      }
    }
  }

  function Child(n: Node, name: string): Option<Node> {
    FirstNamed(n.children, name)
  }

  /** `node.child(name)` used as a node: the child, or the empty node (with an empty
      name) when missing. */
  function ChildOrEmpty(n: Node, name: string): (c: Node)
    ensures Child(n, name).None? ==> c == EmptyNode && c.name == ""
    ensures Child(n, name).Some? ==> c == Child(n, name).value
  {
    match Child(n, name)
    case Some(c) => c
    case None => EmptyNode
  }

  /** All children named `name`, in document order (child(name), then next_sibling(name)). */
  function ChildrenNamed(cs: seq<Node>, name: string): (r: seq<Node>)
    ensures |r| <= |cs|
    ensures forall k :: 0 <= k < |r| ==> r[k].name == name && r[k] in cs
    ensures forall i :: 0 <= i < |cs| && cs[i].name == name ==> cs[i] in r
  {
    if cs == [] then []
    else ChildrenNamed(cs[..|cs| - 1], name) + (if cs[|cs| - 1].name == name then [cs[|cs| - 1]] else [])
  }

  /** The walk keeps document order: the children named `name` in `a` followed by `b`
      are those in `a` followed by those in `b`. */
  lemma {:induction false} ChildrenNamedAppend(a: seq<Node>, b: seq<Node>, name: string)
    ensures ChildrenNamed(a + b, name) == ChildrenNamed(a, name) + ChildrenNamed(b, name)
    decreases |b|
  {
    if b == [] {
      assert a + b == a;
    } else {
      var init := b[..|b| - 1];
      assert (a + b)[..|a + b| - 1] == a + init;
      ChildrenNamedAppend(a, init, name);
      var tail := if b[|b| - 1].name == name then [b[|b| - 1]] else [];
      assert ChildrenNamed(a + b, name) == ChildrenNamed(a, name) + ChildrenNamed(init, name) + tail;
    }
  }

  /** xml_attribute::as_bool on an existing attribute: true exactly when the text starts
      with one of 1, t, T, y, Y. */
  predicate TextAsBool(s: string) {
    |s| > 0 && (s[0] == '1' || s[0] == 't' || s[0] == 'T' || s[0] == 'y' || s[0] == 'Y')
  }

  /** Attribute readers with the default pugixml returns for a missing attribute. */
  function AttrString(n: Node, a: string, default: string): string {
    if a in n.attrs then n.attrs[a].text else default
  }

  function AttrInt(n: Node, a: string, default: int): int {
    if a in n.attrs then n.attrs[a].asInt else default
  }

  function AttrReal(n: Node, a: string, default: real): real {
    if a in n.attrs then n.attrs[a].asReal else default
  }

  function AttrBool(n: Node, a: string, default: bool): bool {
    if a in n.attrs then TextAsBool(n.attrs[a].text) else default
  }

  /** `node.child(c).attribute("value")` read with a default: the default applies
      both when the child and when its attribute is missing. */
  function ChildValueInt(n: Node, c: string, default: int): (v: int)
    ensures Child(n, c).None? ==> v == default
  {
    AttrInt(ChildOrEmpty(n, c), "value", default)
  }

  function ChildValueReal(n: Node, c: string, default: real): (v: real)
    ensures Child(n, c).None? ==> v == default
  {
    AttrReal(ChildOrEmpty(n, c), "value", default)
  }
}
