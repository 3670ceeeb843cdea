/** The configuration document as the XML parser hands it over: an immutable tree of
    named elements with string attributes and ordered children. */
module ConfigNodes {
  import opened Results

  /** A `java.util.Properties` bag: unique string keys mapped to string values. */
  type Props = map<string, string>

  datatype Node = Node(name: string, attributes: map<string, string>, children: seq<Node>)

  /** `XNode.getStringAttribute(key)`: the attribute value, or null when it is absent. */
  function Attr(n: Node, key: string): Option<string>
  {
    Lookup(n.attributes, key)
  }

  /** `XNode.evalNode(name)` for a relative element name: the first child so named. */
  function Child(n: Node, name: string): (r: Option<Node>)
    ensures r.Some? ==> r.value in n.children && r.value.name == name
    ensures r.None? <==> forall i :: 0 <= i < |n.children| ==> n.children[i].name != name
  {
    FirstNamed(n.children, name)
  }

  /** The first element of `cs` named `name`: every element before it has another name. */
  function FirstNamed(cs: seq<Node>, name: string): (r: Option<Node>)
    ensures r.Some? ==> r.value in cs && r.value.name == name
    ensures r.Some? ==> exists k :: && 0 <= k < |cs| && cs[k] == r.value
                                    && forall i :: 0 <= i < k ==> cs[i].name != name
    ensures r.None? <==> forall i :: 0 <= i < |cs| ==> cs[i].name != name
  {
    if |cs| == 0 then None
    else if cs[0].name == name then Some(cs[0])
    else
      var r := FirstNamed(cs[1..], name);
      assert forall i :: 1 <= i < |cs| ==> cs[i] == cs[1..][i - 1];
      if r.Some? then
        var k :| && 0 <= k < |cs[1..]| && cs[1..][k] == r.value
                 && forall i :: 0 <= i < k ==> cs[1..][i].name != name;
        assert cs[k + 1] == r.value && forall i :: 0 <= i < k + 1 ==> cs[i].name != name;
        r
      else r
  }

  /** `XNode.getChildrenAsProperties()`: every child carrying both a `name` and a `value`
      attribute contributes that pair; a later child overrides an earlier one with the
      same name. */
  function ChildProps(n: Node): Props
  {
    PairsAsProps(n.children)
  }

  function PairsAsProps(cs: seq<Node>): (p: Props)
    ensures forall k :: k in p ==> exists i :: 0 <= i < |cs| && Attr(cs[i], "name") == Some(k)
  {
    if |cs| == 0 then map[]
    else
      var earlier := PairsAsProps(cs[..|cs| - 1]);
      var last := cs[|cs| - 1];
      assert forall i :: 0 <= i < |cs| - 1 ==> cs[..|cs| - 1][i] == cs[i];
      match (Attr(last, "name"), Attr(last, "value"))
      case (Some(k), Some(v)) => earlier[k := v]
      case _ => earlier
  }
}
