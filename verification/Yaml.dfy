/** The document tree libyaml hands to the daemon. */
module Yaml {
  import opened Basics

  datatype Node =
    | Scalar(text: string)
    | NullScalar                       // a scalar node without text
    | Sequence(items: seq<Node>)
    | Mapping(pairs: seq<(Node, Node)>)
    | NoNode

  /** The value of the first pair whose key is the scalar `key`. */
  function First(pairs: seq<(Node, Node)>, key: string): Option<Node> {
    if pairs == [] then None
    else if pairs[0].0 == Scalar(key) then Some(pairs[0].1)
    else First(pairs[1..], key)
  }

  function Get(node: Node, key: string): Option<Node> {
    if node.Mapping? then First(node.pairs, key) else None
  }

  function GetText(node: Node, key: string): Option<string> {
    match Get(node, key)
    case Some(Scalar(text)) => Some(text)
    case _ => None
  }

  lemma {:induction false} FirstAt(pairs: seq<(Node, Node)>, j: nat)
    requires j < |pairs| && pairs[j].0.Scalar? && forall h :: 0 <= h < j ==> pairs[h].0 != pairs[j].0
    ensures First(pairs, pairs[j].0.text) == Some(pairs[j].1)
    decreases j
  {
    if j > 0 {
      FirstAt(pairs[1..], j - 1);
    }
  }

  /** The lookup loop. */
  method Find(node: Node, key: string) returns (r: Option<Node>)
    ensures r == Get(node, key)
  {
    if !node.Mapping? {
      return None;
    }
    var i := 0;
    while i < |node.pairs|
      invariant 0 <= i <= |node.pairs|
      invariant First(node.pairs, key) == First(node.pairs[i..], key)
    {
      if node.pairs[i].0 == Scalar(key) {
        return Some(node.pairs[i].1);
      }
      i := i + 1;
    }
    return None;
  }
}
