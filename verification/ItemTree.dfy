/** Items and what they contain, as trees with cached weights. */
module ItemTree {
  import opened Common
  import opened ItemCodec

  // `totalWeight` is the cached weight of a container's contents.
  datatype Tree = Tree(props: Props, kids: seq<Tree>, totalWeight: int)

  // Item::getWeight of the item alone
  function PropsWeight(types: Types, x: Props): int {
    StackWeight(types(x.id).stackable, types(x.id).weight, x.count)
  }

  // Container::getWeight, which relies on the cached weight
  function Weight(types: Types, x: Tree): int {
    PropsWeight(types, x.props) + x.totalWeight
  }

  function WeightSum(types: Types, xs: seq<Tree>): int {
    if xs == [] then 0 else Weight(types, xs[0]) + WeightSum(types, xs[1..])
  }

  // The weight of a tree, counted through.
  function TrueWeight(types: Types, x: Tree): int {
    PropsWeight(types, x.props) + TrueWeights(types, x.kids)
  }

  function TrueWeights(types: Types, xs: seq<Tree>): int {
    if xs == [] then 0 else TrueWeight(types, xs[0]) + TrueWeights(types, xs[1..])
  }

  // Every cached weight in the tree is the true weight of the contents.
  predicate WeightsRight(types: Types, x: Tree) {
    x.totalWeight == TrueWeights(types, x.kids) && forall k <- x.kids :: WeightsRight(types, k)
  }

  // The number of items in a list of trees.
  function Nodes(xs: seq<Tree>): nat {
    if xs == [] then 0 else 1 + Nodes(xs[0].kids) + Nodes(xs[1..])
  }
}
