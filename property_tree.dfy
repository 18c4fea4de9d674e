/**
 * The subset of boost's property tree that the material codec uses. A tree
 * holds a data string and an ordered sequence of (key, child) pairs in which a
 * key may appear more than once; a JSON array is a node whose children all
 * have the empty key. Every key used here is a single path fragment.
 */
module PropertyTree {
  import opened Wrappers

  datatype Tree = Tree(data: string, children: seq<(string, Tree)>)

  /** A default-constructed tree: no data, no children. */
  const Empty := Tree("", [])

  /** A node that carries only a value, as an element of a JSON array. */
  function Leaf(data: string): Tree {
    Tree(data, [])
  }

  ghost predicate HasKey(t: Tree, key: string) {
    exists j :: 0 <= j < |t.children| && t.children[j].0 == key
  }

  /** Position of the first child stored under `key`. */
  function FindIndex(children: seq<(string, Tree)>, key: string): (r: Option<nat>)
    ensures r.Some? ==> r.value < |children| && children[r.value].0 == key
    ensures r.Some? ==> forall j :: 0 <= j < r.value ==> children[j].0 != key
    ensures r.None? <==> forall j :: 0 <= j < |children| ==> children[j].0 != key
  {
    if children == [] then None
    else if children[0].0 == key then Some(0)
    else match FindIndex(children[1..], key)
      case None => None
      case Some(i) => Some(i + 1)
  }

  /** `get_child_optional(key)`: the first child stored under `key`, if any. */
  function GetChildOptional(t: Tree, key: string): (r: Option<Tree>)
    ensures r.None? <==> !HasKey(t, key)
    ensures r.Some? ==> exists j :: && 0 <= j < |t.children| && t.children[j] == (key, r.value)
                                    && forall k :: 0 <= k < j ==> t.children[k].0 != key
  {
    match FindIndex(t.children, key)
    case None => None
    case Some(i) => Some(t.children[i].1)
  }

  /**
   * `get<T>(key, default)`: the first child's data converted by `parse`; the
   * default when there is no such child or its data does not convert.
   */
  function GetOr<T>(t: Tree, key: string, parse: string -> Option<T>, default: T): (r: T)
    ensures !HasKey(t, key) ==> r == default
    ensures forall c :: GetChildOptional(t, key) == Some(c) && parse(c.data).Some? ==> r == parse(c.data).value
    ensures forall c :: GetChildOptional(t, key) == Some(c) && parse(c.data).None? ==> r == default
  {
    match GetChildOptional(t, key)
    case None => default
    case Some(c) =>
      match parse(c.data)
      case None => default
      case Some(v) => v
  }

  /** `get<std::string>(key, default)`: the first child's data, or the default. */
  function GetString(t: Tree, key: string, default: string): (r: string)
    ensures !HasKey(t, key) ==> r == default
    ensures forall c :: GetChildOptional(t, key) == Some(c) ==> r == c.data
  {
    match GetChildOptional(t, key)
    case None => default
    case Some(c) => c.data
  }

  /**
   * `put(key, data)`: sets the data of the first child under `key`, keeping its
   * children, or appends a new leaf when there is none.
   */
  function Put(t: Tree, key: string, data: string): (r: Tree)
    ensures r.data == t.data
    ensures !HasKey(t, key) ==> r.children == t.children + [(key, Leaf(data))]
    ensures HasKey(t, key) ==>
              exists i :: && 0 <= i < |t.children| && t.children[i].0 == key
                          && (forall k :: 0 <= k < i ==> t.children[k].0 != key)
                          && r.children == t.children[i := (key, t.children[i].1.(data := data))]
  {
    match FindIndex(t.children, key)
    case None => Tree(t.data, t.children + [(key, Leaf(data))])
    case Some(i) =>
      Tree(t.data, t.children[i := (key, t.children[i].1.(data := data))])
  }

  /** `add_child(key, child)` and `push_back((key, child))`: always appends. */
  function AddChild(t: Tree, key: string, child: Tree): (r: Tree)
    ensures r.data == t.data
    ensures |r.children| == |t.children| + 1 && r.children[|t.children|] == (key, child)
    ensures forall j :: 0 <= j < |t.children| ==> r.children[j] == t.children[j]
  {
    Tree(t.data, t.children + [(key, child)])
  }

  /** After `put(key, data)`, reading `key` yields the data that was put. */
  lemma GetAfterPut(t: Tree, key: string, data: string)
    ensures GetChildOptional(Put(t, key, data), key).Some?
    ensures GetChildOptional(Put(t, key, data), key).value.data == data
  {
    var r := Put(t, key, data);
    match FindIndex(t.children, key)
    case None =>
      FindAppended(t.children, key, Leaf(data));
    case Some(i) =>
      FindAfterUpdate(t.children, key, i, (key, t.children[i].1.(data := data)));
  }

  /** `put(key, …)` leaves every other key's first child as it was. */
  lemma GetOtherAfterPut(t: Tree, key: string, data: string, other: string)
    requires other != key
    ensures GetChildOptional(Put(t, key, data), other) == GetChildOptional(t, other)
  {
    match FindIndex(t.children, key)
    case None =>
      FindAppendedOther(t.children, other, (key, Leaf(data)));
    case Some(i) =>
      FindAfterUpdateOther(t.children, other, i, (key, t.children[i].1.(data := data)));
  }

  /**
   * `add_child(key, child)` makes `child` what `key` reads only if `key` was
   * absent; otherwise the earlier child still shadows it. Other keys are unaffected.
   */
  lemma GetAfterAddChild(t: Tree, key: string, child: Tree, other: string)
    ensures GetChildOptional(AddChild(t, key, child), key)
         == (if HasKey(t, key) then GetChildOptional(t, key) else Some(child))
    ensures other != key ==>
            GetChildOptional(AddChild(t, key, child), other) == GetChildOptional(t, other)
  {
    FindAppended(t.children, key, child);
    if other != key {
      FindAppendedOther(t.children, other, (key, child));
    }
  }

  /** `GetOtherAfterPut` for every other key at once. */
  lemma PutKeepsOthers(t: Tree, key: string, data: string)
    ensures forall other :: other != key ==>
              GetChildOptional(Put(t, key, data), other) == GetChildOptional(t, other)
  {
    forall other | other != key
      ensures GetChildOptional(Put(t, key, data), other) == GetChildOptional(t, other)
    {
      GetOtherAfterPut(t, key, data, other);
    }
  }

  /** The second half of `GetAfterAddChild` for every other key at once. */
  lemma AddChildKeepsOthers(t: Tree, key: string, child: Tree)
    ensures forall other :: other != key ==>
              GetChildOptional(AddChild(t, key, child), other) == GetChildOptional(t, other)
  {
    forall other | other != key
      ensures GetChildOptional(AddChild(t, key, child), other) == GetChildOptional(t, other)
    {
      GetAfterAddChild(t, key, child, other);
    }
  }

  lemma FindAppended(cs: seq<(string, Tree)>, key: string, child: Tree)
    ensures FindIndex(cs + [(key, child)], key)
         == if FindIndex(cs, key).Some? then FindIndex(cs, key) else Some(|cs|)
  {
    var r := FindIndex(cs + [(key, child)], key);
    match FindIndex(cs, key)
    case Some(i) =>
      assert (cs + [(key, child)])[i] == cs[i];
    case None =>
      assert (cs + [(key, child)])[|cs|] == (key, child);
  }

  lemma FindAppendedOther(cs: seq<(string, Tree)>, other: string, pair: (string, Tree))
    requires pair.0 != other
    ensures FindIndex(cs + [pair], other) == FindIndex(cs, other)
  {
    var r := FindIndex(cs + [pair], other);
    match FindIndex(cs, other)
    case Some(i) =>
      assert (cs + [pair])[i] == cs[i];
    case None =>
  }

  lemma FindAfterUpdate(cs: seq<(string, Tree)>, key: string, i: nat, pair: (string, Tree))
    requires FindIndex(cs, key) == Some(i) && pair.0 == key
    ensures FindIndex(cs[i := pair], key) == Some(i)
  {
    var r := FindIndex(cs[i := pair], key);
    assert cs[i := pair][i].0 == key;
  }

  lemma FindAfterUpdateOther(cs: seq<(string, Tree)>, other: string, i: nat, pair: (string, Tree))
    requires i < |cs| && cs[i].0 == pair.0 && pair.0 != other
    ensures FindIndex(cs[i := pair], other) == FindIndex(cs, other)
  {
    var r := FindIndex(cs[i := pair], other);
    match FindIndex(cs, other)
    case Some(k) =>
      assert cs[i := pair][k] == cs[k];
    case None =>
  }
}
