/**
 * The Python objects the decoding and text-encoding services inspect: tensors
 * (only their shape matters here), strings, dictionaries, lists, tuples and
 * anything else. A dictionary lists its entries in insertion order, one per key,
 * as Python keeps them.
 */
module Objects {
  import opened Wrappers
  import opened Text

  datatype Obj =
    | Tensor(shape: seq<nat>)
    | Str(s: string)
    | Dict(entries: seq<(string, Obj)>)
    | List(items: seq<Obj>)
    | Tuple(elements: seq<Obj>)
    | Other(typeName: string)

  /** `d.get(key)` on the entries of a dictionary. */
  function Find(entries: seq<(string, Obj)>, key: string): (r: Option<Obj>)
    ensures r.Some? <==> exists i :: 0 <= i < |entries| && entries[i].0 == key
  {
    if entries == [] then None
    else if entries[0].0 == key then Some(entries[0].1)
    else Find(entries[1..], key)
  }

  /** `isinstance(o, (list, tuple))`. */
  predicate IsSequence(o: Obj) {
    o.List? || o.Tuple?
  }

  function Items(o: Obj): seq<Obj>
    requires IsSequence(o)
  {
    if o.List? then o.items else o.elements
  }

  /** `str(type(o))`. */
  function TypeRepr(o: Obj): string {
    var name := match o
      case Tensor(_) => "torch.Tensor"
      case Str(_) => "str"
      case Dict(_) => "dict"
      case List(_) => "list"
      case Tuple(_) => "tuple"
      case Other(t) => t;
    "<class '" + name + "'>"
  }

  function DecimalStrings(xs: seq<nat>): (r: seq<string>)
    ensures |r| == |xs|
  {
    if xs == [] then [] else [DecimalString(xs[0])] + DecimalStrings(xs[1..])
  }

  /** `str(t.shape)` of a tensor. */
  function SizeRepr(shape: seq<nat>): string {
    "torch.Size([" + Join(DecimalStrings(shape), ", ") + "])"
  }
}
