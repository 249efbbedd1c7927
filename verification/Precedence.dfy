/** Configuration layers merged from lowest to highest precedence. */
module Precedence {
  import opened Domain

  type Fields = map<string, Json>

  /** Objects are merged key by key; any other value of the layer replaces what was there. */
  function Merged(target: Fields, layer: Json): (r: Fields)
    requires layer.Object?
    ensures r.Keys == target.Keys + layer.fields.Keys
    decreases layer
  {
    map key | key in target.Keys + layer.fields.Keys ::
      if key !in layer.fields then target[key]
      else if layer.fields[key].Object? && key in target && target[key].Object?
      then Object(Merged(target[key].fields, layer.fields[key]))
      else layer.fields[key]
  }

  function MergedLayers(layers: seq<Fields>): Fields
    decreases |layers|
  {
    if layers == [] then map[] else Merged(MergedLayers(layers[..|layers| - 1]), Object(layers[|layers| - 1]))
  }

  // ----- The merge in place -----

  /** A dictionary entry: a value other than a dictionary, or a nested dictionary. */
  datatype Slot = Plain(value: Json) | Child(node: Dict)

  /** A dictionary that the merge owns, with everything nested in it. */
  class Dict {
    var fields: map<string, Slot>
    ghost var Repr: set<Dict>

    /** The nested dictionaries form a tree. */
    ghost predicate Valid()
      reads this, Repr
      decreases Repr
    {
      && this in Repr
      && (forall key | key in fields && fields[key].Plain? :: !fields[key].value.Object?)
      && (forall key | key in fields && fields[key].Child? ::
            && fields[key].node in Repr && fields[key].node.Repr < Repr && this !in fields[key].node.Repr
            && fields[key].node.Valid())
      && (forall a, b | a in fields && b in fields && a != b && fields[a].Child? && fields[b].Child? ::
            fields[a].node.Repr !! fields[b].node.Repr)
    }

    ghost function Contents(): Fields
      reads this, Repr
      requires Valid()
      decreases Repr, 1
    {
      map key | key in fields :: Entry(key)
    }

    ghost function Entry(key: string): Json
      reads this, Repr
      requires Valid() && key in fields
      decreases Repr, 0
    {
      if fields[key].Plain? then fields[key].value else Object(fields[key].node.Contents())
    }

    constructor ()
      ensures Valid() && fresh(Repr) && Contents() == map[]
    {
      fields := map[];
      Repr := {this};
    }

    /** Writes a value that is not a dictionary. */
    method PutPlain(key: string, value: Json)
      requires Valid() && !value.Object?
      modifies this
      ensures Valid() && Repr == old(Repr) && Contents() == old(Contents())[key := value]
    {
      fields := fields[key := Plain(value)];
    }

    /** Writes a nested dictionary, which becomes part of this one. */
    method PutChild(key: string, node: Dict)
      requires Valid() && node.Valid() && node.Repr !! Repr
      modifies this
      ensures Valid() && Repr == old(Repr) + node.Repr
      ensures Contents() == old(Contents())[key := Object(old(node.Contents()))]
    {
      fields := fields[key := Child(node)];
      Repr := Repr + node.Repr;
    }

    /** Merges into a nested dictionary, in place. */
    method MergeChild(key: string, source: Dict)
      requires Valid() && key in fields && fields[key].Child?
      requires source.Valid() && source.Repr !! Repr
      modifies Repr
      ensures Valid() && fresh(Repr - old(Repr))
      ensures Contents() ==
              old(Contents())[key := Object(Merged(old(fields[key].node.Contents()), Object(old(source.Contents()))))]
      decreases source.Repr, 4
    {
      var node := fields[key].node;
      node.MergeObject(source);
      Repr := Repr + node.Repr;
    }

    /** Writes a `deepcopy` of an entry; a dictionary is copied with everything nested in it. */
    method PutCopy(key: string, slot: Slot)
      requires Valid()
      requires slot.Plain? ==> !slot.value.Object?
      requires slot.Child? ==> slot.node.Valid() && slot.node.Repr !! Repr
      modifies this
      ensures Valid() && fresh(Repr - old(Repr))
      ensures Contents() ==
              old(Contents())[key := if slot.Plain? then slot.value else Object(old(slot.node.Contents()))]
      decreases if slot.Child? then slot.node.Repr else {}, 5
    {
      match slot
      case Child(source) =>
        var node := Copied(source);
        PutChild(key, node);
      case Plain(value) =>
        PutPlain(key, value);
    }

    /** Writes one entry of a layer. */
    method MergeKey(key: string, source: Dict)
      requires Valid() && source.Valid() && source.Repr !! Repr && key in source.fields
      modifies Repr
      ensures Valid() && fresh(Repr - old(Repr))
      ensures source.Valid() && source.Repr == old(source.Repr) && source.fields == old(source.fields)
      ensures source.Contents() == old(source.Contents())
      ensures Contents() == old(Contents())[key := Merged(old(Contents()), Object(source.Contents()))[key]]
      decreases source.Repr, 2
    {
      var slot := source.fields[key];
      if slot.Child? && key in fields && fields[key].Child? {
        MergeChild(key, slot.node);
      } else {
        PutCopy(key, slot);
      }
    }

    /** Writes a layer's entries into this dictionary one by one, in any order. The layer is not
        changed, and shares no dictionary with this one afterwards. */
    method MergeObject(source: Dict)
      requires Valid() && source.Valid() && source.Repr !! Repr
      modifies Repr
      ensures Valid() && fresh(Repr - old(Repr))
      ensures source.Valid() && source.Repr == old(source.Repr) && source.Contents() == old(source.Contents())
      ensures Contents() == Merged(old(Contents()), Object(source.Contents()))
      decreases source.Repr, 3
    {
      ghost var target, layer := Contents(), Object(source.Contents());
      var pending := source.fields.Keys;
      while pending != {}
        invariant pending <= source.fields.Keys
        invariant Valid() && fresh(Repr - old(Repr))
        invariant source.Valid() && source.Repr == old(source.Repr) && source.fields == old(source.fields)
        invariant source.Contents() == layer.fields
        invariant Contents() == Partly(target, layer, pending)
        decreases pending
      {
        var key :| key in pending;
        PartlyStep(target, layer, pending, key);
        MergeKey(key, source);
        pending := pending - {key};
      }
    }
  }

  /** `deepcopy` of a dictionary. */
  method Copied(source: Dict) returns (node: Dict)
    requires source.Valid()
    ensures node.Valid() && fresh(node.Repr) && node.Contents() == source.Contents()
    decreases source.Repr, 4
  {
    node := new Dict();
    node.MergeObject(source);
  }

  /** The merge with the keys in `pending` still to be written. */
  ghost function Partly(target: Fields, layer: Json, pending: set<string>): Fields
    requires layer.Object?
  {
    map key | key in target.Keys + (layer.fields.Keys - pending) ::
      if key in layer.fields && key !in pending then Merged(target, layer)[key] else target[key]
  }

  lemma PartlyStep(target: Fields, layer: Json, pending: set<string>, key: string)
    requires layer.Object? && key in pending && pending <= layer.fields.Keys
    ensures Partly(target, layer, pending - {key}) == Partly(target, layer, pending)[key := Merged(target, layer)[key]]
    ensures key in Partly(target, layer, pending) <==> key in target
    ensures key in target ==> Partly(target, layer, pending)[key] == target[key]
    ensures Merged(Partly(target, layer, pending), layer)[key] == Merged(target, layer)[key]
  {
  }

  ghost function ContentsOf(layers: seq<Dict>): seq<Fields>
    reads layers, set layer, d | layer in layers && d in layer.Repr :: d
    requires forall i | 0 <= i < |layers| :: layers[i].Valid()
  {
    seq(|layers|, i requires 0 <= i < |layers| && layers[i].Valid()
                    reads if 0 <= i < |layers| then {layers[i]} + layers[i].Repr else {}
                  => layers[i].Contents())
  }

  /** The merge of all layers is a new dictionary. No layer is changed, and none shares a dictionary with
      the result, so that writing into the result later cannot reach a layer either. */
  method MergeConfigPrecedence(layers: seq<Dict>) returns (result: Dict)
    requires forall i | 0 <= i < |layers| :: layers[i].Valid()
    ensures result.Valid() && fresh(result.Repr)
    ensures forall i | 0 <= i < |layers| :: layers[i].Valid() && layers[i].Repr !! result.Repr
    ensures ContentsOf(layers) == old(ContentsOf(layers))
    ensures result.Contents() == MergedLayers(ContentsOf(layers))
  {
    result := new Dict();
    for i := 0 to |layers|
      invariant result.Valid() && fresh(result.Repr)
      invariant forall j | 0 <= j < |layers| :: layers[j].Valid()
      invariant ContentsOf(layers) == old(ContentsOf(layers))
      invariant result.Contents() == MergedLayers(ContentsOf(layers)[..i])
    {
      ghost var contents := ContentsOf(layers);
      assert contents[..i + 1][..i] == contents[..i];
      result.MergeObject(layers[i]);
    }
    assert ContentsOf(layers)[..|layers|] == ContentsOf(layers);
  }

  // ----- Paths -----

  /** What a value holds at a path: nothing; a value that is not an object; an object; or nothing because
      a value that is not an object stands at a proper prefix. */
  datatype Found = Untouched | Leaf(value: Json) | Nested | Cut

  function Probe(v: Json, path: seq<string>): Found
    decreases |path|
  {
    if path == [] then (if v.Object? then Nested else Leaf(v))
    else if !v.Object? then Cut
    else if path[0] !in v.fields then Untouched
    else Probe(v.fields[path[0]], path[1..])
  }

  /** A cut path is as absent as an untouched one. */
  function Present(f: Found): Found {
    if f.Cut? then Untouched else f
  }

  /** What one layer does to a path: it decides it, or leaves it as it was. */
  lemma {:induction false} MergeProbe(target: Fields, layer: Json, path: seq<string>)
    requires layer.Object?
    ensures var now := Probe(Object(Merged(target, layer)), path);
            var said := Probe(layer, path);
            if said.Untouched? then Present(now) == Present(Probe(Object(target), path)) else now == said
    decreases |path|
  {
    if path != [] && path[0] in layer.fields {
      var value := layer.fields[path[0]];
      if value.Object? && path[0] in target && target[path[0]].Object? {
        MergeProbe(target[path[0]].fields, value, path[1..]);
      } else if value.Object? && path[0] in target && |path| > 1 {
        assert Probe(target[path[0]], path[1..]) == Cut;
      }
    }
  }

  predicate Touches(layer: Fields, path: seq<string>) {
    !Probe(Object(layer), path).Untouched?
  }

  /** At every path the merge holds what the last layer that touches the path says: that layer's value,
      an object where it has an object, nothing where it cuts the path off. A path that no layer touches
      is absent. */
  lemma {:induction false} LastTouchDecides(layers: seq<Fields>, path: seq<string>, i: int)
    requires path != [] && -1 <= i < |layers|
    requires i >= 0 ==> Touches(layers[i], path)
    requires forall j | i < j < |layers| :: !Touches(layers[j], path)
    ensures Present(Probe(Object(MergedLayers(layers)), path))
            == if i < 0 then Untouched else Present(Probe(Object(layers[i]), path))
    decreases |layers|
  {
    if layers != [] {
      var k := |layers| - 1;
      MergeProbe(MergedLayers(layers[..k]), Object(layers[k]), path);
      if i < k {
        LastTouchDecides(layers[..k], path, i);
      }
    }
  }

  /** What is present at all paths determines a value, so that the rule above leaves no freedom. */
  lemma {:induction false} PathsDetermine(a: Json, b: Json)
    requires forall path :: Present(Probe(a, path)) == Present(Probe(b, path))
    ensures a == b
    decreases a
  {
    assert Present(Probe(a, [])) == Present(Probe(b, []));
    if a.Object? {
      forall key ensures key in a.fields <==> key in b.fields {
        assert Present(Probe(a, [key])) == Present(Probe(b, [key]));
        assert [key][0] == key && [key][1..] == [];
        assert Probe(a, [key]).Untouched? <==> key !in a.fields;
        assert Probe(b, [key]).Untouched? <==> key !in b.fields;
      }
      forall key | key in a.fields ensures a.fields[key] == b.fields[key] {
        forall path ensures Present(Probe(a.fields[key], path)) == Present(Probe(b.fields[key], path)) {
          assert Present(Probe(a, [key] + path)) == Present(Probe(b, [key] + path));
          assert ([key] + path)[1..] == path;
        }
        PathsDetermine(a.fields[key], b.fields[key]);
      }
      assert a.fields == b.fields;
    }
  }

  /** Merging the last layer again changes nothing. */
  lemma RemergeChangesNothing(layers: seq<Fields>)
    requires layers != []
    ensures Merged(MergedLayers(layers), Object(layers[|layers| - 1])) == MergedLayers(layers)
  {
    var target, layer := MergedLayers(layers[..|layers| - 1]), Object(layers[|layers| - 1]);
    var once := Merged(target, layer);
    forall path ensures Present(Probe(Object(Merged(once, layer)), path)) == Present(Probe(Object(once), path)) {
      MergeProbe(target, layer, path);
      MergeProbe(once, layer, path);
    }
    PathsDetermine(Object(Merged(once, layer)), Object(once));
  }
}
