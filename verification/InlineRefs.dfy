/** Inlining of local references in a tool schema (internal/provider/grok/sanitize.go, inlineRefs). */
module InlineRefs {
  import opened Json

  type Fields = map<string, Json>

  /** The text after the last slash. */
  function LastSegment(ref: string): (r: string)
    ensures '/' !in r && |r| <= |ref| && r == ref[|ref| - |r|..]
    ensures |r| == |ref| || ref[|ref| - |r| - 1] == '/'
  {
    if ref == "" || ref[|ref| - 1] == '/' then ""
    else LastSegment(ref[..|ref| - 1]) + [ref[|ref| - 1]]
  }

  predicate IsLocal(ref: string) {
    "#/$defs/" <= ref || "#/definitions/" <= ref
  }

  predicate IsRefNode(fields: Fields) {
    IsLocal(AsStr(Get(fields, "$ref")))
  }

  predicate IsDefsKey(key: string) {
    key == "$defs" || key == "definitions"
  }

  function Target(fields: Fields): string {
    LastSegment(AsStr(Get(fields, "$ref")))
  }

  const CUT := Obj(map["type" := Str("object"), "properties" := Obj(map[])])

  /** The resolved definition with the siblings of the reference laid over it. */
  function Overlay(resolved: Json, fields: Fields): Json {
    Obj(AsMap(resolved) + (fields - {"$ref"}))
  }

  /** The walk, with the keys being expanded in `seen`. */
  function Expand(defs: Fields, seen: set<string>, node: Json): Json
    decreases |defs.Keys - seen|, node
  {
    match node
    case Arr(items) => Arr(seq(|items|, i requires 0 <= i < |items| => Expand(defs, seen, items[i])))
    case Obj(fields) =>
      if IsRefNode(fields) then
        var key := Target(fields);
        if key in seen then CUT
        else if key in defs then
          Fewer(defs.Keys, seen, key);
          Overlay(Expand(defs, seen + {key}, defs[key]), fields)
        else Overlay(Null, fields)
      else Obj(map k | k in fields && !IsDefsKey(k) :: Expand(defs, seen, fields[k]))
    case _ => node
  }

  lemma {:induction false} Fewer(keys: set<string>, seen: set<string>, key: string)
    requires key in keys && key !in seen
    ensures |keys - (seen + {key})| < |keys - seen|
  {
    assert keys - seen == (keys - (seen + {key})) + {key};
  }

  function Definitions(root: Fields): Fields {
    var defs := AsMap(Get(root, "$defs"));
    if |defs| == 0 then AsMap(Get(root, "definitions")) else defs
  }

  function Inlined(schema: Json): Json {
    if schema.Obj? then Expand(Definitions(schema.fields), {}, schema) else schema
  }

  /** The closure of inlineRefs, with `seen` edited in place around each expansion. */
  class Walker {
    const defs: Fields
    var seen: set<string>

    constructor (defs: Fields)
      ensures this.defs == defs && seen == {}
    {
      this.defs := defs;
      seen := {};
    }

    method Walk(node: Json) returns (r: Json)
      modifies this`seen
      ensures seen == old(seen)
      ensures r == Expand(defs, seen, node)
      decreases |defs.Keys - seen|, node, 1
    {
      hide IsRefNode, Target, Overlay;
      match node {
        case Arr(items) => r := WalkItems(node);
        case Obj(fields) =>
          if IsRefNode(fields) {
            var key := Target(fields);
            if key in seen {
              return CUT;
            }
            var resolved := Null;
            if key in defs {
              Fewer(defs.Keys, seen, key);
              seen := seen + {key};
              resolved := Walk(defs[key]);
              seen := seen - {key};
            }
            r := Overlay(resolved, fields);
          } else {
            r := WalkFields(node);
          }
        case _ => r := node;
      }
    }

    method WalkItems(node: Json) returns (r: Json)
      requires node.Arr?
      modifies this`seen
      ensures seen == old(seen)
      ensures r == Expand(defs, seen, node)
      decreases |defs.Keys - seen|, node, 0
    {
      var out: seq<Json> := [];
      for i := 0 to |node.items|
        invariant seen == old(seen)
        invariant |out| == i && forall j :: 0 <= j < i ==> out[j] == Expand(defs, seen, node.items[j])
      {
        var v := Walk(node.items[i]);
        out := out + [v];
      }
      r := Arr(out);
    }

    method WalkFields(node: Json) returns (r: Json)
      requires node.Obj? && !IsRefNode(node.fields)
      modifies this`seen
      ensures seen == old(seen)
      ensures r == Expand(defs, seen, node)
      decreases |defs.Keys - seen|, node, 0
    {
      var out: Fields, todo := map[], node.fields.Keys;
      while todo != {}
        invariant seen == old(seen) && todo <= node.fields.Keys
        invariant forall k :: k in out <==> k in node.fields && k !in todo && !IsDefsKey(k)
        invariant forall k :: k in out ==> out[k] == Expand(defs, seen, node.fields[k])
        decreases todo
      {
        var k :| k in todo;
        todo := todo - {k};
        if IsDefsKey(k) {
          continue;
        }
        var v := Walk(node.fields[k]);
        out := out[k := v];
      }
      r := Obj(out);
    }
  }

  method Inline(schema: Json) returns (r: Json)
    ensures r == Inlined(schema)
  {
    if !schema.Obj? {
      return schema;
    }
    var defs := AsMap(Get(schema.fields, "$defs"));
    if |defs| == 0 {
      defs := AsMap(Get(schema.fields, "definitions"));
    }
    var walker := new Walker(defs);
    r := walker.Walk(schema);
  }

  // ---------------------------------------------------------------------------------------------
  // Plain substitution
  // ---------------------------------------------------------------------------------------------

  /** References replaced by their definitions and nothing else, nested at most `depth` deep; None when that is not enough. */
  datatype Unfolding = None | Some(value: Json)

  function Unfold(defs: Fields, depth: nat, node: Json): Unfolding
    decreases depth, node
  {
    match node
    case Arr(items) =>
      if forall i :: 0 <= i < |items| ==> Unfold(defs, depth, items[i]).Some? then
        Some(Arr(seq(|items|, i requires 0 <= i < |items| => Unfold(defs, depth, items[i]).value)))
      else None
    case Obj(fields) =>
      if IsRefNode(fields) then
        var key := Target(fields);
        if key !in defs then Some(Overlay(Null, fields))
        else if depth == 0 then None
        else
          (match Unfold(defs, depth - 1, defs[key])
           case Some(resolved) => Some(Overlay(resolved, fields))
           case None => None)
      else if forall k :: k in fields && !IsDefsKey(k) ==> Unfold(defs, depth, fields[k]).Some? then
        Some(Obj(map k | k in fields && !IsDefsKey(k) :: Unfold(defs, depth, fields[k]).value))
      else None
    case _ => Some(node)
  }

  /** The walk meets a reference to a definition it is inside of. */
  predicate Cuts(defs: Fields, seen: set<string>, node: Json)
    decreases |defs.Keys - seen|, node
  {
    match node
    case Arr(items) => exists i :: 0 <= i < |items| && Cuts(defs, seen, items[i])
    case Obj(fields) =>
      if IsRefNode(fields) then
        var key := Target(fields);
        if key in seen then true
        else if key in defs then
          Fewer(defs.Keys, seen, key);
          Cuts(defs, seen + {key}, defs[key])
        else false
      else exists k :: k in fields && !IsDefsKey(k) && Cuts(defs, seen, fields[k])
    case _ => false
  }

  lemma {:induction false} UnfoldItems(defs: Fields, seen: set<string>, depth: nat, items: seq<Json>)
    requires forall i :: 0 <= i < |items| ==> Unfold(defs, depth, items[i]) == Some(Expand(defs, seen, items[i]))
    ensures Unfold(defs, depth, Arr(items)) == Some(Expand(defs, seen, Arr(items)))
  {
    assert Unfold(defs, depth, Arr(items)).value.items == Expand(defs, seen, Arr(items)).items;
  }

  lemma {:induction false} UnfoldFields(defs: Fields, seen: set<string>, depth: nat, fields: Fields)
    requires !IsRefNode(fields)
    requires forall k :: k in fields && !IsDefsKey(k) ==> Unfold(defs, depth, fields[k]) == Some(Expand(defs, seen, fields[k]))
    ensures Unfold(defs, depth, Obj(fields)) == Some(Expand(defs, seen, Obj(fields)))
  {
    hide IsRefNode, IsDefsKey;
    assert Unfold(defs, depth, Obj(fields)).value.fields == Expand(defs, seen, Obj(fields)).fields;
  }

  lemma {:induction false} UnfoldRef(defs: Fields, seen: set<string>, fields: Fields)
    requires IsRefNode(fields) && Target(fields) in defs && Target(fields) !in seen
    requires var inner := seen + {Target(fields)};
             Unfold(defs, |defs.Keys - inner|, defs[Target(fields)]) == Some(Expand(defs, inner, defs[Target(fields)]))
    ensures Unfold(defs, |defs.Keys - seen|, Obj(fields)) == Some(Expand(defs, seen, Obj(fields)))
  {
    hide IsRefNode, Target, Overlay;
    var key := Target(fields);
    Fewer(defs.Keys, seen, key);
    assert defs.Keys - seen == (defs.Keys - (seen + {key})) + {key};
  }

  /** A walk that never cuts is the plain substitution, as deep as there are definitions left. */
  lemma {:induction false} UncutIsUnfolding(defs: Fields, seen: set<string>, node: Json)
    requires !Cuts(defs, seen, node)
    ensures Unfold(defs, |defs.Keys - seen|, node) == Some(Expand(defs, seen, node))
    decreases |defs.Keys - seen|, node
  {
    hide IsRefNode, Target, Overlay, IsDefsKey;
    var depth := |defs.Keys - seen|;
    match node
    case Arr(items) =>
      hide Unfold, Expand;
      forall i | 0 <= i < |items|
        ensures Unfold(defs, depth, items[i]) == Some(Expand(defs, seen, items[i]))
      {
        UncutIsUnfolding(defs, seen, items[i]);
      }
      UnfoldItems(defs, seen, depth, items);
    case Obj(fields) =>
      if !IsRefNode(fields) {
        hide Unfold, Expand;
        forall k | k in fields && !IsDefsKey(k)
          ensures Unfold(defs, depth, fields[k]) == Some(Expand(defs, seen, fields[k]))
        {
          UncutIsUnfolding(defs, seen, fields[k]);
        }
        UnfoldFields(defs, seen, depth, fields);
      } else if Target(fields) in defs {
        hide Unfold, Expand;
        Fewer(defs.Keys, seen, Target(fields));
        UncutIsUnfolding(defs, seen + {Target(fields)}, defs[Target(fields)]);
        UnfoldRef(defs, seen, fields);
      }
    case _ =>
  }

  /** More depth changes nothing once there is enough. */
  lemma {:induction false} DeeperIsSame(defs: Fields, depth: nat, more: nat, node: Json)
    requires depth <= more && Unfold(defs, depth, node).Some?
    ensures Unfold(defs, more, node) == Unfold(defs, depth, node)
    decreases depth, node
  {
    hide IsRefNode, Target, Overlay, IsDefsKey;
    match node
    case Arr(items) =>
      forall i | 0 <= i < |items|
        ensures Unfold(defs, more, items[i]) == Unfold(defs, depth, items[i])
      {
        DeeperIsSame(defs, depth, more, items[i]);
      }
      assert Unfold(defs, more, node).value.items == Unfold(defs, depth, node).value.items;
    case Obj(fields) =>
      if IsRefNode(fields) {
        if Target(fields) in defs {
          DeeperIsSame(defs, depth - 1, more - 1, defs[Target(fields)]);
        }
      } else {
        forall k | k in fields && !IsDefsKey(k)
          ensures Unfold(defs, more, fields[k]) == Unfold(defs, depth, fields[k])
        {
          DeeperIsSame(defs, depth, more, fields[k]);
        }
        assert Unfold(defs, more, node).value.fields == Unfold(defs, depth, node).value.fields;
      }
    case _ =>
  }

  /** Whatever unfolds the definition of a key being expanded also unfolds this node, which lies inside it. */
  ghost predicate Within(defs: Fields, key: string, node: Json) {
    key in defs && forall depth: nat :: Unfold(defs, depth, defs[key]).Some? ==> Unfold(defs, depth, node).Some?
  }

  /** A definition that contains a reference to itself has no finite unfolding. */
  lemma {:induction false} NoUnfoldingInsideItself(defs: Fields, key: string, node: Json, depth: nat)
    requires Within(defs, key, node) && node.Obj? && IsRefNode(node.fields) && Target(node.fields) == key
    ensures Unfold(defs, depth, defs[key]).None?
    decreases depth
  {
    hide IsRefNode, Target, Overlay, IsDefsKey;
    if depth > 0 {
      NoUnfoldingInsideItself(defs, key, node, depth - 1);
    }
  }

  /** A schema with a finite unfolding is walked without a cut. */
  lemma {:induction false} UnfoldableIsUncut(defs: Fields, seen: set<string>, node: Json, depth: nat)
    requires Unfold(defs, depth, node).Some? && forall key :: key in seen ==> Within(defs, key, node)
    ensures !Cuts(defs, seen, node)
    decreases depth, node
  {
    hide IsRefNode, Target, Overlay, IsDefsKey;
    match node
    case Arr(items) =>
      forall i | 0 <= i < |items|
        ensures !Cuts(defs, seen, items[i])
      {
        UnfoldableIsUncut(defs, seen, items[i], depth);
      }
    case Obj(fields) =>
      if IsRefNode(fields) {
        var key := Target(fields);
        if key in seen {
          NoUnfoldingInsideItself(defs, key, node, depth - 1);
          assert false;
        }
        if key in defs {
          forall other | other in seen + {key}
            ensures Within(defs, other, defs[key])
          {
            if other != key {
              WithinTarget(defs, other, node);
            }
          }
          UnfoldableIsUncut(defs, seen + {key}, defs[key], depth - 1);
        }
      } else {
        forall k | k in fields && !IsDefsKey(k)
          ensures !Cuts(defs, seen, fields[k])
        {
          UnfoldableIsUncut(defs, seen, fields[k], depth);
        }
      }
    case _ =>
  }

  lemma {:induction false} WithinTarget(defs: Fields, other: string, node: Json)
    requires Within(defs, other, node) && node.Obj? && IsRefNode(node.fields) && Target(node.fields) in defs
    ensures Within(defs, other, defs[Target(node.fields)])
  {
    hide IsRefNode, Target, Overlay, IsDefsKey;
    forall depth: nat | Unfold(defs, depth, defs[other]).Some?
      ensures Unfold(defs, depth, defs[Target(node.fields)]).Some?
    {
      DeeperIsSame(defs, depth - 1, depth, defs[Target(node.fields)]);
    }
  }

  /**
   The walk is the plain substitution for exactly the schemas that have one: it never cuts if and only if
   the references unfold finitely, and then the result is their unfolding, of any sufficient depth.
   */
  lemma {:induction false} InliningIsSubstitution(schema: Json)
    requires schema.Obj?
    ensures var defs := Definitions(schema.fields);
            && (!Cuts(defs, {}, schema) <==> exists depth: nat :: Unfold(defs, depth, schema).Some?)
            && forall depth: nat :: Unfold(defs, depth, schema).Some? ==> Unfold(defs, depth, schema).value == Inlined(schema)
  {
    var defs := Definitions(schema.fields);
    forall depth: nat | Unfold(defs, depth, schema).Some?
      ensures !Cuts(defs, {}, schema) && Unfold(defs, depth, schema).value == Inlined(schema)
    {
      UnfoldableIsUncut(defs, {}, schema, depth);
      UncutIsUnfolding(defs, {}, schema);
      var enough := |defs.Keys - {}|;
      DeeperIsSame(defs, if depth < enough then depth else enough, if depth < enough then enough else depth, schema);
    }
    if !Cuts(defs, {}, schema) {
      UncutIsUnfolding(defs, {}, schema);
    }
  }

  // ---------------------------------------------------------------------------------------------
  // What is left
  // ---------------------------------------------------------------------------------------------

  /** No local reference and no table of definitions anywhere. */
  predicate Plain(node: Json) {
    match node
    case Arr(items) => forall i :: 0 <= i < |items| ==> Plain(items[i])
    case Obj(fields) => !IsRefNode(fields) && forall k :: k in fields ==> !IsDefsKey(k) && Plain(fields[k])
    case _ => true
  }

  /** Every reference node has only plain siblings: they are copied as they are. */
  predicate PlainSiblings(node: Json) {
    match node
    case Arr(items) => forall i :: 0 <= i < |items| ==> PlainSiblings(items[i])
    case Obj(fields) =>
      if IsRefNode(fields) then forall k :: k in fields && k != "$ref" ==> !IsDefsKey(k) && Plain(fields[k])
      else forall k :: k in fields ==> PlainSiblings(fields[k])
    case _ => true
  }

  lemma {:induction false} StringsStay(defs: Fields, seen: set<string>, node: Json)
    ensures AsStr(Expand(defs, seen, node)) == AsStr(node)
  {
  }

  lemma {:induction false} FieldsArePlain(defs: Fields, seen: set<string>, fields: Fields)
    requires !IsRefNode(fields) && forall k :: k in fields && !IsDefsKey(k) ==> Plain(Expand(defs, seen, fields[k]))
    ensures Plain(Expand(defs, seen, Obj(fields)))
  {
    var out := Expand(defs, seen, Obj(fields)).fields;
    assert AsStr(Get(out, "$ref")) == AsStr(Get(fields, "$ref")) by {
      if "$ref" in fields {
        StringsStay(defs, seen, fields["$ref"]);
      }
    }
    hide IsLocal, Expand;
  }

  lemma {:induction false} WalkIsPlain(defs: Fields, seen: set<string>, node: Json)
    requires PlainSiblings(node) && forall k :: k in defs ==> PlainSiblings(defs[k])
    ensures Plain(Expand(defs, seen, node))
    decreases |defs.Keys - seen|, node
  {
    hide IsRefNode, Target, Overlay, IsDefsKey, Plain;
    match node
    case Arr(items) =>
      forall i | 0 <= i < |items|
        ensures Plain(Expand(defs, seen, items[i]))
      {
        WalkIsPlain(defs, seen, items[i]);
      }
      ItemsArePlain(defs, seen, items);
    case Obj(fields) =>
      if !IsRefNode(fields) {
        forall k | k in fields && !IsDefsKey(k)
          ensures Plain(Expand(defs, seen, fields[k]))
        {
          WalkIsPlain(defs, seen, fields[k]);
        }
        FieldsArePlain(defs, seen, fields);
      } else {
        var key := Target(fields);
        if key !in seen && key in defs {
          Fewer(defs.Keys, seen, key);
          WalkIsPlain(defs, seen + {key}, defs[key]);
          OverlayIsPlain(Expand(defs, seen + {key}, defs[key]), fields);
        } else {
          ScalarIsPlain(Null);
          OverlayIsPlain(Null, fields);
          CutIsPlain();
        }
      }
    case _ => ScalarIsPlain(node);
  }

  lemma {:induction false} ItemsArePlain(defs: Fields, seen: set<string>, items: seq<Json>)
    requires forall i :: 0 <= i < |items| ==> Plain(Expand(defs, seen, items[i]))
    ensures Plain(Expand(defs, seen, Arr(items)))
  {
  }

  lemma {:induction false} ScalarIsPlain(node: Json)
    requires !node.Arr? && !node.Obj?
    ensures Plain(node)
  {
  }

  lemma {:induction false} OverlayIsPlain(resolved: Json, fields: Fields)
    requires Plain(resolved) && forall k :: k in fields && k != "$ref" ==> !IsDefsKey(k) && Plain(fields[k])
    ensures Plain(Overlay(resolved, fields))
  {
  }

  lemma {:induction false} CutIsPlain()
    ensures Plain(CUT)
  {
    assert CUT.fields["properties"] == Obj(map[]);
  }

  /** A plain node is walked to itself. */
  lemma {:induction false} WalkPlain(defs: Fields, seen: set<string>, node: Json)
    requires Plain(node)
    ensures Expand(defs, seen, node) == node
    decreases node
  {
    hide IsRefNode, Target, Overlay, IsDefsKey;
    match node
    case Arr(items) =>
      forall i | 0 <= i < |items|
        ensures Expand(defs, seen, items[i]) == items[i]
      {
        WalkPlain(defs, seen, items[i]);
      }
      assert Expand(defs, seen, node).items == items;
    case Obj(fields) =>
      forall k | k in fields
        ensures Expand(defs, seen, fields[k]) == fields[k]
      {
        WalkPlain(defs, seen, fields[k]);
      }
      assert Expand(defs, seen, node).fields == fields;
    case _ =>
  }

  /** The walk never gives a reference node. */
  lemma {:induction false} WalkGivesNoRefNode(defs: Fields, seen: set<string>, node: Json)
    ensures Expand(defs, seen, node).Obj? ==> !IsRefNode(Expand(defs, seen, node).fields)
    decreases |defs.Keys - seen|
  {
    hide Target, IsRefNode, Overlay, IsDefsKey;
    match node
    case Obj(fields) =>
      if IsRefNode(fields) {
        var key := Target(fields);
        if key in seen {
          CutIsNoRefNode();
        } else if key in defs {
          Fewer(defs.Keys, seen, key);
          WalkGivesNoRefNode(defs, seen + {key}, defs[key]);
          OverlayIsNoRefNode(Expand(defs, seen + {key}, defs[key]), fields);
        } else {
          OverlayIsNoRefNode(Null, fields);
        }
      } else {
        RefStays(defs, seen, fields);
      }
    case _ =>
  }

  lemma {:induction false} CutIsNoRefNode()
    ensures CUT.Obj? && !IsRefNode(CUT.fields)
  {
  }

  lemma {:induction false} RefStays(defs: Fields, seen: set<string>, fields: Fields)
    requires !IsRefNode(fields)
    ensures !IsRefNode(Expand(defs, seen, Obj(fields)).fields)
  {
    if "$ref" in fields {
      StringsStay(defs, seen, fields["$ref"]);
    }
    hide IsLocal;
  }

  lemma {:induction false} OverlayIsNoRefNode(resolved: Json, fields: Fields)
    requires resolved.Obj? ==> !IsRefNode(resolved.fields)
    ensures !IsRefNode(Overlay(resolved, fields).fields)
  {
    var out := Overlay(resolved, fields).fields;
    assert AsStr(Get(out, "$ref")) == AsStr(Get(AsMap(resolved), "$ref"));
    assert !IsLocal("");
    hide IsLocal;
  }

  lemma {:induction false} FixedIsPlain(defs: Fields, seen: set<string>, node: Json)
    requires Expand(defs, seen, node) == node
    ensures Plain(node)
    decreases node
  {
    hide Target, Overlay, IsLocal;
    match node
    case Arr(items) =>
      forall i | 0 <= i < |items|
        ensures Plain(items[i])
      {
        assert Expand(defs, seen, node).items[i] == items[i];
        FixedIsPlain(defs, seen, items[i]);
      }
    case Obj(fields) =>
      WalkGivesNoRefNode(defs, seen, node);
      forall k | k in fields
        ensures !IsDefsKey(k) && Plain(fields[k])
      {
        assert k in Expand(defs, seen, node).fields && Expand(defs, seen, node).fields[k] == fields[k];
        FixedIsPlain(defs, seen, fields[k]);
      }
    case _ =>
  }

  /** The schemas left as they are are exactly the plain ones. */
  lemma {:induction false} FixedIffPlain(schema: Json)
    requires schema.Obj?
    ensures Inlined(schema) == schema <==> Plain(schema)
  {
    var defs := Definitions(schema.fields);
    if Inlined(schema) == schema {
      FixedIsPlain(defs, {}, schema);
    }
    if Plain(schema) {
      WalkPlain(defs, {}, schema);
    }
  }

  lemma {:induction false} PlainHasPlainSiblings(node: Json)
    requires Plain(node)
    ensures PlainSiblings(node)
    decreases node
  {
    match node
    case Arr(items) =>
      forall i | 0 <= i < |items|
        ensures PlainSiblings(items[i])
      {
        PlainHasPlainSiblings(items[i]);
      }
    case Obj(fields) =>
      forall k | k in fields
        ensures PlainSiblings(fields[k])
      {
        PlainHasPlainSiblings(fields[k]);
      }
    case _ =>
  }

  lemma {:induction false} TableHasPlainSiblings(table: Json, key: string)
    requires PlainSiblings(table) && table.Obj? && key in table.fields
    ensures PlainSiblings(table.fields[key])
  {
    if IsRefNode(table.fields) && key != "$ref" {
      PlainHasPlainSiblings(table.fields[key]);
    }
  }

  /** A sibling of a reference keeps its own reference: the condition on siblings is needed. */
  lemma {:induction false} SiblingsAreCopiedUnwalked(defs: Fields, seen: set<string>, fields: Fields, key: string)
    requires IsRefNode(fields) && Target(fields) !in seen
    requires key in fields && key != "$ref" && !Plain(fields[key])
    ensures !Plain(Expand(defs, seen, Obj(fields)))
  {
    hide IsRefNode, Target;
    var kept := fields - {"$ref"};
    assert forall resolved :: key in Overlay(resolved, fields).fields && Overlay(resolved, fields).fields[key] == fields[key];
  }

  /** With plain siblings everywhere, cyclic or not, nothing local is left and a second inlining changes nothing. */
  lemma {:induction false} InliningIsComplete(schema: Json)
    requires PlainSiblings(schema)
    ensures schema.Obj? ==> Plain(Inlined(schema)) && Inlined(Inlined(schema)) == Inlined(schema)
  {
    if schema.Obj? {
      var defs := Definitions(schema.fields);
      forall k | k in defs
        ensures PlainSiblings(defs[k])
      {
        var name := if |AsMap(Get(schema.fields, "$defs"))| == 0 then "definitions" else "$defs";
        TableHasPlainSiblings(schema.fields[name], k);
      }
      WalkIsPlain(defs, {}, schema);
      FixedIffPlain(Inlined(schema));
    }
  }

  // ---------------------------------------------------------------------------------------------
  // Exactly when nothing is left
  // ---------------------------------------------------------------------------------------------

  function SiblingKeys(fields: Fields): set<string> {
    fields.Keys - {"$ref"}
  }

  /**
   Following references, every sibling that shows is plain: siblings lie over the fields of the definition,
   fields of a definition show only where no sibling of a reference to it has their key, and a definition that
   is being expanded, or is no object, shows nothing.
   */
  predicate Clear(defs: Fields, seen: set<string>, node: Json)
    decreases |defs.Keys - seen|, node, 1
  {
    match node
    case Arr(items) => forall i :: 0 <= i < |items| ==> Clear(defs, seen, items[i])
    case Obj(_) => ClearUnder(defs, seen, node, {})
    case _ => true
  }

  predicate ClearUnder(defs: Fields, seen: set<string>, node: Json, hidden: set<string>)
    decreases |defs.Keys - seen|, node, 0
  {
    match node
    case Obj(fields) =>
      if IsRefNode(fields) then
        var key := Target(fields);
        key in seen ||
        (&& (forall k :: k in SiblingKeys(fields) && k !in hidden ==> !IsDefsKey(k) && Plain(fields[k]))
         && (key in defs ==>
               (Fewer(defs.Keys, seen, key); ClearUnder(defs, seen + {key}, defs[key], hidden + SiblingKeys(fields)))))
      else forall k :: k in fields && !IsDefsKey(k) && k !in hidden ==> Clear(defs, seen, fields[k])
    case _ => true
  }

  /** The fields of an object outside some keys are plain. */
  predicate PlainUnder(v: Json, hidden: set<string>) {
    v.Obj? ==> forall k :: k in v.fields && k !in hidden ==> !IsDefsKey(k) && Plain(v.fields[k])
  }

  lemma {:induction false} PlainOverlay(resolved: Json, fields: Fields, hidden: set<string>)
    ensures PlainUnder(Overlay(resolved, fields), hidden) <==>
            && (forall k :: k in SiblingKeys(fields) && k !in hidden ==> !IsDefsKey(k) && Plain(fields[k]))
            && PlainUnder(resolved, hidden + SiblingKeys(fields))
  {
    hide Plain, IsDefsKey;
    var out := Overlay(resolved, fields).fields;
    assert out.Keys == AsMap(resolved).Keys + SiblingKeys(fields);
    assert forall k :: k in SiblingKeys(fields) ==> out[k] == fields[k];
    assert forall k :: k in AsMap(resolved) && k !in SiblingKeys(fields) ==> out[k] == AsMap(resolved)[k];
  }

  lemma {:induction false} PlainNull(hidden: set<string>)
    ensures PlainUnder(Null, hidden) && PlainUnder(CUT, hidden)
  {
    CutIsPlain();
  }

  lemma {:induction false} ExpandIsObject(defs: Fields, seen: set<string>, fields: Fields)
    ensures Expand(defs, seen, Obj(fields)).Obj?
  {
  }

  lemma {:induction false} PlainUnderNothing(defs: Fields, seen: set<string>, fields: Fields)
    ensures Expand(defs, seen, Obj(fields)).Obj?
    ensures Plain(Expand(defs, seen, Obj(fields))) <==> PlainUnder(Expand(defs, seen, Obj(fields)), {})
  {
    ExpandIsObject(defs, seen, fields);
    WalkGivesNoRefNode(defs, seen, Obj(fields));
    hide IsRefNode, Target, IsDefsKey, Expand;
  }

  lemma {:induction false} PlainFields(defs: Fields, seen: set<string>, fields: Fields, hidden: set<string>)
    requires !IsRefNode(fields)
    ensures PlainUnder(Expand(defs, seen, Obj(fields)), hidden) <==>
            forall k :: k in fields && !IsDefsKey(k) && k !in hidden ==> Plain(Expand(defs, seen, fields[k]))
  {
    hide IsRefNode, IsDefsKey, Plain;
    var out := Expand(defs, seen, Obj(fields)).fields;
    assert forall k :: k in out <==> k in fields && !IsDefsKey(k);
  }

  lemma {:induction false} ClearIsPlain(defs: Fields, seen: set<string>, node: Json)
    ensures Clear(defs, seen, node) <==> Plain(Expand(defs, seen, node))
    decreases |defs.Keys - seen|, node, 1
  {
    hide Plain, PlainUnder, ClearUnder, IsRefNode;
    match node
    case Arr(items) =>
      forall i | 0 <= i < |items|
        ensures Clear(defs, seen, items[i]) <==> Plain(Expand(defs, seen, items[i]))
      {
        ClearIsPlain(defs, seen, items[i]);
      }
      PlainItems(defs, seen, items);
    case Obj(fields) =>
      ClearIsPlainUnder(defs, seen, node, {});
      PlainUnderNothing(defs, seen, fields);
    case _ => ScalarIsPlain(node);
  }

  lemma {:induction false} PlainItems(defs: Fields, seen: set<string>, items: seq<Json>)
    ensures Plain(Expand(defs, seen, Arr(items))) <==> forall i :: 0 <= i < |items| ==> Plain(Expand(defs, seen, items[i]))
  {
    var out := Expand(defs, seen, Arr(items)).items;
    assert forall i :: 0 <= i < |items| ==> out[i] == Expand(defs, seen, items[i]);
  }

  lemma {:induction false} ClearIsPlainUnder(defs: Fields, seen: set<string>, node: Json, hidden: set<string>)
    ensures ClearUnder(defs, seen, node, hidden) <==> PlainUnder(Expand(defs, seen, node), hidden)
    decreases |defs.Keys - seen|, node, 0
  {
    hide Plain, PlainUnder, Clear, IsRefNode, Target, Overlay, IsDefsKey, SiblingKeys;
    match node
    case Obj(fields) =>
      if IsRefNode(fields) {
        var key := Target(fields);
        PlainNull(hidden);
        PlainNull(hidden + SiblingKeys(fields));
        if key in seen {
        } else if key in defs {
          Fewer(defs.Keys, seen, key);
          ClearIsPlainUnder(defs, seen + {key}, defs[key], hidden + SiblingKeys(fields));
          PlainOverlay(Expand(defs, seen + {key}, defs[key]), fields, hidden);
        } else {
          PlainOverlay(Null, fields, hidden);
        }
      } else {
        forall k | k in fields && !IsDefsKey(k)
          ensures Clear(defs, seen, fields[k]) <==> Plain(Expand(defs, seen, fields[k]))
        {
          ClearIsPlain(defs, seen, fields[k]);
        }
        PlainFields(defs, seen, fields, hidden);
      }
    case _ => NoFields(defs, seen, node, hidden);
  }

  lemma {:induction false} NoFields(defs: Fields, seen: set<string>, node: Json, hidden: set<string>)
    requires !node.Obj?
    ensures PlainUnder(Expand(defs, seen, node), hidden)
  {
  }

  /** Nothing local is left, and a second inlining changes nothing, exactly when every sibling that shows is plain. */
  lemma {:induction false} CompleteIffClear(schema: Json)
    requires schema.Obj?
    ensures Plain(Inlined(schema)) <==> Clear(Definitions(schema.fields), {}, schema)
    ensures Inlined(Inlined(schema)) == Inlined(schema) <==> Clear(Definitions(schema.fields), {}, schema)
  {
    hide Clear, Plain, Definitions, Expand;
    var defs := Definitions(schema.fields);
    ClearIsPlain(defs, {}, schema);
    InlinedIsObject(schema);
    FixedIffPlain(Inlined(schema));
  }

  lemma {:induction false} InlinedIsObject(schema: Json)
    requires schema.Obj?
    ensures Inlined(schema).Obj?
  {
  }

  // ---------------------------------------------------------------------------------------------
  // One step of the walk, in the schema's own terms
  // ---------------------------------------------------------------------------------------------

  /** The text has no slash behind the last one. */
  lemma {:induction false} NameBehindSlash(front: string, name: string)
    requires '/' !in name && front != "" && front[|front| - 1] == '/'
    ensures LastSegment(front + name) == name
    decreases |name|
  {
    if name == "" {
      assert front + name == front;
    } else {
      var ref := front + name;
      assert ref[..|ref| - 1] == front + name[..|name| - 1];
      NameBehindSlash(front, name[..|name| - 1]);
      assert name[..|name| - 1] + [name[|name| - 1]] == name;
    }
  }

  /** A node that refers to a definition by name, whatever path leads to the name. */
  function Referring(table: string, path: string, name: string, siblings: Fields): Json {
    Obj(siblings["$ref" := Str("#/" + table + "/" + path + name)])
  }

  /**
   A reference into a table of definitions becomes the definition of that name, walked, with the siblings of the
   reference over its fields, unwalked; inside that definition, an empty object; and without one, the siblings alone.
   */
  lemma {:induction false} ReferencesAreFollowed(defs: Fields, seen: set<string>, table: string, path: string, name: string, siblings: Fields)
    requires table == "$defs" || table == "definitions"
    requires '/' !in name && (path == "" || path[|path| - 1] == '/') && "$ref" !in siblings
    ensures var r := Expand(defs, seen, Referring(table, path, name, siblings));
            if name in seen then r == Obj(map["type" := Str("object"), "properties" := Obj(map[])])
            else if name !in defs then r == Obj(siblings)
            else
              var walked := AsMap(Expand(defs, seen + {name}, defs[name]));
              && r.Obj? && r.fields.Keys == walked.Keys + siblings.Keys
              && forall k :: k in r.fields ==> r.fields[k] == if k in siblings then siblings[k] else walked[k]
  {
    var fields := Referring(table, path, name, siblings).fields;
    RefNodeIs(table, path, name, siblings);
    hide IsRefNode, Target, Overlay, Referring;
    if name !in seen {
      var resolved := if name in defs then Expand(defs, seen + {name}, defs[name]) else Null;
      OverlayIs(resolved, fields, siblings);
      assert Expand(defs, seen, Obj(fields)) == Overlay(resolved, fields);
    }
  }

  lemma {:induction false} RefNodeIs(table: string, path: string, name: string, siblings: Fields)
    requires table == "$defs" || table == "definitions"
    requires '/' !in name && (path == "" || path[|path| - 1] == '/') && "$ref" !in siblings
    ensures var fields := Referring(table, path, name, siblings).fields;
            IsRefNode(fields) && Target(fields) == name && fields - {"$ref"} == siblings
  {
    var front := "#/" + table + "/" + path;
    var ref := front + name;
    var fields := siblings["$ref" := Str(ref)];
    assert Get(fields, "$ref") == Str(ref);
    assert front[|front| - 1] == '/';
    NameBehindSlash(front, name);
    LocalPrefix(table, path + name);
    ConcatPath(table, path, name);
    hide LastSegment, IsLocal;
    assert fields - {"$ref"} == siblings;
  }

  lemma {:induction false} OverlayIs(resolved: Json, fields: Fields, siblings: Fields)
    requires fields - {"$ref"} == siblings
    ensures var r := Overlay(resolved, fields);
            && r.Obj? && r.fields.Keys == AsMap(resolved).Keys + siblings.Keys
            && (forall k :: k in r.fields ==> r.fields[k] == if k in siblings then siblings[k] else AsMap(resolved)[k])
            && (resolved.Null? ==> r == Obj(siblings))
  {
    var r := Overlay(resolved, fields).fields;
    if resolved.Null? {
      assert r == siblings;
    }
  }

  lemma {:induction false} ConcatPath(table: string, path: string, name: string)
    ensures "#/" + table + "/" + path + name == "#/" + table + "/" + (path + name)
  {
  }

  lemma {:induction false} LocalPrefix(table: string, rest: string)
    requires table == "$defs" || table == "definitions"
    ensures IsLocal("#/" + table + "/" + rest)
  {
    if table == "$defs" {
      assert "#/" + table + "/" == "#/$defs/";
    } else {
      assert "#/" + table + "/" == "#/definitions/";
    }
  }

  /** The node refers to no table of definitions. */
  predicate RefersNowhere(fields: Fields) {
    "$ref" in fields && fields["$ref"].Str? ==>
      var ref := fields["$ref"].s; !("#/$defs/" <= ref) && !("#/definitions/" <= ref)
  }

  /** Any other object loses its tables of definitions and has its other fields walked. */
  lemma {:induction false} OtherObjectsAreWalked(defs: Fields, seen: set<string>, fields: Fields)
    requires RefersNowhere(fields)
    ensures var r := Expand(defs, seen, Obj(fields));
            && r.Obj? && r.fields.Keys == fields.Keys - {"$defs", "definitions"}
            && forall k :: k in r.fields ==> r.fields[k] == Expand(defs, seen, fields[k])
  {
    assert !IsRefNode(fields);
    var r := Expand(defs, seen, Obj(fields)).fields;
    assert r == map k | k in fields && !IsDefsKey(k) :: Expand(defs, seen, fields[k]);
    hide Expand, IsRefNode;
    assert forall k :: k in r.Keys <==> k in fields && k != "$defs" && k != "definitions";
  }

  /** The table is the root's $defs, or its definitions if that is missing, empty or no object. */
  lemma {:induction false} WhichDefinitions(root: Fields)
    ensures var table := if "$defs" in root && root["$defs"].Obj? && root["$defs"].fields != map[] then root["$defs"].fields
                         else if "definitions" in root && root["definitions"].Obj? then root["definitions"].fields else map[];
            Inlined(Obj(root)) == Expand(table, {}, Obj(root))
  {
    hide Expand;
    var defs := AsMap(Get(root, "$defs"));
    assert |defs| == 0 <==> defs == map[];
  }
}
