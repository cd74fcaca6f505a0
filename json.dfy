/**
 * JSON-shaped values for the free-form parts of the documents (`User.extra`,
 * `Integration.configuration`, `Plugin.configuration`) and the lodash / MongoDB
 * path operations the core applies to them.
 */
module JsonValue {
  import opened Wrappers
  import Text

  datatype Json =
    | Null
    | Bool(b: bool)
    | Num(n: int)
    | Str(s: string)
    | Arr(items: seq<Json>)
    | Obj(fields: map<string, Json>)

  /** JavaScript truthiness: null, false, 0 and "" are falsy, everything else is truthy. */
  predicate Truthy(j: Json)
  {
    match j
    case Null => false
    case Bool(b) => b
    case Num(n) => n != 0
    case Str(s) => s != ""
    case _ => true
  }

  /** `obj[key]`, present only on objects. */
  function Get(j: Json, key: string): (r: Option<Json>)
    ensures r.Some? <==> j.Obj? && key in j.fields
  {
    if j.Obj? && key in j.fields then Some(j.fields[key]) else None
  }

  /** lodash `_.get(obj, path)`; `None` stands for `undefined`. */
  function GetPath(j: Json, path: seq<string>): Option<Json>
    decreases |path|
  {
    if path == [] then Some(j)
    else
      match Get(j, path[0])
      case None => None
      case Some(child) => GetPath(child, path[1..])
  }

  /**
   * `_.set(obj, path, v)` on object paths: missing or non-object intermediate
   * values are replaced by fresh objects.
   */
  function SetPath(j: Json, path: seq<string>, v: Json): (r: Json)
    ensures GetPath(r, path) == Some(v)
    ensures path != [] ==> r.Obj? && forall k :: k != path[0] ==> Get(r, k) == Get(j, k)
    decreases |path|
  {
    if path == [] then v
    else
      var fields := if j.Obj? then j.fields else map[];
      var child := if path[0] in fields then fields[path[0]] else Obj(map[]);
      var r := Obj(fields[path[0] := SetPath(child, path[1..], v)]);
      assert Get(r, path[0]) == Some(SetPath(child, path[1..], v));
      r
  }

  /**
   * `Object.assign(target, source)` for an object `source`: each key of
   * `source` overwrites, every other key of `target` stays; a target that is
   * not an object counts as `{}`.
   */
  function Assign(target: Json, source: map<string, Json>): (r: Json)
    ensures r.Obj?
    ensures forall k :: k in source ==> Get(r, k) == Some(source[k])
    ensures forall k :: k !in source ==> Get(r, k) == Get(target, k)
  {
    Obj((if target.Obj? then target.fields else map[]) + source)
  }

  /**
   * lodash `_.pick(obj, paths)`: for each path, in order, that resolves in `obj`,
   * copy its value into the result at the same path.
   */
  function Pick(obj: Json, paths: seq<seq<string>>): Json
  {
    PickInto(Obj(map[]), obj, paths)
  }

  function PickInto(acc: Json, obj: Json, paths: seq<seq<string>>): Json
    decreases |paths|
  {
    if paths == [] then acc
    else
      var acc' := match GetPath(obj, paths[0])
        case Some(v) => SetPath(acc, paths[0], v)
        case None => acc;
      PickInto(acc', obj, paths[1..])
  }

  /** Picking a one-key path copies that top-level entry when it exists. */
  lemma PickKeyStep(acc: map<string, Json>, obj: Json, k: string)
    ensures (match GetPath(obj, [k]) case Some(v) => SetPath(Obj(acc), [k], v) case None => Obj(acc))
         == Obj(if obj.Obj? && k in obj.fields then acc[k := obj.fields[k]] else acc)
  {
    if obj.Obj? && k in obj.fields {
      assert GetPath(obj, [k]) == GetPath(obj.fields[k], []);
      var r := SetPath(Obj(acc), [k], obj.fields[k]);
      assert r.fields == acc[k := obj.fields[k]];
    }
  }

  /**
   * Picking `k.sub` after `k` itself has been picked changes nothing: the value
   * at `k.sub` is already in place.
   */
  lemma PickNestedStep(acc: map<string, Json>, obj: Json, k: string, sub: string)
    requires obj.Obj? && k in obj.fields ==> k in acc && acc[k] == obj.fields[k]
    ensures (match GetPath(obj, [k, sub]) case Some(v) => SetPath(Obj(acc), [k, sub], v) case None => Obj(acc))
         == Obj(acc)
  {
    match GetPath(obj, [k, sub])
    case None =>
    case Some(v) =>
      var child := obj.fields[k];
      assert GetPath(obj, [k, sub]) == GetPath(child, [sub]);
      assert child.Obj? && sub in child.fields && child.fields[sub] == v by {
        assert GetPath(child, [sub]) == GetPath(child.fields[sub], []);
      }
      assert SetPath(child, [sub], v) == child by {
        assert child.fields[sub := v] == child.fields;
      }
      assert SetPath(Obj(acc), [k, sub], v).fields == acc[k := child];
      assert acc[k := child] == acc;
  }

  /** JavaScript's `String(v)`, as a template literal renders a value. */
  function ToJsString(j: Json): string
  {
    match j
    case Null => "null"
    case Bool(b) => if b then "true" else "false"
    case Num(n) => if n < 0 then "-" + Text.Decimal(-n) else Text.Decimal(n)
    case Str(s) => s
    case Obj(_) => "[object Object]"
    case Arr(items) => JoinItems(items)
  }

  /** `Array.prototype.join(',')`: null items render as "". */
  function JoinItems(items: seq<Json>): string
    decreases items, 0
  {
    if items == [] then ""
    else
      var first := if items[0].Null? then "" else ToJsString(items[0]);
      if |items| == 1 then first else first + "," + JoinItems(items[1..])
  }
}
