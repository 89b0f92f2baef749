/**
 * `setNestedValue` of src/lib/utils.ts: assigns `value` at a dot-separated
 * property path inside a JavaScript object graph, in place.
 *
 * Objects are `JsObject`s whose own properties the method updates; every
 * other value is immutable. Reading a property of `undefined` or `null` throws
 * a TypeError, and so does assigning a property of a primitive (module code is
 * strict). A string has its own `length` and index properties; reading any
 * other property of a primitive gives `undefined`.
 *
 * The walk is specified on a `Snapshot` of the objects' properties, taken over
 * a ghost set `heap` that holds every object the graph reaches.
 */
module NestedValue {
  import opened Wrappers
  import opened JsText

  /** A JavaScript object, reduced to its own properties. */
  class JsObject {
    var props: map<string, JsValue>

    constructor (props: map<string, JsValue>)
      ensures this.props == props
    {
      this.props := props;
    }
  }

  /**
   * A JavaScript value: an object reference, a string, another primitive
   * (a number, boolean, bigint or symbol, shown as its text), `undefined` or `null`.
   */
  datatype JsValue = Obj(ref: JsObject) | Str(chars: string) | Prim(text: string) | Undefined | Null

  datatype JsError = TypeError(message: string)

  /** The properties of each object, at one moment. */
  type Snapshot = map<JsObject, map<string, JsValue>>

  function Snap(heap: set<JsObject>): (s: Snapshot)
    reads heap
    ensures s.Keys == heap
    ensures forall o :: o in heap ==> s[o] == o.props
  {
    map o | o in heap :: o.props
  }

  predicate InSnapshot(v: JsValue, s: Snapshot)
  {
    v.Obj? ==> v.ref in s
  }

  /** Every property that holds an object holds one the snapshot covers. */
  predicate Closed(s: Snapshot)
  {
    forall o, k :: o in s && k in s[o] ==> InSnapshot(s[o][k], s)
  }

  /** The index a canonical array-index key names: decimal digits without a leading zero. */
  function ArrayIndex(key: string): Option<nat>
  {
    if |key| >= 1 && AllDigits(key) && (key[0] != '0' || |key| == 1) then Some(DigitsValue(key)) else None
  }

  /**
   * `v[key]`, where `own` holds the properties of `v` when it is an object: a
   * missing property reads as `undefined`, a string answers its `length` and its
   * indices, and reading from `undefined` or `null` throws.
   */
  function ReadProperty(v: JsValue, own: map<string, JsValue>, key: string): (r: Result<JsValue, JsError>)
    ensures r.Failure? <==> v.Undefined? || v.Null?
    ensures v.Obj? ==> r == Success(if key in own then own[key] else Undefined)
    ensures v.Str? && key == "length" ==> r == Success(Prim(NumberToString(|v.chars|)))
    ensures v.Prim? ==> r == Success(Undefined)
  {
    match v
    case Obj(_) => Success(if key in own then own[key] else Undefined)
    case Str(chars) =>
      if key == "length" then Success(Prim(NumberToString(|chars|)))
      else
        var index := ArrayIndex(key);
        if index.Some? && index.value < |chars| then Success(Str([chars[index.value]])) else Success(Undefined)
    case Prim(_) => Success(Undefined)
    case Undefined => Failure(TypeError("Cannot read properties of undefined (reading '" + key + "')"))
    case Null => Failure(TypeError("Cannot read properties of null (reading '" + key + "')"))
  }

  /** Reading index `i` of a string gives its `i`-th character, or `undefined` past its end. */
  lemma StringIndexRead(chars: string, own: map<string, JsValue>, i: nat)
    ensures i < |chars| ==> ReadProperty(Str(chars), own, NumberToString(i)) == Success(Str([chars[i]]))
    ensures i >= |chars| ==> ReadProperty(Str(chars), own, NumberToString(i)) == Success(Undefined)
  {
    NumberToStringRoundTrip(i);
    if i == 0 {
      assert NumberToString(0) == "0";
    }
  }

  /** `v[key]` on the live objects. */
  function Get(v: JsValue, key: string): Result<JsValue, JsError>
    reads if v.Obj? then {v.ref} else {}
  {
    ReadProperty(v, if v.Obj? then v.ref.props else map[], key)
  }

  /** `v[key]` against a snapshot. */
  function GetIn(s: Snapshot, v: JsValue, key: string): Result<JsValue, JsError>
    requires InSnapshot(v, s)
  {
    ReadProperty(v, if v.Obj? then s[v.ref] else map[], key)
  }

  /** Reads `v[path[0]][path[1]]...`, failing at the first read from `undefined` or `null`. */
  function Walk(s: Snapshot, v: JsValue, path: seq<string>): (r: Result<JsValue, JsError>)
    requires Closed(s) && InSnapshot(v, s)
    ensures r.Success? ==> InSnapshot(r.value, s)
    ensures r.Failure? ==> path != []
    decreases |path|
  {
    if path == [] then Success(v)
    else
      match Walk(s, v, path[..|path| - 1])
      case Failure(e) => Failure(e)
      case Success(w) => GetIn(s, w, path[|path| - 1])
  }

  /** The walk never reads property `key` of `o`. */
  predicate AvoidsSlot(s: Snapshot, v: JsValue, path: seq<string>, o: JsObject, key: string)
    requires Closed(s) && InSnapshot(v, s)
  {
    forall j :: 0 <= j < |path| && Walk(s, v, path[..j]) == Success(Obj(o)) ==> path[j] != key
  }

  /** `fieldPath.split('.')`. */
  function Keys(fieldPath: string): (keys: seq<string>)
    ensures |keys| >= 1
  {
    Split(fieldPath, '.')
  }

  /** The keys walked through before the assignment: all but the last. */
  function ParentKeys(fieldPath: string): seq<string>
  {
    var keys := Keys(fieldPath);
    keys[..|keys| - 1]
  }

  /** The property assigned: the last key. */
  function LastKey(fieldPath: string): string
  {
    var keys := Keys(fieldPath);
    keys[|keys| - 1]
  }

  /** Assigning a property of a string: its own `length` and indices are read-only, and any other property cannot be created. */
  function StringAssignError(chars: string, key: string): JsError
  {
    var index := ArrayIndex(key);
    if key == "length" || (index.Some? && index.value < |chars|) then
      TypeError("Cannot assign to read only property '" + key + "' of string '" + chars + "'")
    else TypeError("Cannot create property '" + key + "' on string '" + chars + "'")
  }

  /** The object whose property is assigned, if the walk reaches one. */
  function Target(s: Snapshot, obj: JsValue, fieldPath: string): set<JsObject>
    requires Closed(s) && InSnapshot(obj, s)
  {
    match Walk(s, obj, ParentKeys(fieldPath))
    case Success(Obj(o)) => {o}
    case _ => {}
  }

  /**
   * What `setNestedValue(obj, fieldPath, value)` does to a snapshot: the result
   * and the properties afterwards.
   */
  function SetIn(s: Snapshot, obj: JsValue, fieldPath: string, value: JsValue): (r: (Result<JsValue, JsError>, Snapshot))
    requires Closed(s) && InSnapshot(obj, s)
    ensures r.0.Success? <==> Walk(s, obj, ParentKeys(fieldPath)).Success? && Walk(s, obj, ParentKeys(fieldPath)).value.Obj?
    ensures r.0.Success? ==> r.0.value == obj && r.1.Keys == s.Keys
    ensures r.0.Failure? ==> r.1 == s
  {
    var key := LastKey(fieldPath);
    match Walk(s, obj, ParentKeys(fieldPath))
    case Failure(e) => (Failure(e), s)
    case Success(Obj(o)) => (Success(obj), s[o := s[o][key := value]])
    case Success(Str(chars)) => (Failure(StringAssignError(chars, key)), s)
    case Success(Prim(text)) => (Failure(TypeError("Cannot create property '" + key + "' on primitive '" + text + "'")), s)
    case Success(Undefined) => (Failure(TypeError("Cannot set properties of undefined (setting '" + key + "')")), s)
    case Success(Null) => (Failure(TypeError("Cannot set properties of null (setting '" + key + "')")), s)
  }

  /** The `forEach` over all keys but the last: `target = target[key]` for each key. */
  method WalkPath(obj: JsValue, path: seq<string>, ghost heap: set<JsObject>) returns (r: Result<JsValue, JsError>)
    requires Closed(Snap(heap)) && InSnapshot(obj, Snap(heap))
    ensures r == Walk(Snap(heap), obj, path)
  {
    ghost var s := Snap(heap);
    var target := obj;
    for j := 0 to |path|
      invariant Walk(s, obj, path[..j]) == Success(target)
    {
      assert path[..j + 1][..j] == path[..j];
      var next := Get(target, path[j]);
      if next.Failure? {
        WalkFailurePersists(s, obj, path, j + 1);
        return Failure(next.error);
      }
      target := next.value;
    }
    assert path[..|path|] == path;
    r := Success(target);
  }

  /** `setNestedValue(obj, fieldPath, value)`. */
  method SetNestedValue(obj: JsValue, fieldPath: string, value: JsValue, ghost heap: set<JsObject>)
    returns (r: Result<JsValue, JsError>)
    requires Closed(Snap(heap)) && InSnapshot(obj, Snap(heap))
    modifies Target(Snap(heap), obj, fieldPath)
    ensures (r, Snap(heap)) == SetIn(old(Snap(heap)), obj, fieldPath, value)
  {
    var keys := Split(fieldPath, '.');
    var walked := WalkPath(obj, keys[..|keys| - 1], heap);
    if walked.Failure? {
      return Failure(walked.error);
    }
    var key := keys[|keys| - 1];
    match walked.value {
      case Obj(o) =>
        ghost var s := Snap(heap);
        o.props := o.props[key := value];
        SnapAfterAssign(heap, s, o, key, value);
        r := Success(obj);
      case Str(chars) =>
        r := Failure(StringAssignError(chars, key));
      case Prim(text) =>
        r := Failure(TypeError("Cannot create property '" + key + "' on primitive '" + text + "'"));
      case Undefined =>
        r := Failure(TypeError("Cannot set properties of undefined (setting '" + key + "')"));
      case Null =>
        r := Failure(TypeError("Cannot set properties of null (setting '" + key + "')"));
    }
  }

  /** After one property of `o` is assigned, the snapshot differs from `s` in that property only. */
  lemma SnapAfterAssign(heap: set<JsObject>, s: Snapshot, o: JsObject, key: string, value: JsValue)
    requires o in heap && s.Keys == heap && o.props == s[o][key := value]
    requires forall x :: x in heap && x != o ==> x.props == s[x]
    ensures Snap(heap) == s[o := s[o][key := value]]
  {
  }

  /** Once a read fails, the longer walk fails with the same error. */
  lemma {:induction false} WalkFailurePersists(s: Snapshot, v: JsValue, path: seq<string>, j: nat)
    requires Closed(s) && InSnapshot(v, s)
    requires j <= |path| && Walk(s, v, path[..j]).Failure?
    ensures Walk(s, v, path) == Walk(s, v, path[..j])
    decreases |path| - j
  {
    if j < |path| {
      assert path[..j + 1][..j] == path[..j];
      WalkFailurePersists(s, v, path, j + 1);
    } else {
      assert path[..j] == path;
    }
  }

  // ---------------------------------------------------------------------------
  // Reading the value back

  /** Assigning a value the snapshot covers keeps it closed. */
  lemma ClosedAfterAssign(s: Snapshot, o: JsObject, key: string, value: JsValue)
    requires Closed(s) && o in s && InSnapshot(value, s)
    ensures Closed(s[o := s[o][key := value]])
  {
  }

  /**
   * After property `key` of the object a walk ends at is assigned `value`, the
   * walk followed by `key` reads `value`, provided the walk did not read that
   * very slot on its way.
   */
  lemma {:induction false} ReadBack(s: Snapshot, v: JsValue, path: seq<string>, o: JsObject, key: string, value: JsValue)
    requires Closed(s) && InSnapshot(v, s) && InSnapshot(value, s)
    requires Walk(s, v, path) == Success(Obj(o))
    requires AvoidsSlot(s, v, path, o, key)
    ensures Closed(s[o := s[o][key := value]])
    ensures Walk(s[o := s[o][key := value]], v, path + [key]) == Success(value)
  {
    var t := s[o := s[o][key := value]];
    ClosedAfterAssign(s, o, key, value);
    var j := 0;
    while j < |path|
      invariant j <= |path|
      invariant Walk(t, v, path[..j]) == Walk(s, v, path[..j])
    {
      assert Walk(s, v, path[..j]) == Success(Obj(o)) ==> path[j] != key;
      WalkStepUnchanged(s, v, path, j, o, key, value);
      j := j + 1;
    }
    assert path[..|path|] == path;
    assert (path + [key])[..|path|] == path;
  }

  /** One more read agrees before and after the assignment when it does not read the assigned slot. */
  lemma WalkStepUnchanged(s: Snapshot, v: JsValue, path: seq<string>, j: nat, o: JsObject, key: string, value: JsValue)
    requires Closed(s) && InSnapshot(v, s) && InSnapshot(value, s) && o in s
    requires Closed(s[o := s[o][key := value]])
    requires j < |path|
    requires Walk(s[o := s[o][key := value]], v, path[..j]) == Walk(s, v, path[..j])
    requires Walk(s, v, path[..j]) == Success(Obj(o)) ==> path[j] != key
    ensures Walk(s[o := s[o][key := value]], v, path[..j + 1]) == Walk(s, v, path[..j + 1])
  {
    assert path[..j + 1][..j] == path[..j];
  }

  /** When `setNestedValue` succeeds, reading `fieldPath` back gives `value`, unless the walk read the assigned slot. */
  lemma SetThenRead(s: Snapshot, obj: JsValue, fieldPath: string, value: JsValue)
    requires Closed(s) && InSnapshot(obj, s) && InSnapshot(value, s)
    requires SetIn(s, obj, fieldPath, value).0.Success?
    requires AvoidsSlot(s, obj, ParentKeys(fieldPath), Walk(s, obj, ParentKeys(fieldPath)).value.ref, LastKey(fieldPath))
    ensures Closed(SetIn(s, obj, fieldPath, value).1)
    ensures Walk(SetIn(s, obj, fieldPath, value).1, obj, Keys(fieldPath)) == Success(value)
  {
    var path, key := ParentKeys(fieldPath), LastKey(fieldPath);
    var o := Walk(s, obj, path).value.ref;
    SetInAssigns(s, obj, fieldPath, value, o);
    KeysSplit(fieldPath);
    ReadBack(s, obj, path, o, key, value);
  }

  /** The keys are the parent keys followed by the last key. */
  lemma KeysSplit(fieldPath: string)
    ensures Keys(fieldPath) == ParentKeys(fieldPath) + [LastKey(fieldPath)]
  {
  }

  /** A successful `setNestedValue` changes exactly the last key of the object the walk reaches. */
  lemma SetInAssigns(s: Snapshot, obj: JsValue, fieldPath: string, value: JsValue, o: JsObject)
    requires Closed(s) && InSnapshot(obj, s)
    requires Walk(s, obj, ParentKeys(fieldPath)) == Success(Obj(o))
    ensures SetIn(s, obj, fieldPath, value).1 == s[o := s[o][LastKey(fieldPath) := value]]
  {
  }

  /**
   * Without that proviso the read-back can fail: with `o.a === o`, assigning
   * `"a.a"` replaces `o.a` itself, and reading `"a.a"` back then gives `undefined`.
   */
  lemma AliasedSlot(o: JsObject)
    ensures var s := map[o := map["a" := Obj(o)]];
            var after := SetIn(s, Obj(o), "a.a", Prim("1"));
            && Closed(s)
            && after.0 == Success(Obj(o))
            && Closed(after.1)
            && Walk(after.1, Obj(o), Keys("a.a")) == Success(Undefined)
  {
    var s := map[o := map["a" := Obj(o)]];
    SegmentsWalked(["a", "a"]);
    assert Join(["a", "a"], ".") == "a.a";
    assert ParentKeys("a.a") == ["a"];
    assert Keys("a.a") == ["a", "a"];
    assert Walk(s, Obj(o), []) == Success(Obj(o));
    assert Walk(s, Obj(o), ["a"]) == Success(Obj(o));
    var t := s[o := s[o]["a" := Prim("1")]];
    assert Walk(t, Obj(o), ["a"]) == Success(Prim("1"));
  }

  /**
   * A string on the path is read through its own properties: with `o.s = "ab"`,
   * `"s.0"` reads `"a"`, `"a".x` is `undefined`, and assigning `y` on it throws.
   */
  lemma StringOnPath(o: JsObject, s: Snapshot)
    requires s == map[o := map["s" := Str("ab")]]
    ensures Closed(s) && Walk(s, Obj(o), ["s", "0"]) == Success(Str("a"))
    ensures SetIn(s, Obj(o), "s.0.x.y", Prim("1")).0 == Failure(TypeError("Cannot set properties of undefined (setting '" + "y" + "')"))
  {
    StringPathKeys();
    StringPathWalk(o, s);
    SetUnderUndefined(s, Obj(o), "s.0.x.y", Prim("1"));
  }

  /** Assigning below a parent that walks to `undefined` throws and names the last key. */
  lemma SetUnderUndefined(s: Snapshot, obj: JsValue, fieldPath: string, value: JsValue)
    requires Closed(s) && InSnapshot(obj, s)
    requires Walk(s, obj, ParentKeys(fieldPath)) == Success(Undefined)
    ensures SetIn(s, obj, fieldPath, value) == (Failure(TypeError("Cannot set properties of undefined (setting '" + LastKey(fieldPath) + "')")), s)
  {
  }

  lemma StringPathKeys()
    ensures ParentKeys("s.0.x.y") == ["s", "0", "x"] && LastKey("s.0.x.y") == "y"
  {
    var parts := ["s", "0", "x", "y"];
    SegmentsWalked(parts);
    assert parts[..3] == ["s", "0", "x"] && ["s", "0", "x"][..2] == ["s", "0"] && ["s", "0"][..1] == ["s"];
    assert Join(["s", "0"], ".") == "s.0";
    assert Join(["s", "0", "x"], ".") == "s.0.x";
    assert Join(parts, ".") == "s.0.x.y";
  }

  lemma StringPathWalk(o: JsObject, s: Snapshot)
    requires s == map[o := map["s" := Str("ab")]]
    ensures Closed(s)
    ensures Walk(s, Obj(o), ["s", "0"]) == Success(Str("a"))
    ensures Walk(s, Obj(o), ["s", "0", "x"]) == Success(Undefined)
  {
    StringIndexRead("ab", map[], 0);
    assert Walk(s, Obj(o), []) == Success(Obj(o));
    assert ["s"][..0] == [];
    assert Walk(s, Obj(o), ["s"]) == Success(Str("ab"));
    assert ["s", "0"][..1] == ["s"];
    assert Walk(s, Obj(o), ["s", "0"]) == Success(Str("a"));
    assert ["s", "0", "x"][..2] == ["s", "0"];
    assert ArrayIndex("x").None?;
  }

  // ---------------------------------------------------------------------------
  // Which keys are walked

  /** A path without a dot names a property of `obj` itself. */
  lemma SingleKey(fieldPath: string)
    requires '.' !in fieldPath
    ensures ParentKeys(fieldPath) == [] && LastKey(fieldPath) == fieldPath
  {
    JoinThenSplit([fieldPath], '.');
  }

  /** The keys are the dot-free segments of the path, and joining them with dots gives the path back. */
  lemma KeysRejoin(fieldPath: string)
    ensures Join(Keys(fieldPath), ".") == fieldPath
    ensures forall k :: 0 <= k < |Keys(fieldPath)| ==> '.' !in Keys(fieldPath)[k]
  {
    SplitThenJoin(fieldPath, '.');
  }

  /** For a path written as dot-joined segments, the walk visits exactly the leading segments. */
  lemma SegmentsWalked(segments: seq<string>)
    requires |segments| >= 1
    requires forall k :: 0 <= k < |segments| ==> '.' !in segments[k]
    ensures Keys(Join(segments, ".")) == segments
    ensures ParentKeys(Join(segments, ".")) == segments[..|segments| - 1]
    ensures LastKey(Join(segments, ".")) == segments[|segments| - 1]
  {
    JoinThenSplit(segments, '.');
  }
}
