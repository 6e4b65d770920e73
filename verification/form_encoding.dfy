/**
 * jsonToFormData: flattening a nested JSON-like value into the ordered
 * (name, value) fields of a multipart form, with bracket-path names
 * (`a[b][c]`).
 */
module FormEncoding {
  import opened JsModel

  /** One form field: its name and the value appended under it. */
  type Entry = (string, Value)

  /**
   * The name a member `key` gets under the name `parentKey` of its
   * container: `parentKey[key]` when `parentKey` is truthy (non-empty),
   * `key` alone otherwise.
   */
  function ChildKey(parentKey: string, key: string): string
  {
    if parentKey != "" then parentKey + "[" + key + "]" else key
  }

  /** Number of keys Object.keys gives for a composite value. */
  function MemberCount(v: Value): nat
    requires IsComposite(v)
  {
    match v
    case Arr(items) => |items|
    case Obj(fields) => |fields|
  }

  /** The `i`-th key Object.keys gives: the index as a string for an array. */
  function MemberKey(v: Value, i: nat): string
    requires IsComposite(v) && i < MemberCount(v)
  {
    match v
    case Arr(_) => NatToString(i)
    case Obj(fields) => fields[i].0
  }

  /** `v[key]` for the `i`-th key: always smaller than `v` itself. */
  function MemberValue(v: Value, i: nat): (r: Value)
    requires IsComposite(v) && i < MemberCount(v)
    ensures r < v
  {
    match v
    case Arr(items) => items[i]
    case Obj(fields) => fields[i].1
  }

  /** Object.keys of a composite value. */
  function ObjectKeys(v: Value): (keys: seq<string>)
    requires IsComposite(v)
    ensures |keys| == MemberCount(v)
    ensures forall i :: 0 <= i < |keys| ==> keys[i] == MemberKey(v, i)
  {
    seq(MemberCount(v), i requires 0 <= i < MemberCount(v) => MemberKey(v, i))
  }

  /**
   * The fields appended for `v` under the name `parentKey`: a composite
   * value contributes the fields of its members in key order, anything
   * else (null, a Date, a File, a primitive) is one field, unchanged.
   */
  function Flatten(v: Value, parentKey: string): seq<Entry>
    decreases v, 1
  {
    if IsComposite(v) then FlattenMembers(v, parentKey, 0) else [(parentKey, v)]
  }

  /** The fields of the members of `v` from the `i`-th key on. */
  function FlattenMembers(v: Value, parentKey: string, i: nat): seq<Entry>
    requires IsComposite(v) && i <= MemberCount(v)
    decreases v, 0, MemberCount(v) - i
  {
    if i == MemberCount(v) then []
    else Flatten(MemberValue(v, i), ChildKey(parentKey, MemberKey(v, i))) + FlattenMembers(v, parentKey, i + 1)
  }

  // ---------------------------------------------------------------------
  // Reference definition: the leaves of a value, each with its key path
  // ---------------------------------------------------------------------

  /** A leaf of a value and the keys that lead to it from the root. */
  type Leaf = (seq<string>, Value)

  /** Puts `key` in front of the path of every leaf. */
  function Under(key: string, leaves: seq<Leaf>): (r: seq<Leaf>)
    ensures |r| == |leaves|
    ensures forall j :: 0 <= j < |r| ==> r[j] == ([key] + leaves[j].0, leaves[j].1)
  {
    seq(|leaves|, j requires 0 <= j < |leaves| => ([key] + leaves[j].0, leaves[j].1))
  }

  /** The leaves of `v`, depth first, members in key order. */
  function Leaves(v: Value): seq<Leaf>
    decreases v, 1
  {
    if IsComposite(v) then LeavesFrom(v, 0) else [([], v)]
  }

  function LeavesFrom(v: Value, i: nat): seq<Leaf>
    requires IsComposite(v) && i <= MemberCount(v)
    decreases v, 0, MemberCount(v) - i
  {
    if i == MemberCount(v) then []
    else Under(MemberKey(v, i), Leaves(MemberValue(v, i))) + LeavesFrom(v, i + 1)
  }

  /** The field name of a leaf reached by `path` from a value named `parentKey`. */
  function Render(parentKey: string, path: seq<string>): string
    decreases |path|
  {
    if path == [] then parentKey else Render(ChildKey(parentKey, path[0]), path[1..])
  }

  /** `[k1][k2]...[kn]` for the path k1, ..., kn. */
  function Brackets(path: seq<string>): string
  {
    if path == [] then "" else "[" + path[0] + "]" + Brackets(path[1..])
  }

  /** The leaves of a value as form fields, each named by rendering its path. */
  function RenderAll(parentKey: string, leaves: seq<Leaf>): (r: seq<Entry>)
    ensures |r| == |leaves|
    ensures forall j :: 0 <= j < |r| ==> r[j] == (Render(parentKey, leaves[j].0), leaves[j].1)
  {
    seq(|leaves|, j requires 0 <= j < |leaves| => (Render(parentKey, leaves[j].0), leaves[j].1))
  }

  // ---------------------------------------------------------------------
  // Properties of the flattening
  // ---------------------------------------------------------------------

  lemma RenderAllUnder(parentKey: string, key: string, leaves: seq<Leaf>)
    ensures RenderAll(parentKey, Under(key, leaves)) == RenderAll(ChildKey(parentKey, key), leaves)
  {
    var a, b := RenderAll(parentKey, Under(key, leaves)), RenderAll(ChildKey(parentKey, key), leaves);
    forall j | 0 <= j < |a| ensures a[j] == b[j] {
      assert ([key] + leaves[j].0)[1..] == leaves[j].0;
    }
  }

  lemma RenderAllAppend(parentKey: string, xs: seq<Leaf>, ys: seq<Leaf>)
    ensures RenderAll(parentKey, xs + ys) == RenderAll(parentKey, xs) + RenderAll(parentKey, ys)
  {
  }

  /**
   * Flattening is the leaf list with every path rendered as a bracket name:
   * one field per leaf, in depth-first key order, carrying the leaf
   * unchanged.
   */
  lemma {:induction false} FlattenIsRenderedLeaves(v: Value, parentKey: string)
    ensures Flatten(v, parentKey) == RenderAll(parentKey, Leaves(v))
    decreases v, 1
  {
    if IsComposite(v) {
      FlattenMembersIsRenderedLeaves(v, parentKey, 0);
    }
  }

  lemma {:induction false} FlattenMembersIsRenderedLeaves(v: Value, parentKey: string, i: nat)
    requires IsComposite(v) && i <= MemberCount(v)
    ensures FlattenMembers(v, parentKey, i) == RenderAll(parentKey, LeavesFrom(v, i))
    decreases v, 0, MemberCount(v) - i
  {
    if i < MemberCount(v) {
      FlattenMembersIsRenderedLeaves(v, parentKey, i + 1);
      var key, child := MemberKey(v, i), MemberValue(v, i);
      FlattenIsRenderedLeaves(child, ChildKey(parentKey, key));
      RenderAllUnder(parentKey, key, Leaves(child));
      RenderAllAppend(parentKey, Under(key, Leaves(child)), LeavesFrom(v, i + 1));
    }
  }

  /** Under a non-empty name every path renders as that name followed by `[k]` per key. */
  lemma {:induction false} RenderNested(parentKey: string, path: seq<string>)
    requires parentKey != ""
    ensures Render(parentKey, path) == parentKey + Brackets(path)
    decreases |path|
  {
    if path != [] {
      RenderNested(ChildKey(parentKey, path[0]), path[1..]);
    }
  }

  /**
   * At the root (empty name) a top-level key `k` is the name itself, and
   * the keys below it are bracketed: `k[c1][c2]...`. A child of an empty
   * key is not prefixed at all.
   */
  lemma RenderFromRoot(key: string, path: seq<string>)
    ensures key != "" ==> Render("", [key] + path) == key + Brackets(path)
    ensures key == "" ==> Render("", [key] + path) == Render("", path)
  {
    assert ([key] + path)[1..] == path;
    if key != "" {
      RenderNested(key, path);
    }
  }

  /** Every field name of a flattened value nested under a non-empty name starts with that name. */
  lemma FlattenKeysUnderParent(v: Value, parentKey: string, j: nat)
    requires parentKey != "" && j < |Flatten(v, parentKey)|
    ensures |Leaves(v)| == |Flatten(v, parentKey)|
    ensures Flatten(v, parentKey)[j] == (parentKey + Brackets(Leaves(v)[j].0), Leaves(v)[j].1)
  {
    FlattenIsRenderedLeaves(v, parentKey);
    RenderNested(parentKey, Leaves(v)[j].0);
  }

  /** Members of an object are flattened one after the other: `{...a, ...b}` gives the fields of `a` then those of `b`. */
  lemma {:induction false} FlattenMembersAppend(a: seq<(string, Value)>, b: seq<(string, Value)>, parentKey: string, i: nat)
    requires i <= |a|
    ensures FlattenMembers(Obj(a + b), parentKey, i) == FlattenMembers(Obj(a), parentKey, i) + FlattenMembers(Obj(b), parentKey, 0)
    decreases |a| - i
  {
    if i < |a| {
      var ab := Obj(a + b);
      var head := Flatten(MemberValue(Obj(a), i), ChildKey(parentKey, MemberKey(Obj(a), i)));
      var rest, second := FlattenMembers(Obj(a), parentKey, i + 1), FlattenMembers(Obj(b), parentKey, 0);
      FlattenMembersAppend(a, b, parentKey, i + 1);
      PrefixMember(a, b, parentKey, i);
      FlattenMembersStep(ab, parentKey, i);
      FlattenMembersStep(Obj(a), parentKey, i);
      SameAppend(Flatten(MemberValue(ab, i), ChildKey(parentKey, MemberKey(ab, i))), head,
                 FlattenMembers(ab, parentKey, i + 1), rest + second);
      ConcatAssoc(head, rest, second);
      SameAppend(FlattenMembers(Obj(a), parentKey, i), head + rest, second, second);
    } else {
      FlattenMembersShift(a, b, parentKey, 0);
      assert FlattenMembers(Obj(a), parentKey, i) == [];
      EmptyPrefix(FlattenMembers(Obj(b), parentKey, 0));
    }
  }

  /** The member at position i < |a| of a + b is the member at i of a. */
  lemma PrefixMember(a: seq<(string, Value)>, b: seq<(string, Value)>, parentKey: string, i: nat)
    requires i < |a|
    ensures MemberValue(Obj(a + b), i) == MemberValue(Obj(a), i)
    ensures ChildKey(parentKey, MemberKey(Obj(a + b), i)) == ChildKey(parentKey, MemberKey(Obj(a), i))
  {
    assert (a + b)[i] == a[i];
  }

  /** The member at position |a| + k of a + b is the member at k of b. */
  lemma ShiftedMember(a: seq<(string, Value)>, b: seq<(string, Value)>, parentKey: string, k: nat)
    requires k < |b|
    ensures MemberValue(Obj(a + b), |a| + k) == MemberValue(Obj(b), k)
    ensures ChildKey(parentKey, MemberKey(Obj(a + b), |a| + k)) == ChildKey(parentKey, MemberKey(Obj(b), k))
  {
    assert (a + b)[|a| + k] == b[k];
  }

  lemma {:induction false} FlattenMembersShift(a: seq<(string, Value)>, b: seq<(string, Value)>, parentKey: string, k: nat)
    requires k <= |b|
    ensures FlattenMembers(Obj(a + b), parentKey, |a| + k) == FlattenMembers(Obj(b), parentKey, k)
    decreases |b| - k
  {
    if k < |b| {
      var ab, n := Obj(a + b), |a| + k;
      FlattenMembersShift(a, b, parentKey, k + 1);
      ShiftedMember(a, b, parentKey, k);
      FlattenMembersStep(ab, parentKey, n);
      FlattenMembersStep(Obj(b), parentKey, k);
      SameAppend(Flatten(MemberValue(ab, n), ChildKey(parentKey, MemberKey(ab, n))),
                 Flatten(MemberValue(Obj(b), k), ChildKey(parentKey, MemberKey(Obj(b), k))),
                 FlattenMembers(ab, parentKey, n + 1), FlattenMembers(Obj(b), parentKey, k + 1));
    } else {
      assert MemberCount(Obj(a + b)) == |a| + k;
    }
  }

  /** Object key order is output order: the first member's fields come first. */
  lemma FlattenObjectOrder(key: string, child: Value, rest: seq<(string, Value)>, parentKey: string)
    ensures Flatten(Obj([(key, child)] + rest), parentKey)
         == Flatten(child, ChildKey(parentKey, key)) + Flatten(Obj(rest), parentKey)
  {
    FlattenMembersAppend([(key, child)], rest, parentKey, 0);
  }

  /** An empty object or array contributes no field at all. */
  lemma FlattenEmpty(parentKey: string)
    ensures Flatten(Obj([]), parentKey) == [] && Flatten(Arr([]), parentKey) == []
  {
  }

  /** Every appended value is a leaf: no array or object reaches FormData.append. */
  lemma {:induction false} FlattenAppendsOnlyLeaves(v: Value, parentKey: string)
    ensures forall j :: 0 <= j < |Flatten(v, parentKey)| ==> !IsComposite(Flatten(v, parentKey)[j].1)
    decreases v, 1
  {
    if IsComposite(v) {
      FlattenMembersAppendsOnlyLeaves(v, parentKey, 0);
    }
  }

  lemma {:induction false} FlattenMembersAppendsOnlyLeaves(v: Value, parentKey: string, i: nat)
    requires IsComposite(v) && i <= MemberCount(v)
    ensures forall j :: 0 <= j < |FlattenMembers(v, parentKey, i)| ==> !IsComposite(FlattenMembers(v, parentKey, i)[j].1)
    decreases v, 0, MemberCount(v) - i
  {
    if i < MemberCount(v) {
      var head := Flatten(MemberValue(v, i), ChildKey(parentKey, MemberKey(v, i)));
      var tail := FlattenMembers(v, parentKey, i + 1);
      FlattenAppendsOnlyLeaves(MemberValue(v, i), ChildKey(parentKey, MemberKey(v, i)));
      FlattenMembersAppendsOnlyLeaves(v, parentKey, i + 1);
      assert FlattenMembers(v, parentKey, i) == head + tail;
      var both: seq<Entry> := head + tail;
      forall j | 0 <= j < |both| ensures !IsComposite(both[j].1) {
        if j < |head| {
          assert both[j] == head[j];
        } else {
          assert both[j] == tail[j - |head|];
        }
      }
    }
  }

  /** A value that is not a composite is appended once, unchanged, under its name; a non-object root goes under ''. */
  lemma FlattenLeaf(v: Value, parentKey: string)
    requires !IsComposite(v)
    ensures Flatten(v, parentKey) == [(parentKey, v)]
    ensures Flatten(v, "") == [("", v)]
  {
  }

  /** `{a: 1, b: {c: 2, d: 3}}` gives `a=1`, `b[c]=2`, `b[d]=3`. */
  lemma FlattenExample()
    ensures Flatten(Obj([("a", Num(1)), ("b", Obj([("c", Num(2)), ("d", Num(3))]))]), "")
         == [("a", Num(1)), ("b[c]", Num(2)), ("b[d]", Num(3))]
  {
    FlattenObjectOrder("a", Num(1), [("b", Obj([("c", Num(2)), ("d", Num(3))]))], "");
    FlattenObjectOrder("b", Obj([("c", Num(2)), ("d", Num(3))]), [], "");
    FlattenObjectOrder("c", Num(2), [("d", Num(3))], "b");
    FlattenObjectOrder("d", Num(3), [], "b");
    assert ChildKey("b", "c") == "b[c]" && ChildKey("b", "d") == "b[d]";
    assert Flatten(Obj([]), "") == [] && Flatten(Obj([]), "b") == [];
  }

  lemma FlattenMembersStep(v: Value, parentKey: string, i: nat)
    requires IsComposite(v) && i < MemberCount(v)
    ensures FlattenMembers(v, parentKey, i)
         == Flatten(MemberValue(v, i), ChildKey(parentKey, MemberKey(v, i))) + FlattenMembers(v, parentKey, i + 1)
  {
  }

  /** What the form holds after `i` rounds of the key loop, starting from `start`. */
  function AfterRounds(start: seq<Entry>, v: Value, parentKey: string, i: nat): seq<Entry>
    requires IsComposite(v) && i <= MemberCount(v)
  {
    if i == 0 then start
    else AfterRounds(start, v, parentKey, i - 1) + Flatten(MemberValue(v, i - 1), ChildKey(parentKey, MemberKey(v, i - 1)))
  }

  /** The rounds done so far followed by the members still to come are all the members. */
  lemma {:induction false} AfterRoundsThenRest(start: seq<Entry>, v: Value, parentKey: string, i: nat)
    requires IsComposite(v) && i <= MemberCount(v)
    ensures AfterRounds(start, v, parentKey, i) + FlattenMembers(v, parentKey, i) == start + FlattenMembers(v, parentKey, 0)
    decreases i
  {
    if i > 0 {
      var before := AfterRounds(start, v, parentKey, i - 1);
      var member := Flatten(MemberValue(v, i - 1), ChildKey(parentKey, MemberKey(v, i - 1)));
      var after := FlattenMembers(v, parentKey, i);
      AfterRoundsThenRest(start, v, parentKey, i - 1);
      FlattenMembersStep(v, parentKey, i - 1);
      ConcatAssoc(before, member, after);
      SameAppend(before, before, FlattenMembers(v, parentKey, i - 1), member + after);
      SameAppend(AfterRounds(start, v, parentKey, i), before + member, after, after);
    }
  }

  /** After the last round every member has been appended. */
  lemma AfterAllRounds(start: seq<Entry>, v: Value, parentKey: string)
    requires IsComposite(v)
    ensures AfterRounds(start, v, parentKey, MemberCount(v)) == start + FlattenMembers(v, parentKey, 0)
  {
    var n := MemberCount(v);
    AfterRoundsThenRest(start, v, parentKey, n);
    assert FlattenMembers(v, parentKey, n) == [];
    assert AfterRounds(start, v, parentKey, n) + [] == AfterRounds(start, v, parentKey, n);
  }

  // ---------------------------------------------------------------------
  // Sequence identities
  // ---------------------------------------------------------------------

  // The proofs above call these instead of asserting the equalities in
  // place: stated inline, an equality between concatenations of field
  // lists sends the solver into a long search, while a call leaves it only
  // the given terms to substitute.

  lemma EmptyPrefix(s: seq<Entry>)
    ensures [] + s == s
  {
  }

  lemma SameAppend(x: seq<Entry>, y: seq<Entry>, t1: seq<Entry>, t2: seq<Entry>)
    requires x == y && t1 == t2
    ensures x + t1 == y + t2
  {
  }

  lemma {:induction false} ConcatAssoc(a: seq<Entry>, b: seq<Entry>, c: seq<Entry>)
    ensures (a + b) + c == a + (b + c)
  {
  }

  // ---------------------------------------------------------------------
  // The form accumulator and the recursive walk that fills it
  // ---------------------------------------------------------------------

  /** A FormData object: the fields appended so far, in order. */
  class FormData {
    var entries: seq<Entry>

    constructor ()
      ensures entries == []
    {
      entries := [];
    }

    method Append(name: string, value: Value)
      modifies this
      ensures entries == old(entries) + [(name, value)]
    {
      entries := entries + [(name, value)];
    }
  }

  /**
   * The inner walk of jsonToFormData: descends into composites and appends
   * every other value under its accumulated name.
   */
  method AppendFormData(form: FormData, data: Value, parentKey: string)
    modifies form
    ensures form.entries == old(form.entries) + Flatten(data, parentKey)
    decreases data, 1
  {
    if IsComposite(data) {
      AppendMembers(form, data, parentKey);
    } else {
      form.Append(parentKey, data);
    }
  }

  /** The key-by-key loop over the members of a composite. */
  method AppendMembers(form: FormData, data: Value, parentKey: string)
    requires IsComposite(data)
    modifies form
    ensures form.entries == old(form.entries) + FlattenMembers(data, parentKey, 0)
    decreases data, 0
  {
    ghost var start := form.entries;
    var keys := ObjectKeys(data);
    var i := 0;
    while i < |keys|
      invariant 0 <= i <= |keys|
      invariant form.entries == AfterRounds(start, data, parentKey, i)
    {
      var name := ChildKey(parentKey, keys[i]);
      assert name == ChildKey(parentKey, MemberKey(data, i));
      AppendFormData(form, MemberValue(data, i), name);
      i := i + 1;
    }
    AfterAllRounds(start, data, parentKey);
  }

  /** jsonToFormData: a fresh form holding the flattening of `json` from the empty name. */
  method JsonToFormData(json: Value) returns (form: FormData)
    ensures fresh(form)
    ensures form.entries == Flatten(json, "")
  {
    form := new FormData();
    AppendFormData(form, json, "");
  }
}
