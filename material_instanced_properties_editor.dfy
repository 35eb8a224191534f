/**
 * The authoring side: reconciling the stored override list with the
 * shader's parameter table, the editing view the inspector presents, the
 * float-as-toggle presentation rule, and the inspector's edits of one entry.
 */
module InstancedPropertiesEditor {
  import opened Wrappers
  import opened Engine
  import opened InstancedProperties
  import opened ShaderUtilExtensions

  /** The first position of `name` in `names`, or -1 when it does not occur. */
  function IndexOf(names: seq<string>, name: string): (r: int)
    ensures -1 <= r < |names|
    ensures r == -1 <==> name !in names
    ensures r >= 0 ==> names[r] == name && forall j :: 0 <= j < r ==> names[j] != name
  {
    if names == [] then -1
    else if names[0] == name then 0
    else
      var k := IndexOf(names[1..], name);
      if k == -1 then -1 else k + 1
  }

  /** Appending a name leaves the position of every earlier name alone. */
  lemma {:induction false} IndexOfAppend(names: seq<string>, z: string, y: string)
    ensures IndexOf(names + [z], y) ==
      if y in names then IndexOf(names, y) else if y == z then |names| else -1
  {
    if names != [] {
      assert (names + [z])[1..] == names[1..] + [z];
      IndexOfAppend(names[1..], z, y);
    }
  }

  // ---------------------------------------------------------------------
  // Reconciliation with the shader's parameter table
  // ---------------------------------------------------------------------

  /**
   * The entry created for a parameter the list does not track yet: typed by
   * the parameter's declared type, seeded with the material's current value
   * for that name, and not overriding.
   */
  function NewEntry(sp: ShaderProperty, material: Material): (p: MaterialProperty)
    ensures p.Name == sp.name && p.Desc == sp.description && !p.Change
    ensures sp.kind.ColorKind? ==> p.Type == ColorTag && p.ColorValue == material.getColor(sp.name)
    ensures sp.kind.TexEnvKind? ==> p.Type == TextureTag && p.TextureValue == material.getTexture(sp.name)
    ensures sp.kind.VectorKind? ==> p.Type == VectorTag && p.VectorValue == material.getVector(sp.name)
    ensures !sp.kind.ColorKind? && !sp.kind.TexEnvKind? && !sp.kind.VectorKind? ==>
      p.Type == FloatTag && p.FloatValue == material.getFloat(sp.name)
  {
    match sp.kind
    case ColorKind => NewColorProperty(sp.name, sp.description, material.getColor(sp.name))
    case TexEnvKind => NewTextureProperty(sp.name, sp.description, material.getTexture(sp.name))
    case VectorKind => NewVectorProperty(sp.name, sp.description, material.getVector(sp.name))
    case _ => NewFloatProperty(sp.name, sp.description, material.getFloat(sp.name))
  }

  /** Some stored entry carries `name` (exact comparison). */
  predicate HasEntryNamed(props: seq<MaterialProperty>, name: string)
  {
    exists i :: 0 <= i < |props| && props[i].Name == name
  }

  /** One step of reconciliation: append an entry for `sp` unless its name is already stored. */
  function AddIfMissing(props: seq<MaterialProperty>, sp: ShaderProperty, material: Material): (r: seq<MaterialProperty>)
    ensures HasEntryNamed(r, sp.name)
    ensures HasEntryNamed(props, sp.name) ==> r == props
    ensures !HasEntryNamed(props, sp.name) ==> r == props + [NewEntry(sp, material)]
  {
    if HasEntryNamed(props, sp.name) then props
    else
      var r := props + [NewEntry(sp, material)];
      assert r[|props|].Name == sp.name;
      r
  }

  /** The list after visiting every parameter of `table` in index order. */
  function Reconcile(table: seq<ShaderProperty>, material: Material, props: seq<MaterialProperty>): (r: seq<MaterialProperty>)
    ensures |props| <= |r| <= |props| + |table|
    ensures r[..|props|] == props
    decreases |table|
  {
    if table == [] then props
    else AddIfMissing(Reconcile(table[..|table| - 1], material, props), table[|table| - 1], material)
  }

  /**
   * `p` is the entry reconciliation creates for the first parameter of
   * `table` named `p.Name`, and that name was not stored in `props`.
   */
  ghost predicate AppendedFor(table: seq<ShaderProperty>, material: Material, props: seq<MaterialProperty>, p: MaterialProperty)
  {
    var k := IndexOf(PropertyNames(table), p.Name);
    && 0 <= k < |table|
    && p == NewEntry(table[k], material)
    && !HasEntryNamed(props, p.Name)
  }

  /**
   * What reconciliation produces from `props`: the old list unchanged,
   * followed by exactly one new entry per parameter name that was not
   * stored, built from that name's first row in `table` and ordered by that
   * row's index; and every parameter of the table has a stored entry.
   */
  ghost predicate ReconcileShape(table: seq<ShaderProperty>, material: Material, props: seq<MaterialProperty>, r: seq<MaterialProperty>)
  {
    && |props| <= |r|
    && r[..|props|] == props
    && (forall i :: 0 <= i < |table| ==> HasEntryNamed(r, table[i].name))
    && (forall j :: |props| <= j < |r| ==> AppendedFor(table, material, props, r[j]))
    && (forall j1, j2 :: |props| <= j1 < j2 < |r| ==>
          IndexOf(PropertyNames(table), r[j1].Name) < IndexOf(PropertyNames(table), r[j2].Name))
  }

  lemma PropertyNamesAppend(t: seq<ShaderProperty>, x: ShaderProperty)
    ensures PropertyNames(t + [x]) == PropertyNames(t) + [x.name]
  {
  }

  /** An entry appended for a row of `t` is still the one appended for that row once the table grows. */
  lemma AppendedForExtend(t: seq<ShaderProperty>, x: ShaderProperty, material: Material, props: seq<MaterialProperty>, p: MaterialProperty)
    requires AppendedFor(t, material, props, p)
    ensures IndexOf(PropertyNames(t + [x]), p.Name) == IndexOf(PropertyNames(t), p.Name) < |t|
    ensures AppendedFor(t + [x], material, props, p)
  {
    var names := PropertyNames(t);
    var k := IndexOf(names, p.Name);
    assert names[k] == p.Name;
    PropertyNamesAppend(t, x);
    IndexOfAppend(names, x.name, p.Name);
    assert (t + [x])[k] == t[k];
  }

  /** Visiting one more row keeps the shape of the result. */
  lemma ReconcileStep(t: seq<ShaderProperty>, x: ShaderProperty, material: Material, props: seq<MaterialProperty>, r0: seq<MaterialProperty>)
    requires ReconcileShape(t, material, props, r0)
    ensures ReconcileShape(t + [x], material, props, AddIfMissing(r0, x, material))
  {
    var table := t + [x];
    var r := AddIfMissing(r0, x, material);
    var names, names' := PropertyNames(t), PropertyNames(table);
    forall j | |props| <= j < |r0|
      ensures IndexOf(names', r0[j].Name) == IndexOf(names, r0[j].Name) < |t|
      ensures AppendedFor(table, material, props, r0[j])
    {
      AppendedForExtend(t, x, material, props, r0[j]);
    }
    forall i | 0 <= i < |t| ensures table[i] == t[i] && HasEntryNamed(r0, table[i].name) { }
    if !HasEntryNamed(r0, x.name) {
      var e := NewEntry(x, material);
      assert r == r0 + [e];
      forall i | 0 <= i < |t| ensures names[i] != x.name {
        assert HasEntryNamed(r0, t[i].name);
      }
      assert x.name !in names;
      PropertyNamesAppend(t, x);
      IndexOfAppend(names, x.name, x.name);
      forall i | 0 <= i < |props| ensures props[i].Name != x.name {
        assert r0[i] == r0[..|props|][i];
      }
      assert AppendedFor(table, material, props, e);
      assert HasEntryNamed(r, x.name) by { assert r[|r0|].Name == x.name; }
      forall i | 0 <= i < |t| ensures HasEntryNamed(r, table[i].name) {
        var w :| 0 <= w < |r0| && r0[w].Name == table[i].name;
        assert r[w] == r0[w];
      }
      assert r[..|props|] == r0[..|props|];
    }
  }

  /** `Reconcile` has the shape described by `ReconcileShape`. */
  lemma {:induction false} ReconcileSpec(table: seq<ShaderProperty>, material: Material, props: seq<MaterialProperty>)
    ensures ReconcileShape(table, material, props, Reconcile(table, material, props))
  {
    if table != [] {
      var n := |table| - 1;
      assert table == table[..n] + [table[n]];
      ReconcileSpec(table[..n], material, props);
      ReconcileStep(table[..n], table[n], material, props, Reconcile(table[..n], material, props));
    }
  }

  /** Reconciliation never removes or rewrites a stored entry, whatever the shader declares. */
  lemma ReconcileKeepsStoredEntries(table: seq<ShaderProperty>, material: Material, props: seq<MaterialProperty>)
    ensures |props| <= |Reconcile(table, material, props)|
    ensures forall i :: 0 <= i < |props| ==> Reconcile(table, material, props)[i] == props[i]
  {
    ReconcileSpec(table, material, props);
    var r := Reconcile(table, material, props);
    forall i | 0 <= i < |props| ensures r[i] == props[i] {
      assert r[..|props|][i] == r[i];
    }
  }

  /** A list that already tracks every parameter of the table is left as it is. */
  lemma {:induction false} ReconcileCoveredIsIdentity(table: seq<ShaderProperty>, material: Material, props: seq<MaterialProperty>)
    requires forall i :: 0 <= i < |table| ==> HasEntryNamed(props, table[i].name)
    ensures Reconcile(table, material, props) == props
  {
    if table != [] {
      var n := |table| - 1;
      forall i | 0 <= i < n ensures HasEntryNamed(props, table[..n][i].name) {
        assert table[..n][i] == table[i];
      }
      ReconcileCoveredIsIdentity(table[..n], material, props);
      assert HasEntryNamed(props, table[n].name);
    }
  }

  /** Reconciling a second time with the same table and material changes nothing. */
  lemma ReconcileIdempotent(table: seq<ShaderProperty>, material: Material, props: seq<MaterialProperty>)
    ensures Reconcile(table, material, Reconcile(table, material, props)) == Reconcile(table, material, props)
  {
    ReconcileSpec(table, material, props);
    ReconcileCoveredIsIdentity(table, material, Reconcile(table, material, props));
  }

  /** No two entries of the list share a name. */
  ghost predicate DistinctNames(props: seq<MaterialProperty>)
  {
    forall i, j :: 0 <= i < j < |props| ==> props[i].Name != props[j].Name
  }

  /** Reconciliation introduces no duplicate name, even when the table repeats one. */
  lemma ReconcileKeepsNamesDistinct(table: seq<ShaderProperty>, material: Material, props: seq<MaterialProperty>)
    requires DistinctNames(props)
    ensures DistinctNames(Reconcile(table, material, props))
  {
    ReconcileSpec(table, material, props);
    var r := Reconcile(table, material, props);
    forall i, j | 0 <= i < j < |r| ensures r[i].Name != r[j].Name {
      if j < |props| {
        assert r[i] == r[..|props|][i] && r[j] == r[..|props|][j];
      } else if i < |props| {
        assert r[i] == r[..|props|][i];
        assert AppendedFor(table, material, props, r[j]);
        assert !HasEntryNamed(props, r[j].Name);
      } else {
        assert IndexOf(PropertyNames(table), r[i].Name) < IndexOf(PropertyNames(table), r[j].Name);
      }
    }
  }

  // ---------------------------------------------------------------------
  // The editing view
  // ---------------------------------------------------------------------

  /** The sort key of stored entry `i`: the declaration index of its name. */
  function DeclarationIndex(props: seq<MaterialProperty>, names: seq<string>, i: nat): int
  {
    if i < |props| then IndexOf(names, props[i].Name) else -1
  }

  /** Stored entry `a` comes before stored entry `b`: earlier declaration, or same declaration and earlier in the list. */
  ghost predicate Precedes(props: seq<MaterialProperty>, names: seq<string>, a: nat, b: nat)
  {
    || DeclarationIndex(props, names, a) < DeclarationIndex(props, names, b)
    || (DeclarationIndex(props, names, a) == DeclarationIndex(props, names, b) && a < b)
  }

  ghost predicate InViewOrder(props: seq<MaterialProperty>, names: seq<string>, view: seq<nat>)
  {
    forall a, b :: 0 <= a < b < |view| ==> Precedes(props, names, view[a], view[b])
  }

  ghost predicate StrictlyIncreasing(view: seq<nat>)
  {
    forall a, b :: 0 <= a < b < |view| ==> view[a] < view[b]
  }

  /** Inserts `x` before the first element whose key is not smaller. */
  function InsertByDeclaration(props: seq<MaterialProperty>, names: seq<string>, x: nat, sorted: seq<nat>): (r: seq<nat>)
    ensures multiset(r) == multiset(sorted) + multiset{x}
  {
    if sorted == [] then [x]
    else if DeclarationIndex(props, names, x) <= DeclarationIndex(props, names, sorted[0]) then [x] + sorted
    else
      assert sorted == [sorted[0]] + sorted[1..];
      [sorted[0]] + InsertByDeclaration(props, names, x, sorted[1..])
  }

  /** A stable sort of `view` by declaration index (LINQ's `OrderBy`). */
  function OrderByDeclaration(props: seq<MaterialProperty>, names: seq<string>, view: seq<nat>): (r: seq<nat>)
    ensures multiset(r) == multiset(view)
  {
    if view == [] then []
    else
      assert view == [view[0]] + view[1..];
      InsertByDeclaration(props, names, view[0], OrderByDeclaration(props, names, view[1..]))
  }

  lemma {:induction false} InsertKeepsOrder(props: seq<MaterialProperty>, names: seq<string>, x: nat, sorted: seq<nat>)
    requires InViewOrder(props, names, sorted)
    requires forall k :: 0 <= k < |sorted| ==> x < sorted[k]
    ensures InViewOrder(props, names, InsertByDeclaration(props, names, x, sorted))
  {
    if sorted != [] && DeclarationIndex(props, names, x) > DeclarationIndex(props, names, sorted[0]) {
      var tail := sorted[1..];
      InsertKeepsOrder(props, names, x, tail);
      var rest := InsertByDeclaration(props, names, x, tail);
      forall k | 0 <= k < |rest| ensures Precedes(props, names, sorted[0], rest[k]) {
        assert rest[k] in multiset(rest);
        if rest[k] != x {
          assert rest[k] in multiset(tail);
          var m :| 0 <= m < |tail| && tail[m] == rest[k];
          assert sorted[m + 1] == tail[m];
        }
      }
    }
  }

  /** Sorting a list of distinct, ascending positions orders them by (declaration index, position). */
  lemma {:induction false} OrderByDeclarationSorts(props: seq<MaterialProperty>, names: seq<string>, view: seq<nat>)
    requires StrictlyIncreasing(view)
    ensures InViewOrder(props, names, OrderByDeclaration(props, names, view))
  {
    if view != [] {
      var tail := view[1..];
      OrderByDeclarationSorts(props, names, tail);
      var sorted := OrderByDeclaration(props, names, tail);
      forall k | 0 <= k < |sorted| ensures view[0] < sorted[k] {
        assert sorted[k] in multiset(sorted);
        assert sorted[k] in multiset(tail);
        var m :| 0 <= m < |tail| && tail[m] == sorted[k];
        assert view[m + 1] == tail[m];
      }
      InsertKeepsOrder(props, names, view[0], sorted);
    }
  }

  /** The filter pass of the view: positions of the stored entries whose name the shader declares, in list order. */
  method DeclaredEntries(props: seq<MaterialProperty>, shader: Shader) returns (finalProps: seq<nat>)
    ensures forall k :: 0 <= k < |finalProps| ==> finalProps[k] < |props|
    ensures StrictlyIncreasing(finalProps)
    ensures forall i: nat :: i in finalProps <==> i < |props| && props[i].Name in PropertyNames(shader.properties)
  {
    finalProps := [];
    for i := 0 to |props|
      invariant forall k :: 0 <= k < |finalProps| ==> finalProps[k] < i
      invariant StrictlyIncreasing(finalProps)
      invariant forall j: nat :: j in finalProps <==> j < i && props[j].Name in PropertyNames(shader.properties)
    {
      var declared := HasShaderProperty(shader, props[i].Name);
      if declared {
        finalProps := finalProps + [i];
      }
    }
  }

  /**
   * The entries the inspector shows, as positions in the stored list: those
   * whose name the shader declares, ordered by declaration index and, for
   * the same index, by stored position.
   */
  method BuildEditingView(props: seq<MaterialProperty>, shader: Shader) returns (view: seq<nat>)
    ensures forall k :: 0 <= k < |view| ==> view[k] < |props|
    ensures forall i: nat :: i in view <==> i < |props| && props[i].Name in PropertyNames(shader.properties)
    ensures InViewOrder(props, PropertyNames(shader.properties), view)
  {
    var finalProps := DeclaredEntries(props, shader);
    var names := GetShaderPropertyNames(shader);
    view := OrderByDeclaration(props, names, finalProps);
    OrderByDeclarationSorts(props, names, finalProps);
    forall i: nat ensures i in view <==> i in finalProps {
      assert i in view <==> i in multiset(view);
      assert i in finalProps <==> i in multiset(finalProps);
    }
    forall k | 0 <= k < |view| ensures view[k] < |props| {
      assert view[k] in view;
    }
  }

  // ---------------------------------------------------------------------
  // Presenting a float as a toggle
  // ---------------------------------------------------------------------

  /** `Mathf.Clamp01`. */
  function Clamp01(v: real): (r: real)
    ensures 0.0 <= r <= 1.0
    ensures 0.0 <= v <= 1.0 ==> r == v
    ensures r == 0.0 <==> v <= 0.0
    ensures r == 1.0 <==> v >= 1.0
  {
    if v < 0.0 then 0.0 else if v > 1.0 then 1.0 else v
  }

  /** The state a toggle shows for a stored float: the clamped value converted to a boolean. */
  function ToggleState(stored: real): (on: bool)
    ensures on <==> stored > 0.0
  {
    Clamp01(stored) != 0.0
  }

  /** The float a toggle edit stores. */
  function ToggleValue(on: bool): (stored: real)
    ensures stored == 1.0 || stored == 0.0
    ensures ToggleState(stored) == on
  {
    if on then 1.0 else 0.0
  }

  /** Upper-cases an ASCII letter; every other character is left as it is. */
  function UpperAscii(c: char): char
  {
    if 'a' <= c <= 'z' then (c as int - 32) as char else c
  }

  predicate EqualsIgnoreCase(a: string, b: string)
  {
    |a| == |b| && forall i :: 0 <= i < |a| ==> UpperAscii(a[i]) == UpperAscii(b[i])
  }

  /** The parameter's attributes include "Toggle", compared ignoring case. */
  predicate HasToggleAttribute(attrs: seq<string>)
    ensures HasToggleAttribute(attrs) ==> exists k :: 0 <= k < |attrs| && |attrs[k]| == |"Toggle"|
  {
    exists k :: 0 <= k < |attrs| && EqualsIgnoreCase(attrs[k], "Toggle")
  }

  /** `s` with every ASCII letter upper-cased. */
  function UpperString(s: string): (u: string)
    ensures |u| == |s|
    ensures forall i :: 0 <= i < |s| ==> u[i] == UpperAscii(s[i])
  {
    seq(|s|, i requires 0 <= i < |s| => UpperAscii(s[i]))
  }

  /** Changing the case of any attribute's letters never changes whether the toggle attribute is found. */
  lemma ToggleAttributeIgnoresCase(attrs: seq<string>, k: int)
    requires 0 <= k < |attrs|
    ensures HasToggleAttribute(attrs[k := UpperString(attrs[k])]) == HasToggleAttribute(attrs)
  {
    var attrs' := attrs[k := UpperString(attrs[k])];
    assert EqualsIgnoreCase(attrs'[k], "Toggle") == EqualsIgnoreCase(attrs[k], "Toggle") by {
      forall i | 0 <= i < |attrs[k]| ensures UpperAscii(attrs'[k][i]) == UpperAscii(attrs[k][i]) { }
    }
    if HasToggleAttribute(attrs) {
      var j :| 0 <= j < |attrs| && EqualsIgnoreCase(attrs[j], "Toggle");
      assert EqualsIgnoreCase(attrs'[j], "Toggle");
    }
    if HasToggleAttribute(attrs') {
      var j :| 0 <= j < |attrs'| && EqualsIgnoreCase(attrs'[j], "Toggle");
      assert EqualsIgnoreCase(attrs[j], "Toggle");
    }
  }

  /** Examples: any case is accepted; a longer word or an empty list is not. */
  lemma ToggleAttributeExamples()
    ensures HasToggleAttribute(["HDR", "TOGGLE"])
    ensures HasToggleAttribute(["toggle"])
    ensures !HasToggleAttribute(["Toggled", "HDR"])
    ensures !HasToggleAttribute([])
  {
    assert EqualsIgnoreCase(["HDR", "TOGGLE"][1], "Toggle");
    assert EqualsIgnoreCase(["toggle"][0], "Toggle");
  }

  // ---------------------------------------------------------------------
  // Editing one entry
  // ---------------------------------------------------------------------

  /**
   * The values the inspector's field widgets return for one row: the
   * colour picker, the texture field, the toggle, the float field and the
   * vector field. Only the widget matching the entry's type is shown.
   */
  datatype WidgetInput = WidgetInput(color: Color, texture: Option<Texture>, toggle: bool, number: real, vector: Vector4)

  /** The entry after its value widget reports an edit: the payload field named by `Type` takes the widget's value. */
  function EditedEntry(p: MaterialProperty, attrs: seq<string>, input: WidgetInput): (q: MaterialProperty)
    ensures q.Name == p.Name && q.Desc == p.Desc && q.Type == p.Type && q.Change == p.Change
    ensures q.ColorValue != p.ColorValue ==> p.Type == ColorTag
    ensures q.TextureValue != p.TextureValue ==> p.Type == TextureTag
    ensures q.FloatValue != p.FloatValue ==> p.Type == FloatTag
    ensures q.VectorValue != p.VectorValue ==> p.Type == VectorTag
    ensures p.Type == ColorTag ==> q.ColorValue == input.color
    ensures p.Type == TextureTag ==> q.TextureValue == input.texture
    ensures p.Type == FloatTag && HasToggleAttribute(attrs) ==> q.FloatValue == ToggleValue(input.toggle)
    ensures p.Type == FloatTag && HasToggleAttribute(attrs) ==> q.FloatValue == 1.0 || q.FloatValue == 0.0
    ensures p.Type == FloatTag && !HasToggleAttribute(attrs) ==> q.FloatValue == input.number
    ensures p.Type == VectorTag ==> q.VectorValue == input.vector
  {
    if p.Type == ColorTag then p.(ColorValue := input.color)
    else if p.Type == TextureTag then p.(TextureValue := input.texture)
    else if p.Type == FloatTag then
      p.(FloatValue := if HasToggleAttribute(attrs) then ToggleValue(input.toggle) else input.number)
    else if p.Type == VectorTag then p.(VectorValue := input.vector)
    else p
  }

  /**
   * A shader declaring a colour `Tint` and a toggled float `Glow`: the list
   * starts empty and gains two disabled entries seeded from the material;
   * overriding Tint with red binds only Tint; switching the Glow toggle on
   * adds Glow = 1.0; turning Tint's override off leaves only Glow.
   */
  lemma TintAndGlowScenario(material: Material)
    requires material.shader.properties ==
      [ShaderProperty("Tint", ColorKind, "Tint"), ShaderProperty("Glow", FloatKind, "Glow")]
    requires material.getColor("Tint") == White && material.getFloat("Glow") == 0.0
    ensures
      var red := Color(1.0, 0.0, 0.0, 1.0);
      var tint := NewColorProperty("Tint", "Tint", White);
      var glow := NewFloatProperty("Glow", "Glow", 0.0);
      var s1 := [EditedEntry(tint.(Change := true), [], WidgetInput(red, None, false, 0.0, ZeroVector)), glow];
      var s2 := [s1[0], EditedEntry(glow.(Change := true), ["Toggle"], WidgetInput(White, None, true, 0.0, ZeroVector))];
      var s3 := [s2[0].(Change := false), s2[1]];
      && Reconcile(material.shader.properties, material, []) == [tint, glow]
      && Written(s1) == map["Tint" := ColorEntry(red)]
      && Written(s2) == map["Tint" := ColorEntry(red), "Glow" := FloatEntry(1.0)]
      && Written(s3) == map["Glow" := FloatEntry(1.0)]
  {
    var table := material.shader.properties;
    var tint := NewColorProperty("Tint", "Tint", White);
    var glow := NewFloatProperty("Glow", "Glow", 0.0);
    assert table[..1] == [table[0]];
    assert Reconcile(table[..1], material, []) == [tint] by {
      assert table[..1][..0] == [];
      assert !HasEntryNamed([], "Tint");
    }
    assert !HasEntryNamed([tint], "Glow");
    assert HasToggleAttribute(["Toggle"]) by {
      assert EqualsIgnoreCase(["Toggle"][0], "Toggle");
    }
    var red := Color(1.0, 0.0, 0.0, 1.0);
    var s1 := [EditedEntry(tint.(Change := true), [], WidgetInput(red, None, false, 0.0, ZeroVector)), glow];
    var s2 := [s1[0], EditedEntry(glow.(Change := true), ["Toggle"], WidgetInput(White, None, true, 0.0, ZeroVector))];
    var s3 := [s2[0].(Change := false), s2[1]];
    assert s1[..1] == [s1[0]] && s2[..1] == [s2[0]] && s3[..1] == [s3[0]];
    assert [s1[0]][..0] == [] && [s2[0]][..0] == [] && [s3[0]][..0] == [];
    assert Payload(glow) == None;
    assert Written([s1[0]]) == map["Tint" := ColorEntry(red)];
    assert Written(s1) == Written([s1[0]]);
    assert Payload(s3[0]) == None;
    assert Written([s3[0]]) == map[];
  }

  /** The inspector of one component, holding the material and shader it found when enabled. */
  class MaterialInstancedPropertiesEditor {
    const target: MaterialInstancedProperties
    var material: Option<Material>

    constructor (target: MaterialInstancedProperties)
      ensures this.target == target && material == None
    {
      this.target := target;
      material := None;
    }

    /** Picks up the renderer's shared material, when there is one, and reconciles the list with its shader. */
    method OnEnable()
      modifies this, target`Properties
      ensures target.renderer != null && target.renderer.sharedMaterial.Some? ==>
        material == target.renderer.sharedMaterial
      ensures !(target.renderer != null && target.renderer.sharedMaterial.Some?) ==> material == old(material)
      ensures material.None? ==> target.Properties == old(target.Properties)
      ensures material.Some? ==>
        target.Properties == Reconcile(material.value.shader.properties, material.value, old(target.Properties))
    {
      var r := target.renderer;
      if r != null && r.sharedMaterial.Some? {
        material := r.sharedMaterial;
      }
      PopulatePropertiesFromShader();
    }

    /** Appends an entry for every shader parameter whose name is not yet stored, in index order. */
    method PopulatePropertiesFromShader()
      modifies target`Properties
      ensures material.None? ==> target.Properties == old(target.Properties)
      ensures material.Some? ==>
        target.Properties == Reconcile(material.value.shader.properties, material.value, old(target.Properties))
    {
      if material.Some? {
        var mat := material.value;
        var table := mat.shader.properties;
        var propertyCount := |table|;
        if propertyCount > 0 {
          for i := 0 to propertyCount
            invariant target.Properties == Reconcile(table[..i], mat, old(target.Properties))
          {
            assert table[..i + 1][..i] == table[..i];
            var name := table[i].name;
            if !HasEntryNamed(target.Properties, name) {
              var newProp := NewEntry(table[i], mat);
              target.Properties := target.Properties + [newProp];
            }
          }
          assert table[..propertyCount] == table;
        }
      }
    }

    /** The override tick box of stored entry `k` was clicked: only that entry's flag changes. */
    method SetOverride(k: nat, on: bool)
      requires k < |target.Properties|
      modifies target`Properties
      ensures target.Properties == old(target.Properties)[k := old(target.Properties)[k].(Change := on)]
    {
      target.Properties := target.Properties[k := target.Properties[k].(Change := on)];
    }

    /** The value widget of stored entry `k` reported an edit. */
    method CommitValue(k: nat, attrs: seq<string>, input: WidgetInput)
      requires k < |target.Properties|
      modifies target`Properties
      ensures target.Properties == old(target.Properties)[k := EditedEntry(old(target.Properties)[k], attrs, input)]
    {
      target.Properties := target.Properties[k := EditedEntry(target.Properties[k], attrs, input)];
    }
  }
}
