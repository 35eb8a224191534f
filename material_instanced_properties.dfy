/**
 * The runtime side: the override entry record and the component that writes
 * the enabled overrides of its list into one lazily created property block
 * and binds that block to the object's renderer.
 */
module InstancedProperties {
  import opened Wrappers
  import opened Engine

  /** The type tags an entry's `Type` string may carry. */
  const ColorTag := "Color"
  const TextureTag := "Texture"
  const FloatTag := "Float"
  const VectorTag := "Vector"

  /**
   * One stored override: the parameter name, its label, a type tag naming
   * which payload field is meaningful, the override flag, and one field per
   * payload type (only the one named by `Type` is used).
   */
  datatype MaterialProperty = MaterialProperty(
    Name: string,
    Desc: string,
    Type: string,
    Change: bool,
    ColorValue: Color,
    TextureValue: Option<Texture>,
    FloatValue: real,
    VectorValue: Vector4)

  /** The field initialisers every constructor starts from. */
  const Blank := MaterialProperty("", "", "", false, White, None, 0.0, ZeroVector)

  /** The payload fields other than the one `tag` selects still hold their initialisers. */
  ghost predicate OtherPayloadsBlank(p: MaterialProperty, tag: string)
  {
    && (tag != ColorTag ==> p.ColorValue == White)
    && (tag != TextureTag ==> p.TextureValue == None)
    && (tag != FloatTag ==> p.FloatValue == 0.0)
    && (tag != VectorTag ==> p.VectorValue == ZeroVector)
  }

  function NewColorProperty(name: string, desc: string, value: Color): (p: MaterialProperty)
    ensures p.Name == name && p.Desc == desc && p.Type == ColorTag && !p.Change
    ensures p.ColorValue == value && OtherPayloadsBlank(p, ColorTag)
  {
    Blank.(Name := name, Desc := desc, Type := ColorTag, ColorValue := value)
  }

  function NewTextureProperty(name: string, desc: string, value: Option<Texture>): (p: MaterialProperty)
    ensures p.Name == name && p.Desc == desc && p.Type == TextureTag && !p.Change
    ensures p.TextureValue == value && OtherPayloadsBlank(p, TextureTag)
  {
    Blank.(Name := name, Desc := desc, Type := TextureTag, TextureValue := value)
  }

  function NewFloatProperty(name: string, desc: string, value: real): (p: MaterialProperty)
    ensures p.Name == name && p.Desc == desc && p.Type == FloatTag && !p.Change
    ensures p.FloatValue == value && OtherPayloadsBlank(p, FloatTag)
  {
    Blank.(Name := name, Desc := desc, Type := FloatTag, FloatValue := value)
  }

  function NewVectorProperty(name: string, desc: string, value: Vector4): (p: MaterialProperty)
    ensures p.Name == name && p.Desc == desc && p.Type == VectorTag && !p.Change
    ensures p.VectorValue == value && OtherPayloadsBlank(p, VectorTag)
  {
    Blank.(Name := name, Desc := desc, Type := VectorTag, VectorValue := value)
  }

  /**
   * The write one entry contributes to a sync: `Some(v)` when the sync
   * writes `v` under the entry's name, `None` when it writes nothing.
   */
  function Payload(p: MaterialProperty): (w: Option<Value>)
    ensures !p.Change ==> w == None
    ensures p.Type == TextureTag && p.TextureValue == None ==> w == None
    ensures p.Type != ColorTag && p.Type != TextureTag && p.Type != FloatTag && p.Type != VectorTag ==> w == None
    ensures w.Some? ==> p.Change
    ensures p.Change && p.Type == ColorTag ==> w.Some?
    ensures p.Change && p.Type == TextureTag && p.TextureValue.Some? ==> w.Some?
    ensures p.Change && p.Type == FloatTag ==> w.Some?
    ensures p.Change && p.Type == VectorTag ==> w.Some?
    ensures w.Some? && w.value.ColorEntry? ==> p.Type == ColorTag && w.value.color == p.ColorValue
    ensures w.Some? && w.value.TextureEntry? ==> p.Type == TextureTag && p.TextureValue == Some(w.value.texture)
    ensures w.Some? && w.value.FloatEntry? ==> p.Type == FloatTag && w.value.number == p.FloatValue
    ensures w.Some? && w.value.VectorEntry? ==> p.Type == VectorTag && w.value.vector == p.VectorValue
  {
    if !p.Change then None
    else if p.Type == ColorTag then Some(ColorEntry(p.ColorValue))
    else if p.Type == TextureTag then
      (if p.TextureValue.Some? then Some(TextureEntry(p.TextureValue.value)) else None)
    else if p.Type == FloatTag then Some(FloatEntry(p.FloatValue))
    else if p.Type == VectorTag then Some(VectorEntry(p.VectorValue))
    else None
  }

  /** The block a sync leaves behind: start empty, then apply every entry's write in list order. */
  function Written(props: seq<MaterialProperty>): (block: map<string, Value>)
    ensures forall key :: key in block ==> exists i :: 0 <= i < |props| && props[i].Name == key
  {
    if props == [] then map[]
    else
      var before := Written(props[..|props| - 1]);
      var last := props[|props| - 1];
      match Payload(last)
      case None => before
      case Some(v) => before[last.Name := v]
  }

  /** Entry `i` is the last one in the list that writes under its own name. */
  ghost predicate LastWriter(props: seq<MaterialProperty>, i: int)
    requires 0 <= i < |props|
  {
    && Payload(props[i]).Some?
    && forall j :: i < j < |props| && props[j].Name == props[i].Name ==> Payload(props[j]).None?
  }

  /** The block holds a key exactly when some entry of that name writes. */
  lemma {:induction false} WrittenKeys(props: seq<MaterialProperty>, key: string)
    ensures key in Written(props) <==>
      exists i :: 0 <= i < |props| && props[i].Name == key && Payload(props[i]).Some?
  {
    if props != [] {
      var init := props[..|props| - 1];
      WrittenKeys(init, key);
      if key in Written(props) && key !in Written(init) {
        assert props[|props| - 1].Name == key && Payload(props[|props| - 1]).Some?;
      }
      if key in Written(init) {
        var i :| 0 <= i < |init| && init[i].Name == key && Payload(init[i]).Some?;
        assert props[i] == init[i];
      }
      if exists i :: 0 <= i < |props| && props[i].Name == key && Payload(props[i]).Some? {
        var i :| 0 <= i < |props| && props[i].Name == key && Payload(props[i]).Some?;
        if i < |init| {
          assert init[i] == props[i];
        }
      }
    }
  }

  /** Writes happen in list order: the last writing entry of a name decides its value. */
  lemma {:induction false} WrittenLastWins(props: seq<MaterialProperty>, i: int)
    requires 0 <= i < |props| && LastWriter(props, i)
    ensures props[i].Name in Written(props)
    ensures Written(props)[props[i].Name] == Payload(props[i]).value
  {
    var n := |props| - 1;
    var init := props[..n];
    if i < n {
      assert init[i] == props[i];
      assert LastWriter(init, i) by {
        forall j | i < j < |init| && init[j].Name == init[i].Name
          ensures Payload(init[j]).None?
        {
          assert init[j] == props[j];
        }
      }
      WrittenLastWins(init, i);
      if props[n].Name == props[i].Name {
        assert Payload(props[n]).None?;
      }
    }
  }

  /**
   * Turning an entry's override off removes its key from the next sync's
   * block, unless another entry of the same name still writes.
   */
  lemma DisablingRemovesKey(props: seq<MaterialProperty>, i: int)
    requires 0 <= i < |props|
    requires forall j :: 0 <= j < |props| && j != i && props[j].Name == props[i].Name ==> Payload(props[j]).None?
    ensures props[i].Name !in Written(props[i := props[i].(Change := false)])
  {
    var after := props[i := props[i].(Change := false)];
    forall j | 0 <= j < |after| && after[j].Name == props[i].Name
      ensures Payload(after[j]).None?
    {
      if j != i {
        assert after[j] == props[j];
      }
    }
    WrittenKeys(after, props[i].Name);
  }

  /** Every entry a constructor builds is recognised by the sync, which writes back exactly the payload it was given. */
  lemma ConstructedEntriesWriteTheirPayload(name: string, desc: string, c: Color, t: Option<Texture>, f: real, v: Vector4)
    ensures Payload(NewColorProperty(name, desc, c).(Change := true)) == Some(ColorEntry(c))
    ensures Payload(NewTextureProperty(name, desc, t).(Change := true)) ==
      (if t.Some? then Some(TextureEntry(t.value)) else None)
    ensures Payload(NewFloatProperty(name, desc, f).(Change := true)) == Some(FloatEntry(f))
    ensures Payload(NewVectorProperty(name, desc, v).(Change := true)) == Some(VectorEntry(v))
    ensures Payload(NewColorProperty(name, desc, c)) == None
  {
  }

  /**
   * The component on one object. `renderer` is what looking up the
   * object's MeshRenderer component answers; `mesh` and `matProps` are the
   * component's cached renderer and its one property block.
   */
  class MaterialInstancedProperties {
    var Properties: seq<MaterialProperty>
    var mesh: MeshRenderer?
    var matProps: MaterialPropertyBlock?
    const renderer: MeshRenderer?

    /** The cached renderer, once set, is the object's own. */
    ghost predicate Valid()
      reads this
    {
      mesh == null || mesh == renderer
    }

    constructor (renderer: MeshRenderer?)
      ensures Valid()
      ensures this.renderer == renderer && Properties == [] && mesh == null && matProps == null
    {
      this.renderer := renderer;
      Properties := [];
      mesh := null;
      matProps := null;
    }

    method Awake()
      requires Valid() && renderer != null
      modifies this, renderer, matProps
      ensures Valid() && mesh == renderer && matProps != null
      ensures Properties == old(Properties)
      ensures renderer.sharedMaterial == old(renderer.sharedMaterial)
      ensures old(mesh) != null && old(matProps) != null ==> matProps == old(matProps)
      ensures old(mesh) == null || old(matProps) == null ==> fresh(matProps)
      ensures |Properties| > 0 ==> matProps.values == Written(Properties)
      ensures |Properties| > 0 ==> renderer.bound == Some(Written(Properties))
      ensures |Properties| == 0 ==> renderer.bound == old(renderer.bound)
      ensures |Properties| == 0 && old(mesh) != null && old(matProps) != null ==>
        matProps.values == old(matProps.values)
      ensures |Properties| == 0 && (old(mesh) == null || old(matProps) == null) ==>
        matProps.values == if renderer.bound.Some? then renderer.bound.value else map[]
    {
      SetMaterialPropertyBlock();
    }

    method Update()
      requires Valid() && renderer != null
      modifies this, renderer, matProps
      ensures Valid() && mesh == renderer && matProps != null
      ensures Properties == old(Properties)
      ensures renderer.sharedMaterial == old(renderer.sharedMaterial)
      ensures old(mesh) != null && old(matProps) != null ==> matProps == old(matProps)
      ensures old(mesh) == null || old(matProps) == null ==> fresh(matProps)
      ensures |Properties| > 0 ==> matProps.values == Written(Properties)
      ensures |Properties| > 0 ==> renderer.bound == Some(Written(Properties))
      ensures |Properties| == 0 ==> renderer.bound == old(renderer.bound)
      ensures |Properties| == 0 && old(mesh) != null && old(matProps) != null ==>
        matProps.values == old(matProps.values)
      ensures |Properties| == 0 && (old(mesh) == null || old(matProps) == null) ==>
        matProps.values == if renderer.bound.Some? then renderer.bound.value else map[]
    {
      SetMaterialPropertyBlock();
    }

    /** Unbinds the overrides, whether or not a block was ever created. */
    method OnDestroy()
      requires Valid()
      modifies this`mesh, renderer
      ensures Valid() && mesh == renderer
      ensures renderer != null ==> renderer.bound == None
      ensures renderer != null ==> renderer.sharedMaterial == old(renderer.sharedMaterial)
    {
      if mesh == null {
        mesh := renderer;
      }
      if mesh != null {
        mesh.SetPropertyBlock(null);
      }
    }

    /**
     * Creates the block on first use (seeded with what the renderer has
     * bound), then, when the list is non-empty, clears it, writes every
     * enabled entry in list order and binds it.
     */
    method SetMaterialPropertyBlock()
      requires Valid() && renderer != null
      modifies this, renderer, matProps
      ensures Valid() && mesh == renderer && matProps != null
      ensures Properties == old(Properties)
      ensures renderer.sharedMaterial == old(renderer.sharedMaterial)
      ensures old(mesh) != null && old(matProps) != null ==> matProps == old(matProps)
      ensures old(mesh) == null || old(matProps) == null ==> fresh(matProps)
      ensures |Properties| > 0 ==> matProps.values == Written(Properties)
      ensures |Properties| > 0 ==> renderer.bound == Some(Written(Properties))
      ensures |Properties| == 0 ==> renderer.bound == old(renderer.bound)
      ensures |Properties| == 0 && old(mesh) != null && old(matProps) != null ==>
        matProps.values == old(matProps.values)
      ensures |Properties| == 0 && (old(mesh) == null || old(matProps) == null) ==>
        matProps.values == if renderer.bound.Some? then renderer.bound.value else map[]
    {
      if mesh == null || matProps == null {
        mesh := renderer;
        matProps := new MaterialPropertyBlock();
        mesh.GetPropertyBlock(matProps);
      }
      var block := matProps;
      if |Properties| > 0 {
        block.Clear();
        var i := 0;
        while i < |Properties|
          modifies block
          invariant 0 <= i <= |Properties|
          invariant block.values == Written(Properties[..i])
        {
          var property := Properties[i];
          assert Properties[..i + 1][..i] == Properties[..i];
          if property.Change {
            if property.Type == ColorTag {
              block.SetColor(property.Name, property.ColorValue);
            } else if property.Type == TextureTag {
              if property.TextureValue != None {
                block.SetTexture(property.Name, property.TextureValue.value);
              }
            } else if property.Type == FloatTag {
              block.SetFloat(property.Name, property.FloatValue);
            } else if property.Type == VectorTag {
              block.SetVector(property.Name, property.VectorValue);
            }
          }
          i := i + 1;
        }
        assert Properties[..i] == Properties;
        mesh.SetPropertyBlock(block);
      }
    }
  }
}
